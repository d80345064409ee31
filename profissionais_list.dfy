/** The list of professionals: its search, approval and rejection of pending
    professionals, and deletion. */
module ProfissionaisList {
  import opened Wrappers
  import opened Text
  import Collections
  import opened ListScreen

  datatype Profissional = Profissional(id: string, nome: string, email: string, especialidade: string, status: string)

  function IdOf(p: Profissional): string {
    p.id
  }

  /** The search of `filteredProfissionais`: the term in nome, email or especialidade. */
  predicate Kept(p: Profissional, term: string) {
    Matches(p.nome, term) || Matches(p.email, term) || Matches(p.especialidade, term)
  }

  function KeepFn(term: string): Profissional -> bool {
    (p: Profissional) => Kept(p, term)
  }

  /** `filteredProfissionais`. */
  function Filtered(s: seq<Profissional>, term: string): seq<Profissional> {
    Collections.Filter(s, KeepFn(term))
  }

  /** The shown list is an order-preserving sublist of exactly the professionals the
      term matches, and the empty term shows them all. */
  lemma FilteredSpec(s: seq<Profissional>, term: string)
    ensures Collections.SubseqOf(Filtered(s, term), s)
    ensures forall p :: p in Filtered(s, term) <==> p in s && Kept(p, term)
    ensures forall p :: multiset(Filtered(s, term))[p] == if Kept(p, term) then multiset(s)[p] else 0
    ensures Filtered(s, "") == s
  {
    FilterSpec(s, KeepFn(term));
    forall p | p in s ensures KeepFn("")(p) {
      EmptyTermMatches(p.nome);
    }
    Collections.FilterAll(s, KeepFn(""));
  }

  function WithStatus(status: string): Profissional -> Profissional {
    (p: Profissional) => p.(status := status)
  }

  /** `profissionais.map(p => p.id === id ? { ...p, status } : p)`. */
  function SetStatus(s: seq<Profissional>, id: string, status: string): (r: seq<Profissional>)
    ensures |r| == |s|
    ensures forall i :: 0 <= i < |s| ==> r[i] == if s[i].id == id then s[i].(status := status) else s[i]
  {
    SetById(s, IdOf, id, WithStatus(status))
  }

  /** `profissionais.filter(p => p.id !== id)`. */
  function Without(s: seq<Profissional>, id: string): (r: seq<Profissional>)
    ensures |r| <= |s|
    ensures forall i :: 0 <= i < |r| ==> r[i].id != id
  {
    RemoveById(s, IdOf, id)
  }

  /** Deletion keeps every other professional, in order, and no one with the id. */
  lemma WithoutSpec(s: seq<Profissional>, id: string)
    ensures Collections.SubseqOf(Without(s, id), s)
    ensures forall p :: p in Without(s, id) <==> p in s && p.id != id
    ensures forall p :: multiset(Without(s, id))[p] == if p.id != id then multiset(s)[p] else 0
  {
    RemoveByIdSpec(s, IdOf, id);
  }

  /** Approve and reject are in a row's menu only while the professional is "Pendente". */
  predicate OffersReview(p: Profissional) {
    p.status == "Pendente"
  }

  /** Once approved or rejected, a professional is no longer offered a review, and the
      others keep theirs. */
  lemma ReviewIsFinal(s: seq<Profissional>, id: string, status: string)
    requires status == "Aprovado" || status == "Rejeitado"
    ensures forall i :: 0 <= i < |s| ==>
      (OffersReview(SetStatus(s, id, status)[i]) <==> s[i].id != id && OffersReview(s[i]))
  {
  }

  /** The screen's state: the loaded professionals and the one awaiting deletion. */
  class Screen {
    var profissionais: seq<Profissional>
    var profissionalParaExcluir: Option<string>

    constructor ()
      ensures profissionais == [] && profissionalParaExcluir == None
    {
      profissionais, profissionalParaExcluir := [], None;
    }

    /** `handleAprovar`: a success marks the professionals with that id "Aprovado";
        a failure changes nothing. */
    method HandleAprovar(id: string, ok: bool)
      modifies this`profissionais
      ensures profissionais == if ok then SetStatus(old(profissionais), id, "Aprovado") else old(profissionais)
    {
      if ok {
        profissionais := SetStatus(profissionais, id, "Aprovado");
      }
    }

    /** `handleRejeitar`: a success marks the professionals with that id "Rejeitado";
        a failure changes nothing. */
    method HandleRejeitar(id: string, ok: bool)
      modifies this`profissionais
      ensures profissionais == if ok then SetStatus(old(profissionais), id, "Rejeitado") else old(profissionais)
    {
      if ok {
        profissionais := SetStatus(profissionais, id, "Rejeitado");
      }
    }

    /** `handleExcluir`: without a target nothing happens; otherwise the target is
        deleted remotely, a success removes it from the list, a failure changes nothing,
        and the target is cleared either way. */
    method HandleExcluir(ok: bool) returns (called: Option<string>)
      modifies this
      ensures NoTarget(old(profissionalParaExcluir)) ==>
        called == None && profissionais == old(profissionais) && profissionalParaExcluir == old(profissionalParaExcluir)
      ensures !NoTarget(old(profissionalParaExcluir)) ==>
        && called == old(profissionalParaExcluir)
        && profissionalParaExcluir == None
        && profissionais == if ok then Without(old(profissionais), called.value) else old(profissionais)
    {
      if NoTarget(profissionalParaExcluir) {
        return None;
      }
      var id := profissionalParaExcluir.value;
      called := Some(id);
      if ok {
        profissionais := Without(profissionais, id);
      }
      profissionalParaExcluir := None;
    }
  }
}
