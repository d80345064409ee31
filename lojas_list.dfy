/** The list of stores: its search over name, city and state, deletion, the status
    change with its two remote calls, and the store whose professionals are shown. */
module LojasList {
  import opened Wrappers
  import opened Text
  import Collections
  import opened ListScreen

  datatype Endereco = Endereco(cidade: string, estado: string)

  datatype LojaItem = LojaItem(id: string, nome: string, endereco: Endereco, status: string)

  /** A professional listed for a store; its fields are shown, never inspected. */
  datatype ProfissionalDaLoja = ProfissionalDaLoja(id: string, nome: string)

  function IdOf(l: LojaItem): string {
    l.id
  }

  /** The search of `filteredLojas`: the term in the name, the city or the state. */
  predicate Kept(l: LojaItem, term: string) {
    Matches(l.nome, term) || Matches(l.endereco.cidade, term) || Matches(l.endereco.estado, term)
  }

  function KeepFn(term: string): LojaItem -> bool {
    (l: LojaItem) => Kept(l, term)
  }

  /** `filteredLojas`. */
  function Filtered(s: seq<LojaItem>, term: string): seq<LojaItem> {
    Collections.Filter(s, KeepFn(term))
  }

  /** The shown list is an order-preserving sublist of exactly the stores the term
      matches, and the empty term shows them all. */
  lemma FilteredSpec(s: seq<LojaItem>, term: string)
    ensures Collections.SubseqOf(Filtered(s, term), s)
    ensures forall l :: l in Filtered(s, term) <==> l in s && Kept(l, term)
    ensures forall l :: multiset(Filtered(s, term))[l] == if Kept(l, term) then multiset(s)[l] else 0
    ensures Filtered(s, "") == s
  {
    FilterSpec(s, KeepFn(term));
    forall l | l in s ensures KeepFn("")(l) {
      EmptyTermMatches(l.nome);
    }
    Collections.FilterAll(s, KeepFn(""));
  }

  function WithStatus(status: string): LojaItem -> LojaItem {
    (l: LojaItem) => l.(status := status)
  }

  /** `lojas.map(l => l.id === id ? { ...l, status } : l)`. */
  function SetStatus(s: seq<LojaItem>, id: string, status: string): (r: seq<LojaItem>)
    ensures |r| == |s|
    ensures forall i :: 0 <= i < |s| ==> r[i] == if s[i].id == id then s[i].(status := status) else s[i]
  {
    SetById(s, IdOf, id, WithStatus(status))
  }

  /** `lojas.filter(l => l.id !== id)`. */
  function Without(s: seq<LojaItem>, id: string): (r: seq<LojaItem>)
    ensures |r| <= |s|
    ensures forall i :: 0 <= i < |r| ==> r[i].id != id
  {
    RemoveById(s, IdOf, id)
  }

  /** Deletion keeps every other store, in order, and none with the id. */
  lemma WithoutSpec(s: seq<LojaItem>, id: string)
    ensures Collections.SubseqOf(Without(s, id), s)
    ensures forall l :: l in Without(s, id) <==> l in s && l.id != id
    ensures forall l :: multiset(Without(s, id))[l] == if l.id != id then multiset(s)[l] else 0
  {
    RemoveByIdSpec(s, IdOf, id);
  }

  /** The status a row's menu offers. */
  function OfferedStatus(status: string): string {
    ListScreen.OfferedStatus(status, "Ativa", "Inativa")
  }

  /** "Ativa" is offered "Inativa"; "Inativa", "Suspensa" and any other status are
      offered "Ativa"; the offer always changes the status. */
  lemma OfferedStatusSpec(status: string)
    ensures OfferedStatus("Ativa") == "Inativa"
    ensures OfferedStatus("Suspensa") == "Ativa"
    ensures status != "Ativa" ==> OfferedStatus(status) == "Ativa"
    ensures OfferedStatus(status) != status
  {
    ListScreen.OfferedStatusSpec(status, "Ativa", "Inativa");
  }

  function HasId(id: string): LojaItem -> bool {
    (l: LojaItem) => l.id == id
  }

  /** `lojas.find(l => l.id === lojaId)`: the first store with that id, if any. */
  function FindLoja(s: seq<LojaItem>, id: string): (r: Option<LojaItem>)
    ensures r.None? <==> forall i :: 0 <= i < |s| ==> s[i].id != id
    ensures r.Some? ==> exists i :: 0 <= i < |s| && s[i] == r.value && r.value.id == id &&
                                    forall j :: 0 <= j < i ==> s[j].id != id
  {
    Collections.Find(s, HasId(id))
  }

  /** The remote call behind a status change. */
  datatype StatusCall = AtivarLoja(id: string) | DesativarLoja(id: string)

  /** The screen's state: the stores, the one awaiting deletion, and the store whose
      professionals are shown with that list and its loading flag. */
  class Screen {
    var lojas: seq<LojaItem>
    var lojaParaExcluir: Option<string>
    var lojaDetalhes: Option<LojaItem>
    var profissionaisLoja: seq<ProfissionalDaLoja>
    var loadingProfissionais: bool

    constructor ()
      ensures lojas == [] && lojaParaExcluir == None && lojaDetalhes == None
      ensures profissionaisLoja == [] && !loadingProfissionais
    {
      lojas, lojaParaExcluir, lojaDetalhes := [], None, None;
      profissionaisLoja, loadingProfissionais := [], false;
    }

    /** `handleExcluir`: without a target nothing happens; otherwise the target is
        deleted remotely, a success removes it from the list, a failure changes nothing,
        and the target is cleared either way. */
    method HandleExcluir(ok: bool) returns (called: Option<string>)
      modifies this`lojas, this`lojaParaExcluir
      ensures NoTarget(old(lojaParaExcluir)) ==>
        called == None && lojas == old(lojas) && lojaParaExcluir == old(lojaParaExcluir)
      ensures !NoTarget(old(lojaParaExcluir)) ==>
        && called == old(lojaParaExcluir)
        && lojaParaExcluir == None
        && lojas == if ok then Without(old(lojas), called.value) else old(lojas)
    {
      if NoTarget(lojaParaExcluir) {
        return None;
      }
      var id := lojaParaExcluir.value;
      called := Some(id);
      if ok {
        lojas := Without(lojas, id);
      }
      lojaParaExcluir := None;
    }

    /** `handleAlterarStatus`: "Ativa" goes to the activation call and any other status
        to the deactivation call; a success gives the stores with that id the new
        status, a failure changes nothing. */
    method HandleAlterarStatus(id: string, novoStatus: string, ok: bool) returns (call: StatusCall)
      modifies this`lojas
      ensures call == if novoStatus == "Ativa" then AtivarLoja(id) else DesativarLoja(id)
      ensures lojas == if ok then SetStatus(old(lojas), id, novoStatus) else old(lojas)
    {
      if novoStatus == "Ativa" {
        call := AtivarLoja(id);
      } else {
        call := DesativarLoja(id);
      }
      if ok {
        lojas := SetStatus(lojas, id, novoStatus);
      }
    }

    /** `verProfissionais`, with `reply` the answer to the listing request: the first
        store with the id is shown whatever the answer, its professionals replace the
        shown ones only when the request succeeds, and loading ends either way. */
    method VerProfissionais(lojaId: string, reply: Reply<seq<ProfissionalDaLoja>>)
      modifies this`lojaDetalhes, this`profissionaisLoja, this`loadingProfissionais
      ensures lojaDetalhes == FindLoja(lojas, lojaId)
      ensures profissionaisLoja == if reply.Resolved? then reply.value else old(profissionaisLoja)
      ensures !loadingProfissionais
    {
      loadingProfissionais := true;
      lojaDetalhes := FindLoja(lojas, lojaId);
      if reply.Resolved? {
        profissionaisLoja := reply.value;
      }
      loadingProfissionais := false;
    }
  }
}
