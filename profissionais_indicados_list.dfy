/** The list of referred professionals with a status text, their search with the
    status and specialty selectors, and the activate and deactivate actions. */
module ProfissionaisIndicadosList {
  import opened Wrappers
  import opened Text
  import Collections
  import opened ListScreen

  datatype Indicado = Indicado(
    id: string,
    nome: string,
    email: string,
    especialidade: string,
    indicadoPor: Option<string>,
    status: string)

  function IdOf(p: Indicado): string {
    p.id
  }

  /** The search part: the term in nome, email, especialidade or, when it is set
      and not empty, indicadoPor. */
  predicate MatchesSearch(p: Indicado, term: string) {
    || Matches(p.nome, term)
    || Matches(p.email, term)
    || Matches(p.especialidade, term)
    || (p.indicadoPor.Some? && p.indicadoPor.value != "" && Matches(p.indicadoPor.value, term))
  }

  /** The three conditions of `filteredProfissionais`. */
  predicate Kept(p: Indicado, term: string, filtroStatus: string, filtroEspecialidade: string) {
    && MatchesSearch(p, term)
    && Selected(p.status, filtroStatus, "todos")
    && Selected(p.especialidade, filtroEspecialidade, "todas")
  }

  function KeepFn(term: string, filtroStatus: string, filtroEspecialidade: string): Indicado -> bool {
    (p: Indicado) => Kept(p, term, filtroStatus, filtroEspecialidade)
  }

  /** `filteredProfissionais`. */
  function Filtered(s: seq<Indicado>, term: string, filtroStatus: string, filtroEspecialidade: string): seq<Indicado> {
    Collections.Filter(s, KeepFn(term, filtroStatus, filtroEspecialidade))
  }

  /** The shown list is an order-preserving sublist holding exactly the professionals
      that meet all three conditions. */
  lemma FilteredSpec(s: seq<Indicado>, term: string, filtroStatus: string, filtroEspecialidade: string)
    ensures Collections.SubseqOf(Filtered(s, term, filtroStatus, filtroEspecialidade), s)
    ensures forall p :: p in Filtered(s, term, filtroStatus, filtroEspecialidade) <==>
      p in s && Kept(p, term, filtroStatus, filtroEspecialidade)
    ensures forall p :: multiset(Filtered(s, term, filtroStatus, filtroEspecialidade))[p] ==
                if Kept(p, term, filtroStatus, filtroEspecialidade) then multiset(s)[p] else 0
  {
    FilterSpec(s, KeepFn(term, filtroStatus, filtroEspecialidade));
  }

  /** The screen's initial filters (no term, "todos", "todas") show every professional. */
  lemma InitialFiltersKeepAll(s: seq<Indicado>)
    ensures Filtered(s, "", "todos", "todas") == s
  {
    forall p | p in s ensures KeepFn("", "todos", "todas")(p) {
      EmptyTermMatches(p.nome);
    }
    Collections.FilterAll(s, KeepFn("", "todos", "todas"));
  }

  function LowerEspecialidades(s: seq<Indicado>): (r: seq<string>)
    ensures |r| == |s|
    ensures forall i :: 0 <= i < |s| ==> r[i] == Lower(s[i].especialidade)
  {
    seq(|s|, i requires 0 <= i < |s| => Lower(s[i].especialidade))
  }

  /** `especialidades`: "todas", then each lower-cased specialty once. */
  function Especialidades(s: seq<Indicado>): seq<string> {
    ["todas"] + Collections.Dedup(LowerEspecialidades(s))
  }

  /** The selector opens with "todas" and then lists every lower-cased specialty of
      the list exactly once, nothing else, in the order they first appear. */
  lemma EspecialidadesSpec(s: seq<Indicado>)
    ensures Especialidades(s)[0] == "todas"
    ensures var opts := Especialidades(s)[1..];
      && Collections.Distinct(opts)
      && (forall i :: 0 <= i < |s| ==> Lower(s[i].especialidade) in opts)
      && (forall k :: 0 <= k < |opts| ==> opts[k] in LowerEspecialidades(s))
      && (forall k, l :: 0 <= k < l < |opts| ==>
            Collections.IndexOf(LowerEspecialidades(s), opts[k]) < Collections.IndexOf(LowerEspecialidades(s), opts[l]))
  {
    var names := LowerEspecialidades(s);
    assert Especialidades(s)[1..] == Collections.Dedup(names);
    Collections.DedupOrder(names);
    forall i | 0 <= i < |s| ensures Lower(s[i].especialidade) in Collections.Dedup(names) {
      assert names[i] == Lower(s[i].especialidade);
    }
  }

  function WithStatus(status: string): Indicado -> Indicado {
    (p: Indicado) => p.(status := status)
  }

  /** `profissionais.map(p => p.id === id ? { ...p, status } : p)`: the professionals
      with that id take the status; every other one, and the length, stay as they were. */
  function SetStatus(s: seq<Indicado>, id: string, status: string): (r: seq<Indicado>)
    ensures |r| == |s|
    ensures forall i :: 0 <= i < |s| ==> r[i] == if s[i].id == id then s[i].(status := status) else s[i]
  {
    SetById(s, IdOf, id, WithStatus(status))
  }

  /** Setting a status twice is setting it once, and a list without the id is unchanged. */
  lemma SetStatusSpec(s: seq<Indicado>, id: string, status: string)
    ensures SetStatus(SetStatus(s, id, status), id, status) == SetStatus(s, id, status)
    ensures (forall i :: 0 <= i < |s| ==> s[i].id != id) ==> SetStatus(s, id, status) == s
  {
    SetByIdSpec(s, IdOf, id, WithStatus(status));
  }

  /** The screen's state: the loaded professionals and the one awaiting deactivation. */
  class Screen {
    var profissionais: seq<Indicado>
    var profissionalParaDesativar: Option<string>

    constructor ()
      ensures profissionais == [] && profissionalParaDesativar == None
    {
      profissionais, profissionalParaDesativar := [], None;
    }

    /** `handleDesativar`, with `ok` the outcome of the remote call: without a target
        nothing happens; otherwise the call is made for the target, a success marks it
        "Inativo", a failure changes nothing, and the target is cleared either way. */
    method HandleDesativar(ok: bool) returns (called: Option<string>)
      modifies this
      ensures NoTarget(old(profissionalParaDesativar)) ==>
        called == None && profissionais == old(profissionais) && profissionalParaDesativar == old(profissionalParaDesativar)
      ensures !NoTarget(old(profissionalParaDesativar)) ==>
        && called == old(profissionalParaDesativar)
        && profissionalParaDesativar == None
        && profissionais == if ok then SetStatus(old(profissionais), called.value, "Inativo") else old(profissionais)
    {
      if NoTarget(profissionalParaDesativar) {
        return None;
      }
      var id := profissionalParaDesativar.value;
      called := Some(id);
      if ok {
        profissionais := SetStatus(profissionais, id, "Inativo");
      }
      profissionalParaDesativar := None;
    }

    /** `handleAtivar`: a success marks the professionals with that id "Aprovado";
        a failure changes nothing. */
    method HandleAtivar(id: string, ok: bool)
      modifies this`profissionais
      ensures profissionais == if ok then SetStatus(old(profissionais), id, "Aprovado") else old(profissionais)
    {
      if ok {
        profissionais := SetStatus(profissionais, id, "Aprovado");
      }
    }
  }
}
