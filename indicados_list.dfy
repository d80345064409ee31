/** The list of referred professionals with an `isActive` flag: its search over
    name and email, and the activate and deactivate actions that flip the flag. */
module IndicadosList {
  import opened Wrappers
  import opened Text
  import Collections
  import opened ListScreen

  datatype ProfissionalIndicado = ProfissionalIndicado(
    id: string,
    name: string,
    email: Option<string>,
    isActive: bool)

  function IdOf(p: ProfissionalIndicado): string {
    p.id
  }

  /** The search of `filteredProfissionais`: the term in the name or in the email,
      a missing email read as "". The status and specialty selectors of the screen
      take no part in it. */
  predicate Kept(p: ProfissionalIndicado, term: string) {
    Matches(p.name, term) || Matches(p.email.GetOr(""), term)
  }

  function KeepFn(term: string): ProfissionalIndicado -> bool {
    (p: ProfissionalIndicado) => Kept(p, term)
  }

  /** `filteredProfissionais`; the two selectors are parameters it does not read. */
  function Filtered(s: seq<ProfissionalIndicado>, term: string, filtroStatus: string, filtroEspecialidade: string)
    : seq<ProfissionalIndicado>
  {
    Collections.Filter(s, KeepFn(term))
  }

  /** The shown list is an order-preserving sublist of exactly the professionals whose
      name or email holds the term, whatever the selectors say. */
  lemma FilteredSpec(s: seq<ProfissionalIndicado>, term: string, filtroStatus: string, filtroEspecialidade: string)
    ensures Collections.SubseqOf(Filtered(s, term, filtroStatus, filtroEspecialidade), s)
    ensures forall p :: p in Filtered(s, term, filtroStatus, filtroEspecialidade) <==> p in s && Kept(p, term)
    ensures forall p :: multiset(Filtered(s, term, filtroStatus, filtroEspecialidade))[p] ==
                if Kept(p, term) then multiset(s)[p] else 0
    ensures forall fs, fe :: Filtered(s, term, fs, fe) == Filtered(s, term, filtroStatus, filtroEspecialidade)
  {
    FilterSpec(s, KeepFn(term));
  }

  /** A professional without an email is found by its name alone; its missing email
      matches the empty term only. */
  lemma MissingEmail(p: ProfissionalIndicado, term: string)
    requires p.email.None?
    ensures Kept(p, term) <==> Matches(p.name, term)
    ensures Matches(p.email.GetOr(""), term) <==> term == ""
  {
    EmptyFieldMatchesIff(term);
    if term == "" {
      EmptyTermMatches(p.name);
    }
  }

  function WithActive(active: bool): ProfissionalIndicado -> ProfissionalIndicado {
    (p: ProfissionalIndicado) => p.(isActive := active)
  }

  /** `profissionais.map(p => p.id === id ? { ...p, isActive } : p)`. */
  function SetActive(s: seq<ProfissionalIndicado>, id: string, active: bool): (r: seq<ProfissionalIndicado>)
    ensures |r| == |s|
    ensures forall i :: 0 <= i < |s| ==> r[i] == if s[i].id == id then s[i].(isActive := active) else s[i]
  {
    SetById(s, IdOf, id, WithActive(active))
  }

  /** The action a row offers: activate an inactive professional, deactivate an
      active one; the detail dialog offers the same. */
  datatype Action = Ativar | Desativar

  function OfferedAction(p: ProfissionalIndicado): Action {
    if !p.isActive then Ativar else Desativar
  }

  /** The flag the action's handler sets on success. */
  function FlagSet(a: Action): bool {
    a == Ativar
  }

  /** Carrying out the offered action flips the professional's flag, and only its own:
      the others with another id are untouched. */
  lemma OfferedActionFlips(s: seq<ProfissionalIndicado>, i: nat)
    requires i < |s|
    ensures SetActive(s, s[i].id, FlagSet(OfferedAction(s[i])))[i].isActive == !s[i].isActive
    ensures forall j :: 0 <= j < |s| && s[j].id != s[i].id ==>
      SetActive(s, s[i].id, FlagSet(OfferedAction(s[i])))[j] == s[j]
  {
  }

  /** Activating or deactivating twice is doing it once. */
  lemma SetActiveIdempotent(s: seq<ProfissionalIndicado>, id: string, active: bool)
    ensures SetActive(SetActive(s, id, active), id, active) == SetActive(s, id, active)
  {
    SetByIdSpec(s, IdOf, id, WithActive(active));
  }

  /** The screen's state: the loaded professionals and the one awaiting deactivation. */
  class Screen {
    var profissionais: seq<ProfissionalIndicado>
    var profissionalParaDesativar: Option<string>

    constructor ()
      ensures profissionais == [] && profissionalParaDesativar == None
    {
      profissionais, profissionalParaDesativar := [], None;
    }

    /** `handleDesativar`: without a target nothing happens; otherwise the status call
        is made for the target, a success clears its flag, a failure changes nothing,
        and the target is cleared either way. */
    method HandleDesativar(ok: bool) returns (called: Option<string>)
      modifies this
      ensures NoTarget(old(profissionalParaDesativar)) ==>
        called == None && profissionais == old(profissionais) && profissionalParaDesativar == old(profissionalParaDesativar)
      ensures !NoTarget(old(profissionalParaDesativar)) ==>
        && called == old(profissionalParaDesativar)
        && profissionalParaDesativar == None
        && profissionais == if ok then SetActive(old(profissionais), called.value, false) else old(profissionais)
    {
      if NoTarget(profissionalParaDesativar) {
        return None;
      }
      var id := profissionalParaDesativar.value;
      called := Some(id);
      if ok {
        profissionais := SetActive(profissionais, id, false);
      }
      profissionalParaDesativar := None;
    }

    /** `handleAtivar`: a success sets the flag of the professionals with that id;
        a failure changes nothing. */
    method HandleAtivar(id: string, ok: bool)
      modifies this`profissionais
      ensures profissionais == if ok then SetActive(old(profissionais), id, true) else old(profissionais)
    {
      if ok {
        profissionais := SetActive(profissionais, id, true);
      }
    }
  }
}
