/** The list of registrations: its search with the status and type selectors, the
    type selector's options, and the status change with its two remote calls. */
module CadastrosList {
  import opened Wrappers
  import opened Text
  import Collections
  import opened ListScreen

  datatype Cadastro = Cadastro(id: string, nome: string, email: string, tipo: string, status: string)

  function IdOf(c: Cadastro): string {
    c.id
  }

  /** The three conditions of `filteredCadastros`. */
  predicate Kept(c: Cadastro, term: string, filtroStatus: string, filtroTipo: string) {
    && (Matches(c.nome, term) || Matches(c.email, term) || Matches(c.tipo, term))
    && Selected(c.status, filtroStatus, "todos")
    && Selected(c.tipo, filtroTipo, "todos")
  }

  function KeepFn(term: string, filtroStatus: string, filtroTipo: string): Cadastro -> bool {
    (c: Cadastro) => Kept(c, term, filtroStatus, filtroTipo)
  }

  /** `filteredCadastros`. */
  function Filtered(s: seq<Cadastro>, term: string, filtroStatus: string, filtroTipo: string): seq<Cadastro> {
    Collections.Filter(s, KeepFn(term, filtroStatus, filtroTipo))
  }

  /** The shown list is an order-preserving sublist of exactly the registrations that
      meet all three conditions. */
  lemma FilteredSpec(s: seq<Cadastro>, term: string, filtroStatus: string, filtroTipo: string)
    ensures Collections.SubseqOf(Filtered(s, term, filtroStatus, filtroTipo), s)
    ensures forall c :: c in Filtered(s, term, filtroStatus, filtroTipo) <==> c in s && Kept(c, term, filtroStatus, filtroTipo)
    ensures forall c :: multiset(Filtered(s, term, filtroStatus, filtroTipo))[c] ==
                if Kept(c, term, filtroStatus, filtroTipo) then multiset(s)[c] else 0
  {
    FilterSpec(s, KeepFn(term, filtroStatus, filtroTipo));
  }

  /** The initial filters (no term, both selectors at "todos") show every registration. */
  lemma InitialFiltersKeepAll(s: seq<Cadastro>)
    ensures Filtered(s, "", "todos", "todos") == s
  {
    forall c | c in s ensures KeepFn("", "todos", "todos")(c) {
      EmptyTermMatches(c.nome);
    }
    Collections.FilterAll(s, KeepFn("", "todos", "todos"));
  }

  function LowerTipos(s: seq<Cadastro>): (r: seq<string>)
    ensures |r| == |s|
    ensures forall i :: 0 <= i < |s| ==> r[i] == Lower(s[i].tipo)
  {
    seq(|s|, i requires 0 <= i < |s| => Lower(s[i].tipo))
  }

  /** `tiposCadastro`: "todos", then each lower-cased type once. */
  function TiposCadastro(s: seq<Cadastro>): seq<string> {
    ["todos"] + Collections.Dedup(LowerTipos(s))
  }

  /** The type selector opens with "todos" and then lists every lower-cased type of
      the list exactly once, nothing else, in the order they first appear. */
  lemma TiposCadastroSpec(s: seq<Cadastro>)
    ensures TiposCadastro(s)[0] == "todos"
    ensures var opts := TiposCadastro(s)[1..];
      && Collections.Distinct(opts)
      && (forall i :: 0 <= i < |s| ==> Lower(s[i].tipo) in opts)
      && (forall k :: 0 <= k < |opts| ==> opts[k] in LowerTipos(s))
      && (forall k, l :: 0 <= k < l < |opts| ==>
            Collections.IndexOf(LowerTipos(s), opts[k]) < Collections.IndexOf(LowerTipos(s), opts[l]))
  {
    var tipos := LowerTipos(s);
    assert TiposCadastro(s)[1..] == Collections.Dedup(tipos);
    Collections.DedupOrder(tipos);
    forall i | 0 <= i < |s| ensures Lower(s[i].tipo) in Collections.Dedup(tipos) {
      assert tipos[i] == Lower(s[i].tipo);
    }
  }

  function WithStatus(status: string): Cadastro -> Cadastro {
    (c: Cadastro) => c.(status := status)
  }

  /** `cadastros.map(c => c.id === id ? { ...c, status } : c)`. */
  function SetStatus(s: seq<Cadastro>, id: string, status: string): (r: seq<Cadastro>)
    ensures |r| == |s|
    ensures forall i :: 0 <= i < |s| ==> r[i] == if s[i].id == id then s[i].(status := status) else s[i]
  {
    SetById(s, IdOf, id, WithStatus(status))
  }

  /** The remote call behind a status change. */
  datatype StatusCall = AtivarCadastro(id: string) | DesativarCadastro(id: string)

  /** The status a row's button and the detail dialog's switch offer. */
  function OfferedStatus(status: string): string {
    ListScreen.OfferedStatus(status, "Ativo", "Inativo")
  }

  /** The status the detail switch asks for when turned to `checked`. */
  function SwitchStatus(checked: bool): string {
    if checked then "Ativo" else "Inativo"
  }

  /** "Ativo" is offered "Inativo" and any other status, "Pendente" included, is offered
      "Ativo"; the offer always changes the status; and the switch, which shows
      "Ativo" as on, asks for the same status the buttons offer. */
  lemma OfferedStatusSpec(status: string)
    ensures OfferedStatus("Ativo") == "Inativo"
    ensures status != "Ativo" ==> OfferedStatus(status) == "Ativo"
    ensures OfferedStatus(status) != status
    ensures SwitchStatus(!(status == "Ativo")) == OfferedStatus(status)
  {
    ListScreen.OfferedStatusSpec(status, "Ativo", "Inativo");
  }

  /** The screen's state: the loaded registrations. */
  class Screen {
    var cadastros: seq<Cadastro>

    constructor ()
      ensures cadastros == []
    {
      cadastros := [];
    }

    /** `handleAlterarStatus`: "Ativo" goes to the activation call and any other status
        to the deactivation call; a success gives the registrations with that id the
        new status, a failure changes nothing. */
    method HandleAlterarStatus(id: string, novoStatus: string, ok: bool) returns (call: StatusCall)
      modifies this
      ensures call == if novoStatus == "Ativo" then AtivarCadastro(id) else DesativarCadastro(id)
      ensures cadastros == if ok then SetStatus(old(cadastros), id, novoStatus) else old(cadastros)
    {
      if novoStatus == "Ativo" {
        call := AtivarCadastro(id);
      } else {
        call := DesativarCadastro(id);
      }
      if ok {
        cadastros := SetStatus(cadastros, id, novoStatus);
      }
    }
  }
}
