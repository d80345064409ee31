/** The list of users: its search over name and email, deletion, the status change
    with its two remote calls, and the password reset with its progress flag. */
module UsuariosList {
  import opened Wrappers
  import opened Text
  import Collections
  import opened ListScreen

  datatype Usuario = Usuario(id: string, nome: string, email: string, status: string)

  function IdOf(u: Usuario): string {
    u.id
  }

  /** The search of `filteredUsuarios`: the term in the name or the email. */
  predicate Kept(u: Usuario, term: string) {
    Matches(u.nome, term) || Matches(u.email, term)
  }

  function KeepFn(term: string): Usuario -> bool {
    (u: Usuario) => Kept(u, term)
  }

  /** `filteredUsuarios`. */
  function Filtered(s: seq<Usuario>, term: string): seq<Usuario> {
    Collections.Filter(s, KeepFn(term))
  }

  /** The shown list is an order-preserving sublist of exactly the users the term
      matches, and the empty term shows them all. */
  lemma FilteredSpec(s: seq<Usuario>, term: string)
    ensures Collections.SubseqOf(Filtered(s, term), s)
    ensures forall u :: u in Filtered(s, term) <==> u in s && Kept(u, term)
    ensures forall u :: multiset(Filtered(s, term))[u] == if Kept(u, term) then multiset(s)[u] else 0
    ensures Filtered(s, "") == s
  {
    FilterSpec(s, KeepFn(term));
    forall u | u in s ensures KeepFn("")(u) {
      EmptyTermMatches(u.nome);
    }
    Collections.FilterAll(s, KeepFn(""));
  }

  function WithStatus(status: string): Usuario -> Usuario {
    (u: Usuario) => u.(status := status)
  }

  /** `usuarios.map(u => u.id === id ? { ...u, status } : u)`. */
  function SetStatus(s: seq<Usuario>, id: string, status: string): (r: seq<Usuario>)
    ensures |r| == |s|
    ensures forall i :: 0 <= i < |s| ==> r[i] == if s[i].id == id then s[i].(status := status) else s[i]
  {
    SetById(s, IdOf, id, WithStatus(status))
  }

  /** `usuarios.filter(u => u.id !== id)`. */
  function Without(s: seq<Usuario>, id: string): (r: seq<Usuario>)
    ensures |r| <= |s|
    ensures forall i :: 0 <= i < |r| ==> r[i].id != id
  {
    RemoveById(s, IdOf, id)
  }

  /** Deletion keeps every other user, in order, and none with the id. */
  lemma WithoutSpec(s: seq<Usuario>, id: string)
    ensures Collections.SubseqOf(Without(s, id), s)
    ensures forall u :: u in Without(s, id) <==> u in s && u.id != id
    ensures forall u :: multiset(Without(s, id))[u] == if u.id != id then multiset(s)[u] else 0
  {
    RemoveByIdSpec(s, IdOf, id);
  }

  /** The status a row's menu offers. */
  function OfferedStatus(status: string): string {
    ListScreen.OfferedStatus(status, "Ativo", "Inativo")
  }

  /** "Ativo" is offered "Inativo", any other status "Ativo", and the offer always
      changes the status. */
  lemma OfferedStatusSpec(status: string)
    ensures OfferedStatus("Ativo") == "Inativo"
    ensures status != "Ativo" ==> OfferedStatus(status) == "Ativo"
    ensures OfferedStatus(status) != status
  {
    ListScreen.OfferedStatusSpec(status, "Ativo", "Inativo");
  }

  /** The remote call behind a status change. */
  datatype StatusCall = AtivarUsuario(id: string) | DesativarUsuario(id: string)

  /** The screen's state: the users, the one awaiting deletion, the one awaiting a
      password reset, and the reset's progress flag. */
  class Screen {
    var usuarios: seq<Usuario>
    var usuarioParaExcluir: Option<string>
    var usuarioParaRedefinirSenha: Option<string>
    var redefinindoSenha: bool

    constructor ()
      ensures usuarios == [] && usuarioParaExcluir == None
      ensures usuarioParaRedefinirSenha == None && !redefinindoSenha
    {
      usuarios, usuarioParaExcluir := [], None;
      usuarioParaRedefinirSenha, redefinindoSenha := None, false;
    }

    /** `handleExcluir`: without a target nothing happens; otherwise the target is
        deleted remotely, a success removes it from the list, a failure changes nothing,
        and the target is cleared either way. */
    method HandleExcluir(ok: bool) returns (called: Option<string>)
      modifies this`usuarios, this`usuarioParaExcluir
      ensures NoTarget(old(usuarioParaExcluir)) ==>
        called == None && usuarios == old(usuarios) && usuarioParaExcluir == old(usuarioParaExcluir)
      ensures !NoTarget(old(usuarioParaExcluir)) ==>
        && called == old(usuarioParaExcluir)
        && usuarioParaExcluir == None
        && usuarios == if ok then Without(old(usuarios), called.value) else old(usuarios)
    {
      if NoTarget(usuarioParaExcluir) {
        return None;
      }
      var id := usuarioParaExcluir.value;
      called := Some(id);
      if ok {
        usuarios := Without(usuarios, id);
      }
      usuarioParaExcluir := None;
    }

    /** `handleAlterarStatus`: "Ativo" goes to the activation call and any other status
        to the deactivation call; a success gives the users with that id the new
        status, a failure changes nothing. */
    method HandleAlterarStatus(id: string, novoStatus: string, ok: bool) returns (call: StatusCall)
      modifies this`usuarios
      ensures call == if novoStatus == "Ativo" then AtivarUsuario(id) else DesativarUsuario(id)
      ensures usuarios == if ok then SetStatus(old(usuarios), id, novoStatus) else old(usuarios)
    {
      if novoStatus == "Ativo" {
        call := AtivarUsuario(id);
      } else {
        call := DesativarUsuario(id);
      }
      if ok {
        usuarios := SetStatus(usuarios, id, novoStatus);
      }
    }

    /** `handleRedefinirSenha`: without a target nothing happens; otherwise the reset
        is requested for the target, and whatever the answer both the target and the
        progress flag end cleared. The list of users is never touched. */
    method HandleRedefinirSenha() returns (called: Option<string>)
      modifies this`usuarioParaRedefinirSenha, this`redefinindoSenha
      ensures NoTarget(old(usuarioParaRedefinirSenha)) ==>
        && called == None && usuarioParaRedefinirSenha == old(usuarioParaRedefinirSenha)
        && redefinindoSenha == old(redefinindoSenha)
      ensures !NoTarget(old(usuarioParaRedefinirSenha)) ==>
        called == old(usuarioParaRedefinirSenha) && usuarioParaRedefinirSenha == None && !redefinindoSenha
    {
      if NoTarget(usuarioParaRedefinirSenha) {
        return None;
      }
      redefinindoSenha := true;
      called := usuarioParaRedefinirSenha;
      usuarioParaRedefinirSenha := None;
      redefinindoSenha := false;
    }
  }
}
