/** The queue of professionals awaiting approval: approving or rejecting removes a
    professional from it, and a rejection needs a reason that is not blank. */
module AprovacaoList {
  import opened Wrappers
  import opened Text
  import Collections
  import opened ListScreen

  datatype Pendente = Pendente(id: string, nome: string, email: string, especialidade: string)

  function IdOf(p: Pendente): string {
    p.id
  }

  /** `profissionais.filter(p => p.id !== id)`. */
  function Without(s: seq<Pendente>, id: string): (r: seq<Pendente>)
    ensures |r| <= |s|
    ensures forall i :: 0 <= i < |r| ==> r[i].id != id
  {
    RemoveById(s, IdOf, id)
  }

  /** Leaving the queue keeps every other professional, in order, and no one with the id. */
  lemma WithoutSpec(s: seq<Pendente>, id: string)
    ensures Collections.SubseqOf(Without(s, id), s)
    ensures forall p :: p in Without(s, id) <==> p in s && p.id != id
    ensures forall p :: multiset(Without(s, id))[p] == if p.id != id then multiset(s)[p] else 0
  {
    RemoveByIdSpec(s, IdOf, id);
  }

  /** The confirm button of the rejection dialog is enabled: `!!motivo.trim()`. */
  predicate CanConfirm(motivo: string) {
    Trim(motivo) != ""
  }

  /** A rejection can be confirmed exactly when the reason holds a character that
      is not white space. */
  lemma CanConfirmIff(motivo: string)
    ensures CanConfirm(motivo) <==> exists k :: 0 <= k < |motivo| && !IsSpace(motivo[k])
  {
    BlankIff(motivo);
  }

  /** The call a rejection makes: the professional and the reason given. */
  datatype Rejection = Rejection(id: string, motivo: string)

  /** The screen's state: the queue, the reason being typed and the professional
      awaiting rejection. */
  class Screen {
    var profissionais: seq<Pendente>
    var motivoRejeicao: string
    var profissionalParaRejeitar: Option<string>

    constructor ()
      ensures profissionais == [] && motivoRejeicao == "" && profissionalParaRejeitar == None
    {
      profissionais, motivoRejeicao, profissionalParaRejeitar := [], "", None;
    }

    /** `handleAprovar`: a success takes the professionals with that id out of the
        queue; a failure changes nothing. The queue never grows. */
    method HandleAprovar(id: string, ok: bool)
      modifies this`profissionais
      ensures profissionais == if ok then Without(old(profissionais), id) else old(profissionais)
      ensures |profissionais| <= |old(profissionais)|
    {
      if ok {
        profissionais := Without(profissionais, id);
      }
    }

    /** `handleRejeitar`: without a target nothing happens; otherwise the target is
        rejected with the typed reason, a success takes it out of the queue, a failure
        changes nothing, and both the target and the reason are cleared either way. */
    method HandleRejeitar(ok: bool) returns (called: Option<Rejection>)
      modifies this
      ensures NoTarget(old(profissionalParaRejeitar)) ==>
        && called == None && profissionais == old(profissionais)
        && profissionalParaRejeitar == old(profissionalParaRejeitar) && motivoRejeicao == old(motivoRejeicao)
      ensures !NoTarget(old(profissionalParaRejeitar)) ==>
        && called == Some(Rejection(old(profissionalParaRejeitar).value, old(motivoRejeicao)))
        && profissionais == (if ok then Without(old(profissionais), called.value.id) else old(profissionais))
        && profissionalParaRejeitar == None && motivoRejeicao == ""
      ensures |profissionais| <= |old(profissionais)|
    {
      if NoTarget(profissionalParaRejeitar) {
        return None;
      }
      var id := profissionalParaRejeitar.value;
      called := Some(Rejection(id, motivoRejeicao));
      if ok {
        profissionais := Without(profissionais, id);
      }
      profissionalParaRejeitar := None;
      motivoRejeicao := "";
    }

    /** The dialog's confirm button: disabled, and so doing nothing, while the reason
        is blank; otherwise `handleRejeitar`, which does nothing without a target and
        otherwise sends the rejection, takes a success out of the queue and clears the
        dialog. */
    method ConfirmarRejeicao(ok: bool) returns (called: Option<Rejection>)
      modifies this
      ensures !CanConfirm(old(motivoRejeicao)) ==>
        && called == None && profissionais == old(profissionais)
        && profissionalParaRejeitar == old(profissionalParaRejeitar) && motivoRejeicao == old(motivoRejeicao)
      ensures called.Some? ==> CanConfirm(called.value.motivo)
      ensures CanConfirm(old(motivoRejeicao)) && !NoTarget(old(profissionalParaRejeitar)) ==>
        && called == Some(Rejection(old(profissionalParaRejeitar).value, old(motivoRejeicao)))
        && profissionais == (if ok then Without(old(profissionais), old(profissionalParaRejeitar).value) else old(profissionais))
        && profissionalParaRejeitar == None && motivoRejeicao == ""
      ensures CanConfirm(old(motivoRejeicao)) && NoTarget(old(profissionalParaRejeitar)) ==>
        && called == None && profissionais == old(profissionais)
        && profissionalParaRejeitar == old(profissionalParaRejeitar) && motivoRejeicao == old(motivoRejeicao)
      ensures |profissionais| <= |old(profissionais)|
    {
      if !CanConfirm(motivoRejeicao) {
        return None;
      }
      called := HandleRejeitar(ok);
    }

    /** The dialog's cancel button: the target is dropped and the reason is kept. */
    method Cancelar()
      modifies this`profissionalParaRejeitar
      ensures profissionalParaRejeitar == None
    {
      profissionalParaRejeitar := None;
    }
  }
}
