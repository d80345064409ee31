/** The partner-store service: the in-memory `mockLojas` table and the operations of
    `LojasService` that change it in place (`push`, replacement at an index,
    status assignment, `splice`, counter increments). Remote calls become parameters. */
module LojasService {
  import opened Wrappers
  import Collections

  datatype StatusLoja = Ativa | Inativa | Suspensa

  /** The address record that the professionals service defines. */
  datatype Endereco = Endereco(
    cep: string, rua: string, numero: string, complemento: Option<string>,
    bairro: string, cidade: string, estado: string)

  datatype Loja = Loja(
    id: string,
    nome: string,
    cnpj: string,
    telefone: Option<string>,
    email: Option<string>,
    status: StatusLoja,
    dataCadastro: string,
    endereco: Endereco,
    totalProfissionais: int,
    descricao: Option<string>)

  /** What a caller hands to `cadastrarLoja`: a store without id, status,
      registration date and counter. */
  datatype DadosLoja = DadosLoja(
    nome: string,
    cnpj: string,
    telefone: Option<string>,
    email: Option<string>,
    endereco: Endereco,
    descricao: Option<string>)

  /** `Partial<Loja>`: a field is `Some` when the key is present in the update. */
  datatype LojaPatch = LojaPatch(
    id: Option<string>,
    nome: Option<string>,
    cnpj: Option<string>,
    telefone: Option<string>,
    email: Option<string>,
    status: Option<StatusLoja>,
    dataCadastro: Option<string>,
    endereco: Option<Endereco>,
    totalProfissionais: Option<int>,
    descricao: Option<string>)

  /** The part of a professional record the store service looks at. */
  datatype Profissional = Profissional(id: string, lojaId: Option<string>)

  /** `mockLojas.findIndex((l) => l.id === id)`. */
  function IndexOfLoja(s: seq<Loja>, id: string): (r: int)
    ensures -1 <= r < |s|
    ensures r == -1 <==> forall j :: 0 <= j < |s| ==> s[j].id != id
    ensures r >= 0 ==> s[r].id == id && forall j :: 0 <= j < r ==> s[j].id != id
  {
    Collections.FirstIndex(s, (l: Loja) => l.id == id)
  }

  /** The linear search behind every operation of the service. */
  method FindIndex(s: seq<Loja>, id: string) returns (index: int)
    ensures index == IndexOfLoja(s, id)
  {
    index := 0;
    while index < |s| && s[index].id != id
      invariant 0 <= index <= |s|
      invariant forall j :: 0 <= j < index ==> s[j].id != id
    {
      index := index + 1;
    }
    if index == |s| {
      index := -1;
    }
  }

  /** The record `cadastrarLoja` builds: the caller's fields, the given id and date,
      status "Ativa" and no professionals yet. */
  function NovaLoja(dados: DadosLoja, id: string, dataCadastro: string): (r: Loja)
    ensures r.id == id && r.dataCadastro == dataCadastro
    ensures r.status == Ativa && r.totalProfissionais == 0
    ensures r.nome == dados.nome && r.cnpj == dados.cnpj && r.telefone == dados.telefone
    ensures r.email == dados.email && r.endereco == dados.endereco && r.descricao == dados.descricao
  {
    Loja(id, dados.nome, dados.cnpj, dados.telefone, dados.email, Ativa, dataCadastro,
         dados.endereco, 0, dados.descricao)
  }

  function Pick<T>(update: Option<T>, current: T): T {
    if update.Some? then update.value else current
  }

  /** `{ ...loja, ...dados }`: every key present in the update wins over the stored one. */
  function Merge(l: Loja, p: LojaPatch): Loja {
    Loja(
      Pick(p.id, l.id),
      Pick(p.nome, l.nome),
      Pick(p.cnpj, l.cnpj),
      if p.telefone.Some? then p.telefone else l.telefone,
      if p.email.Some? then p.email else l.email,
      Pick(p.status, l.status),
      Pick(p.dataCadastro, l.dataCadastro),
      Pick(p.endereco, l.endereco),
      Pick(p.totalProfissionais, l.totalProfissionais),
      if p.descricao.Some? then p.descricao else l.descricao)
  }

  const EmptyPatch := LojaPatch(None, None, None, None, None, None, None, None, None, None)

  /** The update keeps every field it does not name, every field it names takes the
      update's value, and an update that names only the status changes only the status. */
  lemma MergeKeepsUnnamed(l: Loja, p: LojaPatch)
    ensures Merge(l, EmptyPatch) == l
    ensures Merge(l, p).id == if p.id.Some? then p.id.value else l.id
    ensures Merge(l, p).nome == if p.nome.Some? then p.nome.value else l.nome
    ensures Merge(l, p).cnpj == if p.cnpj.Some? then p.cnpj.value else l.cnpj
    ensures Merge(l, p).telefone == if p.telefone.Some? then p.telefone else l.telefone
    ensures Merge(l, p).email == if p.email.Some? then p.email else l.email
    ensures Merge(l, p).status == if p.status.Some? then p.status.value else l.status
    ensures Merge(l, p).dataCadastro == if p.dataCadastro.Some? then p.dataCadastro.value else l.dataCadastro
    ensures Merge(l, p).endereco == if p.endereco.Some? then p.endereco.value else l.endereco
    ensures Merge(l, p).totalProfissionais ==
              if p.totalProfissionais.Some? then p.totalProfissionais.value else l.totalProfissionais
    ensures Merge(l, p).descricao == if p.descricao.Some? then p.descricao else l.descricao
    ensures Merge(l, EmptyPatch.(status := Some(Ativa))) == l.(status := Ativa)
  {
  }

  /** Applying the same update twice is applying it once. */
  lemma MergeIdempotent(l: Loja, p: LojaPatch)
    ensures Merge(Merge(l, p), p) == Merge(l, p)
  {
  }

  /** The table after `ativarLoja`/`desativarLoja`: the first record with the id gets
      the status. */
  function SetStatusFirst(s: seq<Loja>, id: string, st: StatusLoja): seq<Loja> {
    var i := IndexOfLoja(s, id);
    if i == -1 then s else s[i := s[i].(status := st)]
  }

  /** Only the first record with the id changes, and only in its status; without such a
      record the table is unchanged. */
  lemma SetStatusFirstSpec(s: seq<Loja>, id: string, st: StatusLoja)
    ensures |SetStatusFirst(s, id, st)| == |s|
    ensures IndexOfLoja(s, id) == -1 ==> SetStatusFirst(s, id, st) == s
    ensures forall j :: 0 <= j < |s| ==>
      SetStatusFirst(s, id, st)[j] == if j == IndexOfLoja(s, id) then s[j].(status := st) else s[j]
  {
  }

  /** Setting a status twice is setting it once: the first match keeps its id. */
  lemma {:induction false} SetStatusIdempotent(s: seq<Loja>, id: string, st: StatusLoja)
    ensures SetStatusFirst(SetStatusFirst(s, id, st), id, st) == SetStatusFirst(s, id, st)
  {
    var i := IndexOfLoja(s, id);
    if i != -1 {
      var t := SetStatusFirst(s, id, st);
      assert forall j :: 0 <= j < |t| ==> t[j].id == s[j].id;
      assert IndexOfLoja(t, id) == i;
    }
  }

  /** The table after `excluirLoja`: the first record with the id is spliced out. */
  function RemoveFirstLoja(s: seq<Loja>, id: string): seq<Loja> {
    var i := IndexOfLoja(s, id);
    if i == -1 then s else s[..i] + s[i + 1..]
  }

  /** Deleting shortens the table by one exactly when the id is present; the others
      keep their order, and only the first record with the id goes. */
  lemma RemoveFirstLojaSpec(s: seq<Loja>, id: string)
    ensures IndexOfLoja(s, id) == -1 ==> RemoveFirstLoja(s, id) == s
    ensures IndexOfLoja(s, id) != -1 ==> |RemoveFirstLoja(s, id)| == |s| - 1
    ensures Collections.SubseqOf(RemoveFirstLoja(s, id), s)
    ensures forall j :: 0 <= j < |s| && j != IndexOfLoja(s, id) ==> s[j] in RemoveFirstLoja(s, id)
  {
    var i := IndexOfLoja(s, id);
    if i != -1 {
      Collections.RemoveAtIsSubseq(s, i);
      forall j | 0 <= j < |s| && j != i ensures s[j] in RemoveFirstLoja(s, id) {
        if j < i {
          assert s[j] == (s[..i] + s[i + 1..])[j];
        } else {
          assert s[j] == (s[..i] + s[i + 1..])[j - 1];
        }
      }
    } else {
      Collections.SubseqOfSelf(s);
    }
  }

  /** The table after a professional joins: the first store with the id counts one more. */
  function IncrementFirst(s: seq<Loja>, lojaId: string): seq<Loja> {
    var i := IndexOfLoja(s, lojaId);
    if i == -1 then s else s[i := s[i].(totalProfissionais := s[i].totalProfissionais + 1)]
  }

  /** The table after a professional leaves: the store's counter drops by one unless
      it is already zero (or below). */
  function DecrementFirst(s: seq<Loja>, lojaId: string): seq<Loja> {
    var i := IndexOfLoja(s, lojaId);
    if i != -1 && s[i].totalProfissionais > 0
    then s[i := s[i].(totalProfissionais := s[i].totalProfissionais - 1)]
    else s
  }

  ghost predicate CountersNonNegative(s: seq<Loja>) {
    forall j :: 0 <= j < |s| ==> s[j].totalProfissionais >= 0
  }

  /** Adding raises the store's counter by exactly one and changes nothing else. */
  lemma IncrementFirstSpec(s: seq<Loja>, lojaId: string)
    ensures |IncrementFirst(s, lojaId)| == |s|
    ensures forall j :: 0 <= j < |s| ==>
      IncrementFirst(s, lojaId)[j] ==
        if j == IndexOfLoja(s, lojaId)
        then s[j].(totalProfissionais := s[j].totalProfissionais + 1)
        else s[j]
    ensures CountersNonNegative(s) ==> CountersNonNegative(IncrementFirst(s, lojaId))
  {
  }

  /** Removing never takes a counter below zero, lowers at most one counter and lowers
      it by one. */
  lemma DecrementFirstSpec(s: seq<Loja>, lojaId: string)
    ensures |DecrementFirst(s, lojaId)| == |s|
    ensures forall j :: 0 <= j < |s| && s[j].totalProfissionais >= 0 ==>
      DecrementFirst(s, lojaId)[j].totalProfissionais >= 0
    ensures forall j :: 0 <= j < |s| && j != IndexOfLoja(s, lojaId) ==> DecrementFirst(s, lojaId)[j] == s[j]
    ensures forall j :: 0 <= j < |s| ==>
      DecrementFirst(s, lojaId)[j].totalProfissionais in {s[j].totalProfissionais, s[j].totalProfissionais - 1}
  {
  }

  /** A professional who joins and then leaves the same store restores the table. */
  lemma {:induction false} IncrementThenDecrement(s: seq<Loja>, lojaId: string)
    requires CountersNonNegative(s)
    ensures DecrementFirst(IncrementFirst(s, lojaId), lojaId) == s
  {
    var i := IndexOfLoja(s, lojaId);
    if i != -1 {
      var t := IncrementFirst(s, lojaId);
      assert forall j :: 0 <= j < |t| ==> t[j].id == s[j].id;
      assert IndexOfLoja(t, lojaId) == i;
      assert t[i].totalProfissionais > 0;
      assert DecrementFirst(t, lojaId) == t[i := s[i]];
    }
  }

  /** The partner-store table and the service's operations on it. */
  class LojasTable {
    var lojas: seq<Loja>

    /** A table holding the given records (the development mock starts with five). */
    constructor (initial: seq<Loja>)
      ensures lojas == initial
    {
      lojas := initial;
    }

    /** `cadastrarLoja`: the new record goes at the end; the id and the date are
        the source's random id and current date, passed in. */
    method CadastrarLoja(dados: DadosLoja, id: string, dataCadastro: string) returns (nova: Loja)
      modifies this
      ensures nova == NovaLoja(dados, id, dataCadastro)
      ensures lojas == old(lojas) + [nova]
      ensures CountersNonNegative(old(lojas)) ==> CountersNonNegative(lojas)
    {
      nova := NovaLoja(dados, id, dataCadastro);
      lojas := lojas + [nova];
    }

    /** `atualizarLoja`: an unknown id is an error and leaves the table alone;
        otherwise the first record with the id is replaced by its merge with the update. */
    method AtualizarLoja(id: string, dados: LojaPatch) returns (r: Result<Loja>)
      modifies this
      ensures IndexOfLoja(old(lojas), id) == -1 ==>
        r == Failure("Loja com ID " + id + " não encontrada") && lojas == old(lojas)
      ensures IndexOfLoja(old(lojas), id) != -1 ==>
        var i := IndexOfLoja(old(lojas), id);
        r == Success(Merge(old(lojas)[i], dados)) && lojas == old(lojas)[i := r.value]
      ensures |lojas| == |old(lojas)|
    {
      var index := FindIndex(lojas, id);
      if index == -1 {
        return Failure("Loja com ID " + id + " não encontrada");
      }
      var atualizada := Merge(lojas[index], dados);
      lojas := lojas[index := atualizada];
      r := Success(atualizada);
    }

    /** `ativarLoja`. */
    method AtivarLoja(id: string)
      modifies this
      ensures lojas == SetStatusFirst(old(lojas), id, Ativa)
      ensures CountersNonNegative(old(lojas)) ==> CountersNonNegative(lojas)
    {
      var index := FindIndex(lojas, id);
      if index != -1 {
        lojas := lojas[index := lojas[index].(status := Ativa)];
      }
    }

    /** `desativarLoja`. */
    method DesativarLoja(id: string)
      modifies this
      ensures lojas == SetStatusFirst(old(lojas), id, Inativa)
      ensures CountersNonNegative(old(lojas)) ==> CountersNonNegative(lojas)
    {
      var index := FindIndex(lojas, id);
      if index != -1 {
        lojas := lojas[index := lojas[index].(status := Inativa)];
      }
    }

    /** `excluirLoja`. */
    method ExcluirLoja(id: string)
      modifies this
      ensures lojas == RemoveFirstLoja(old(lojas), id)
      ensures CountersNonNegative(old(lojas)) ==> CountersNonNegative(lojas)
    {
      var index := FindIndex(lojas, id);
      if index != -1 {
        lojas := lojas[..index] + lojas[index + 1..];
      }
    }

    /** `adicionarProfissionalALoja`. `obtido` is the professionals service's answer to
        the lookup and `atualizado` whether its update resolved; `ok` is false when the
        operation rethrows a rejection. The counter moves only when the professional
        exists and the update went through. */
    method AdicionarProfissionalALoja(lojaId: string, profissionalId: string,
                                      obtido: Reply<Option<Profissional>>, atualizado: bool)
      returns (ok: bool)
      modifies this
      ensures ok == (obtido.Resolved? && (obtido.value.Some? ==> atualizado))
      ensures lojas == if obtido.Resolved? && obtido.value.Some? && atualizado
                       then IncrementFirst(old(lojas), lojaId) else old(lojas)
      ensures CountersNonNegative(old(lojas)) ==> CountersNonNegative(lojas)
    {
      if obtido.Rejected? {
        return false;
      }
      if obtido.value.Some? {
        if !atualizado {
          return false;
        }
        var index := FindIndex(lojas, lojaId);
        if index != -1 {
          lojas := lojas[index := lojas[index].(totalProfissionais := lojas[index].totalProfissionais + 1)];
        }
      }
      ok := true;
    }

    /** `removerProfissionalDaLoja`. The counter moves only when the professional exists,
        belongs to this store, and the update went through. */
    method RemoverProfissionalDaLoja(lojaId: string, profissionalId: string,
                                     obtido: Reply<Option<Profissional>>, atualizado: bool)
      returns (ok: bool)
      modifies this
      ensures var pertence := obtido.Resolved? && obtido.value.Some? && obtido.value.value.lojaId == Some(lojaId);
        && ok == (obtido.Resolved? && (pertence ==> atualizado))
        && lojas == if pertence && atualizado then DecrementFirst(old(lojas), lojaId) else old(lojas)
      ensures CountersNonNegative(old(lojas)) ==> CountersNonNegative(lojas)
    {
      if obtido.Rejected? {
        return false;
      }
      if obtido.value.Some? && obtido.value.value.lojaId == Some(lojaId) {
        if !atualizado {
          return false;
        }
        var index := FindIndex(lojas, lojaId);
        if index != -1 && lojas[index].totalProfissionais > 0 {
          lojas := lojas[index := lojas[index].(totalProfissionais := lojas[index].totalProfissionais - 1)];
        }
      }
      ok := true;
    }
  }
}
