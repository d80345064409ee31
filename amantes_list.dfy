/** The list of decoration lovers: its search, deletion, and the links built from
    their social-network handles. */
module AmantesList {
  import opened Wrappers
  import opened Text
  import Collections
  import opened ListScreen

  datatype AmanteDeDecoracao = AmanteDeDecoracao(
    id: string,
    name: string,
    contact: string,
    instagram: string,
    tiktok: string)

  function IdOf(a: AmanteDeDecoracao): string {
    a.id
  }

  /** The search of `filteredAmantes`: the term in the name, the Instagram or the
      TikTok handle ignoring case, or in the contact exactly as typed. */
  predicate Kept(a: AmanteDeDecoracao, term: string) {
    || Matches(a.name, term)
    || Contains(a.contact, term)
    || Matches(a.instagram, term)
    || Matches(a.tiktok, term)
  }

  function KeepFn(term: string): AmanteDeDecoracao -> bool {
    (a: AmanteDeDecoracao) => Kept(a, term)
  }

  /** `filteredAmantes`. */
  function Filtered(s: seq<AmanteDeDecoracao>, term: string): seq<AmanteDeDecoracao> {
    Collections.Filter(s, KeepFn(term))
  }

  /** The shown list is an order-preserving sublist of exactly the people the term
      matches, and the empty term shows them all, in order. */
  lemma FilteredSpec(s: seq<AmanteDeDecoracao>, term: string)
    ensures Collections.SubseqOf(Filtered(s, term), s)
    ensures forall a :: a in Filtered(s, term) <==> a in s && Kept(a, term)
    ensures forall a :: multiset(Filtered(s, term))[a] == if Kept(a, term) then multiset(s)[a] else 0
    ensures Filtered(s, "") == s
  {
    FilterSpec(s, KeepFn(term));
    forall a | a in s ensures KeepFn("")(a) {
      EmptyTermMatches(a.name);
    }
    Collections.FilterAll(s, KeepFn(""));
  }

  /** The contact is searched as typed: an upper-case term does not find a contact
      that holds it in lower case only. */
  lemma ContactIsCaseSensitive()
    ensures !Contains("ana", "A")
    ensures Matches("ana", "A")
  {
    assert "ana"[..1][0] == 'a' && "ana"[1..] == "na";
    assert "na"[..1][0] == 'n' && "na"[1..] == "a";
    assert "a"[..1][0] == 'a' && "a"[1..] == "";
    assert !Contains("", "A");
    assert !Contains("a", "A");
    assert !Contains("na", "A");
    assert Lower("A") == "a" && Lower("ana")[..1] == "a";
  }

  /** `amantesDeDecoracao.filter(a => a.id !== id)`. */
  function Without(s: seq<AmanteDeDecoracao>, id: string): (r: seq<AmanteDeDecoracao>)
    ensures |r| <= |s|
    ensures forall i :: 0 <= i < |r| ==> r[i].id != id
  {
    RemoveById(s, IdOf, id)
  }

  /** Deletion keeps every other person, in order, and none with the id. */
  lemma WithoutSpec(s: seq<AmanteDeDecoracao>, id: string)
    ensures Collections.SubseqOf(Without(s, id), s)
    ensures forall a :: a in Without(s, id) <==> a in s && a.id != id
    ensures forall a :: multiset(Without(s, id))[a] == if a.id != id then multiset(s)[a] else 0
  {
    RemoveByIdSpec(s, IdOf, id);
  }

  /** `handle.replace('@', '')`: the handle without its first "@". */
  function Handle(handle: string): string {
    RemoveFirst(handle, '@')
  }

  function InstagramLink(a: AmanteDeDecoracao): string {
    "https://instagram.com/" + Handle(a.instagram)
  }

  function InstagramLabel(a: AmanteDeDecoracao): string {
    "@" + Handle(a.instagram)
  }

  function TiktokLink(a: AmanteDeDecoracao): string {
    "https://tiktok.com/@" + Handle(a.tiktok)
  }

  function TiktokLabel(a: AmanteDeDecoracao): string {
    "@" + Handle(a.tiktok)
  }

  /** A handle written with or without its leading "@" gives the same links and labels. */
  lemma HandleWithOrWithoutAt(a: AmanteDeDecoracao, h: string)
    requires '@' !in h
    ensures Handle("@" + h) == Handle(h) == h
    ensures InstagramLink(a.(instagram := "@" + h)) == InstagramLink(a.(instagram := h))
    ensures InstagramLabel(a.(instagram := "@" + h)) == "@" + h
    ensures TiktokLink(a.(tiktok := "@" + h)) == TiktokLink(a.(tiktok := h))
    ensures TiktokLabel(a.(tiktok := "@" + h)) == "@" + h
  {
    RemoveFirstAbsent(h, '@');
    assert ("@" + h)[1..] == h;
  }

  /** What the as-written handler gets wrong: deleting a listed person should take them
      off the list, which `HandleDeleteAsWritten` never does. */
  lemma DeletedPersonStaysAsWritten(s: seq<AmanteDeDecoracao>, i: nat)
    requires i < |s|
    ensures s[i] !in Without(s, s[i].id)
    ensures Without(s, s[i].id) != s
  {
    WithoutSpec(s, s[i].id);
  }

  /** Only the first "@" goes, wherever it is: one further "@" is kept, and an "@"
      inside the handle is dropped. */
  lemma HandleRemovesFirstAtOnly(h: string, i: nat)
    requires i < |h| && h[i] == '@' && '@' !in h[..i]
    ensures Handle(h) == h[..i] + h[i + 1..]
    ensures |Handle(h)| == |h| - 1
  {
    RemoveFirstAt(h, '@', i);
  }

  /** The screen's state: the people and the one awaiting deletion. */
  class Screen {
    var amantesDeDecoracao: seq<AmanteDeDecoracao>
    var amanteToDelete: Option<string>

    constructor ()
      ensures amantesDeDecoracao == [] && amanteToDelete == None
    {
      amantesDeDecoracao, amanteToDelete := [], None;
    }

    /** `handleDelete` as written: the service it calls defines no
        `deletePartnerSupplier`, so the call throws inside the `try`, the error toast
        is shown, the target is cleared, and the list never changes. */
    method HandleDeleteAsWritten() returns (attempted: Option<string>)
      modifies this`amanteToDelete
      ensures NoTarget(old(amanteToDelete)) ==> attempted == None && amanteToDelete == old(amanteToDelete)
      ensures !NoTarget(old(amanteToDelete)) ==> attempted == old(amanteToDelete) && amanteToDelete == None
      ensures amantesDeDecoracao == old(amantesDeDecoracao)
    {
      if NoTarget(amanteToDelete) {
        return None;
      }
      attempted := amanteToDelete;
      amanteToDelete := None;
    }

    /** `handleDelete` as intended, with `ok` the outcome of a delete call the service
        would provide: without a target nothing happens; otherwise the delete call is
        made for the target, a success removes it from the list, a failure changes
        nothing, and the target is cleared either way. */
    method HandleDelete(ok: bool) returns (called: Option<string>)
      modifies this
      ensures NoTarget(old(amanteToDelete)) ==>
        called == None && amantesDeDecoracao == old(amantesDeDecoracao) && amanteToDelete == old(amanteToDelete)
      ensures !NoTarget(old(amanteToDelete)) ==>
        && called == old(amanteToDelete)
        && amanteToDelete == None
        && amantesDeDecoracao == if ok then Without(old(amantesDeDecoracao), called.value) else old(amantesDeDecoracao)
    {
      if NoTarget(amanteToDelete) {
        return None;
      }
      var id := amanteToDelete.value;
      called := Some(id);
      if ok {
        amantesDeDecoracao := Without(amantesDeDecoracao, id);
      }
      amanteToDelete := None;
    }
  }
}
