/** The rules every list screen of the dashboard follows: a search that ignores
    case, selectors with an "all" entry, updates keyed by id applied once the remote
    call succeeds, and a pending target cleared afterwards. */
module ListScreen {
  import opened Wrappers
  import opened Text
  import Collections

  /** `!target` for a pending id: no id at all, or the empty one. */
  predicate NoTarget(target: Option<string>) {
    target.None? || target.value == ""
  }

  /** `field.toLowerCase().includes(term.toLowerCase())`. */
  predicate Matches(field: string, term: string) {
    ContainsIgnoringCase(field, term)
  }

  /** An empty search term matches every field. */
  lemma EmptyTermMatches(field: string)
    ensures Matches(field, "")
  {
    assert Lower("") == "";
    ContainsEmpty(Lower(field));
  }

  /** The empty field matches the empty term and no other. */
  lemma EmptyFieldMatchesIff(term: string)
    ensures Matches("", term) <==> term == ""
  {
    assert Lower("") == "";
    ContainsIff("", Lower(term));
    if Matches("", term) {
      var i :| OccursAt("", Lower(term), i);
    } else {
      EmptyTermMatches("");
    }
  }

  /** A selector: `selected === all || value.toLowerCase() === selected.toLowerCase()`. */
  predicate Selected(value: string, selected: string, all: string) {
    selected == all || Lower(value) == Lower(selected)
  }

  /** Filtering keeps exactly the items the predicate accepts, in their order, with
      every copy of each. */
  lemma FilterSpec<T>(s: seq<T>, keep: T -> bool)
    ensures Collections.SubseqOf(Collections.Filter(s, keep), s)
    ensures forall x :: x in Collections.Filter(s, keep) <==> x in s && keep(x)
    ensures forall x :: multiset(Collections.Filter(s, keep))[x] == if keep(x) then multiset(s)[x] else 0
  {
    Collections.FilterIsSubseq(s, keep);
    Collections.FilterCount(s, keep);
    var r := Collections.Filter(s, keep);
    forall x | x in r ensures x in s && keep(x) {
      var i :| 0 <= i < |r| && r[i] == x;
    }
    forall x | x in s && keep(x) ensures x in r {
      var i :| 0 <= i < |s| && s[i] == x;
    }
  }

  /** `s.filter(x => x.id !== id)`. */
  function RemoveById<T>(s: seq<T>, idOf: T -> string, id: string): (r: seq<T>)
    ensures |r| <= |s|
    ensures forall i :: 0 <= i < |r| ==> idOf(r[i]) != id
  {
    Collections.Filter(s, (x: T) => idOf(x) != id)
  }

  /** Removal by id keeps every item with another id, in order and with every copy,
      and no item with that id; a list without the id is left as it is. */
  lemma RemoveByIdSpec<T>(s: seq<T>, idOf: T -> string, id: string)
    ensures Collections.SubseqOf(RemoveById(s, idOf, id), s)
    ensures forall x :: x in RemoveById(s, idOf, id) <==> x in s && idOf(x) != id
    ensures forall x :: multiset(RemoveById(s, idOf, id))[x] == if idOf(x) != id then multiset(s)[x] else 0
    ensures (forall i :: 0 <= i < |s| ==> idOf(s[i]) != id) ==> RemoveById(s, idOf, id) == s
  {
    var keep := (x: T) => idOf(x) != id;
    FilterSpec(s, keep);
    if forall i :: 0 <= i < |s| ==> idOf(s[i]) != id {
      forall x | x in s ensures keep(x) {
        var i :| 0 <= i < |s| && s[i] == x;
      }
      Collections.FilterAll(s, keep);
    }
  }

  /** Removing an id twice removes it once. */
  lemma RemoveByIdIdempotent<T>(s: seq<T>, idOf: T -> string, id: string)
    ensures RemoveById(RemoveById(s, idOf, id), idOf, id) == RemoveById(s, idOf, id)
  {
    RemoveByIdSpec(RemoveById(s, idOf, id), idOf, id);
  }

  /** `s.map(x => x.id === id ? f(x) : x)`. */
  function SetById<T>(s: seq<T>, idOf: T -> string, id: string, f: T -> T): (r: seq<T>)
    ensures |r| == |s|
    ensures forall i :: 0 <= i < |s| ==> r[i] == if idOf(s[i]) == id then f(s[i]) else s[i]
  {
    Collections.UpdateWhere(s, (x: T) => idOf(x) == id, f)
  }

  /** When `f` keeps the id and applying it twice is applying it once, the update by id
      is idempotent, keeps every id in place, and does nothing to a list without the id. */
  lemma SetByIdSpec<T>(s: seq<T>, idOf: T -> string, id: string, f: T -> T)
    requires forall x :: idOf(f(x)) == idOf(x) && f(f(x)) == f(x)
    ensures SetById(SetById(s, idOf, id, f), idOf, id, f) == SetById(s, idOf, id, f)
    ensures forall i :: 0 <= i < |s| ==> idOf(SetById(s, idOf, id, f)[i]) == idOf(s[i])
    ensures (forall i :: 0 <= i < |s| ==> idOf(s[i]) != id) ==> SetById(s, idOf, id, f) == s
  {
    var sel := (x: T) => idOf(x) == id;
    Collections.UpdateWhereIdempotent(s, sel, f);
  }

  /** The status a status button offers: the "off" status for an item that is "on",
      the "on" status for every other one. */
  function OfferedStatus(status: string, on: string, off: string): string {
    if status == on then off else on
  }

  /** The offered status always differs from the current one, and between the two
      statuses offering twice comes back to the start. */
  lemma OfferedStatusSpec(status: string, on: string, off: string)
    requires on != off
    ensures OfferedStatus(status, on, off) != status
    ensures OfferedStatus(status, on, off) in {on, off}
    ensures status == on || status == off ==>
      OfferedStatus(OfferedStatus(status, on, off), on, off) == status
  {
  }
}
