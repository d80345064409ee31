/** Partner suppliers and their store: the address formatter, the display mapping
    and the active-store check. */
module FornecedorParceiro {
  import opened Wrappers
  import Collections

  datatype Address = Address(
    id: string,
    state: string,
    city: string,
    district: string,
    street: string,
    complement: Option<string>,
    number: string,
    zipCode: string)

  datatype Store = Store(
    id: string,
    name: string,
    description: Option<string>,
    website: Option<string>,
    rating: real,
    openingHours: Option<string>,
    addressId: string,
    partnerId: string,
    address: Address)

  /** A partner supplier as the backend sends it; `store` is declared required, but
      `hasActiveStore` still tests it, so a missing store is modelled as `None`. */
  datatype PartnerSupplier = PartnerSupplier(
    id: string,
    tradeName: string,
    companyName: string,
    document: string,
    stateRegistration: string,
    contact: string,
    profileImage: Option<string>,
    addressId: string,
    accessPending: bool,
    storeId: Option<string>,
    store: Option<Store>)

  datatype DisplayData = DisplayData(
    id: string,
    name: string,
    document: string,
    city: string,
    state: string,
    fullAddress: string,
    contact: string,
    profileImage: Option<string>,
    accessPending: bool,
    storeId: Option<string>,
    storeName: string,
    storeRating: real,
    storeWebsite: Option<string>)

  /** `Boolean(v)` for a string that may be `null`: present and non-empty. */
  predicate Truthy(v: Option<string>) {
    v.Some? && v.value != ""
  }

  function TruthyFn(): Option<string> -> bool {
    (v: Option<string>) => Truthy(v)
  }

  /** `parts.filter(Boolean)`: the present, non-empty parts, in order. */
  function Present(parts: seq<Option<string>>): (r: seq<string>)
    ensures forall i :: 0 <= i < |r| ==> r[i] != ""
  {
    if parts == [] then []
    else if Truthy(parts[0]) then [parts[0].value] + Present(parts[1..])
    else Present(parts[1..])
  }

  /** `parts.join(', ')`. */
  function Join(parts: seq<string>): string {
    if parts == [] then ""
    else if |parts| == 1 then parts[0]
    else parts[0] + ", " + Join(parts[1..])
  }

  /** The index of the first ", " in `s`, or -1. */
  function FirstSeparator(s: string): (k: int)
    ensures -1 <= k < |s|
  {
    if |s| < 2 then -1
    else if s[0] == ',' && s[1] == ' ' then 0
    else
      var k := FirstSeparator(s[1..]);
      if k == -1 then -1 else k + 1
  }

  /** `s.split(', ')` on a non-empty string; the empty string has no segments. */
  function Split(s: string): seq<string>
    decreases |s|
  {
    if s == [] then []
    else
      var k := FirstSeparator(s);
      if k == -1 || k + 2 > |s| then [s] else [s[..k]] + Split(s[k + 2..])
  }

  /** The seven address fields in the order the formatter lists them. */
  function AddressParts(a: Address): seq<Option<string>> {
    [Some(a.street), Some(a.number), a.complement, Some(a.district),
     Some(a.city), Some(a.state), Some(a.zipCode)]
  }

  /** `getFormattedAddress`. */
  function FormattedAddress(a: Address): string {
    Join(Present(AddressParts(a)))
  }

  lemma {:induction false} FirstSeparatorOfJoin(p: string, rest: string)
    requires ',' !in p
    ensures FirstSeparator(p + ", " + rest) == |p|
  {
    if p != [] {
      assert (p + ", " + rest)[1..] == p[1..] + ", " + rest;
      assert ',' !in p[1..];
      FirstSeparatorOfJoin(p[1..], rest);
    }
  }

  lemma {:induction false} FirstSeparatorNone(p: string)
    requires ',' !in p
    ensures FirstSeparator(p) == -1
  {
    if |p| >= 2 {
      assert ',' !in p[1..];
      FirstSeparatorNone(p[1..]);
    }
  }

  /** Joining non-empty parts that hold no comma can be undone by splitting: every
      segment of the output is one of the parts, none is empty, and none is lost. */
  lemma {:induction false} SplitJoin(parts: seq<string>)
    requires forall i :: 0 <= i < |parts| ==> parts[i] != "" && ',' !in parts[i]
    ensures Split(Join(parts)) == parts
  {
    if |parts| == 1 {
      FirstSeparatorNone(parts[0]);
    } else if |parts| > 1 {
      var p := parts[0];
      var s := Join(parts);
      FirstSeparatorOfJoin(p, Join(parts[1..]));
      assert s[..|p|] == p;
      assert s[|p| + 2..] == Join(parts[1..]);
      SplitJoin(parts[1..]);
    }
  }

  /** `filter(Boolean)` keeps exactly the present, non-empty parts. */
  lemma {:induction false} PresentSpec(parts: seq<Option<string>>)
    ensures Present(parts) == [] <==> forall i :: 0 <= i < |parts| ==> !Truthy(parts[i])
    ensures forall i :: 0 <= i < |parts| && Truthy(parts[i]) ==> parts[i].value in Present(parts)
    ensures forall i :: 0 <= i < |Present(parts)| ==> Some(Present(parts)[i]) in parts
  {
    if parts != [] {
      PresentSpec(parts[1..]);
      assert forall i :: 1 <= i < |parts| ==> parts[i] == parts[1..][i - 1];
    }
  }

  /** Read back as optional values, the kept parts are the list filtered by `Truthy`:
      the same parts, in the same order, with every copy. */
  lemma {:induction false} PresentIsFilter(parts: seq<Option<string>>)
    ensures |Present(parts)| == |Collections.Filter(parts, TruthyFn())|
    ensures forall i :: 0 <= i < |Present(parts)| ==>
              Some(Present(parts)[i]) == Collections.Filter(parts, TruthyFn())[i]
  {
    if parts != [] {
      PresentIsFilter(parts[1..]);
      var f := Collections.Filter(parts[1..], TruthyFn());
      if Truthy(parts[0]) {
        assert Collections.Filter(parts, TruthyFn()) == [parts[0]] + f;
      } else {
        assert Collections.Filter(parts, TruthyFn()) == f;
      }
    }
  }

  lemma {:induction false} JoinEmptyIff(parts: seq<string>)
    requires forall i :: 0 <= i < |parts| ==> parts[i] != ""
    ensures Join(parts) == "" <==> parts == []
  {
    if |parts| > 1 {
      assert |Join(parts)| >= 2;
    }
  }

  lemma {:induction false} PresentConcat(a: seq<Option<string>>, b: seq<Option<string>>)
    ensures Present(a + b) == Present(a) + Present(b)
  {
    if a != [] {
      assert (a + b)[1..] == a[1..] + b;
      PresentConcat(a[1..], b);
    } else {
      assert a + b == b;
    }
  }

  lemma JoinCons(p: string, rest: seq<string>)
    requires rest != []
    ensures Join([p] + rest) == p + ", " + Join(rest)
  {
    assert ([p] + rest)[0] == p && ([p] + rest)[1..] == rest;
  }

  /** `filter(Boolean)` over parts that are all present and non-empty keeps them all. */
  lemma {:induction false} PresentAllTruthy(parts: seq<Option<string>>)
    requires forall i :: 0 <= i < |parts| ==> Truthy(parts[i])
    ensures |Present(parts)| == |parts|
    ensures forall i :: 0 <= i < |parts| ==> Some(Present(parts)[i]) == parts[i]
  {
    if parts != [] {
      PresentAllTruthy(parts[1..]);
    }
  }

  /** The formatted address is empty exactly when all seven fields are empty or null. */
  lemma FormattedAddressEmptyIff(a: Address)
    ensures FormattedAddress(a) == "" <==>
      a.street == "" && a.number == "" && !Truthy(a.complement) && a.district == "" &&
      a.city == "" && a.state == "" && a.zipCode == ""
  {
    var parts := AddressParts(a);
    PresentSpec(parts);
    JoinEmptyIff(Present(parts));
    assert parts[0] == Some(a.street) && parts[1] == Some(a.number) && parts[2] == a.complement;
    assert parts[3] == Some(a.district) && parts[4] == Some(a.city);
    assert parts[5] == Some(a.state) && parts[6] == Some(a.zipCode);
  }

  /** When no field holds a comma, the segments between the ", " separators are
      exactly the non-empty fields in the order street, number, complement, district,
      city, state, zip code: no empty segment ever appears. */
  lemma FormattedAddressSegments(a: Address)
    requires forall f :: f in [a.street, a.number, a.district, a.city, a.state, a.zipCode] ==> ',' !in f
    requires a.complement.Some? ==> ',' !in a.complement.value
    ensures Split(FormattedAddress(a)) == Present(AddressParts(a))
    ensures forall i :: 0 <= i < |Split(FormattedAddress(a))| ==> Split(FormattedAddress(a))[i] != ""
  {
    var parts := Present(AddressParts(a));
    PresentSpec(AddressParts(a));
    forall i | 0 <= i < |parts| ensures parts[i] != "" && ',' !in parts[i] {
      assert Some(parts[i]) in AddressParts(a);
    }
    SplitJoin(parts);
  }

  /** A null complement and an empty one format alike: neither leaves a ", ," gap,
      and the address reads as the other six fields alone. */
  lemma ComplementAbsentOrEmpty(a: Address)
    ensures FormattedAddress(a.(complement := None)) == FormattedAddress(a.(complement := Some("")))
    ensures FormattedAddress(a.(complement := None)) ==
      Join(Present([Some(a.street), Some(a.number), Some(a.district), Some(a.city), Some(a.state), Some(a.zipCode)]))
  {
    var head := [Some(a.street), Some(a.number)];
    var tail := [Some(a.district), Some(a.city), Some(a.state), Some(a.zipCode)];
    assert AddressParts(a.(complement := None)) == head + [None] + tail;
    assert AddressParts(a.(complement := Some(""))) == head + [Some("")] + tail;
    PresentConcat(head + [None], tail);
    PresentConcat(head, [None]);
    PresentConcat(head + [Some("")], tail);
    PresentConcat(head, [Some("")]);
    PresentConcat(head, tail);
    assert head + tail == [Some(a.street), Some(a.number), Some(a.district), Some(a.city), Some(a.state), Some(a.zipCode)];
  }

  /** A complete address, complement included, lists all seven fields. */
  lemma FormattedAddressComplete(a: Address)
    requires a.street != "" && a.number != "" && a.complement.Some? && a.complement.value != ""
    requires a.district != "" && a.city != "" && a.state != "" && a.zipCode != ""
    ensures FormattedAddress(a) ==
      a.street + ", " + a.number + ", " + a.complement.value + ", " + a.district + ", " +
      a.city + ", " + a.state + ", " + a.zipCode
  {
    var parts := AddressParts(a);
    var vs := [a.street, a.number, a.complement.value, a.district, a.city, a.state, a.zipCode];
    PresentAllTruthy(parts);
    assert Present(parts) == vs;
    var tail := vs[1..];
    JoinCons(vs[0], tail);
    assert [vs[0]] + tail == vs;
    JoinCons(tail[0], tail[1..]);
    assert [tail[0]] + tail[1..] == tail;
    var t2 := tail[1..];
    JoinCons(t2[0], t2[1..]);
    assert [t2[0]] + t2[1..] == t2;
    var t3 := t2[1..];
    JoinCons(t3[0], t3[1..]);
    assert [t3[0]] + t3[1..] == t3;
    var t4 := t3[1..];
    JoinCons(t4[0], t4[1..]);
    assert [t4[0]] + t4[1..] == t4;
    var t5 := t4[1..];
    JoinCons(t5[0], t5[1..]);
    assert [t5[0]] + t5[1..] == t5;
  }

  /** `mapPartnerSupplierToDisplayData`; `None` where the source would throw a
      TypeError reading the address of a missing store. The full address is computed
      by the same inline `filter(Boolean).join(', ')` the source repeats. */
  function ToDisplayData(p: PartnerSupplier): Option<DisplayData> {
    if p.store.None? then None
    else
      var store := p.store.value;
      var address := store.address;
      var fullAddress := Join(Present([Some(address.street), Some(address.number), address.complement,
                                       Some(address.district), Some(address.city), Some(address.state),
                                       Some(address.zipCode)]));
      Some(DisplayData(p.id, p.tradeName, p.document, address.city, address.state, fullAddress,
                       p.contact, p.profileImage, p.accessPending, p.storeId, store.name,
                       store.rating, store.website))
  }

  /** The display record exists whenever the store does, its full address is what
      `getFormattedAddress` gives for the store's address, and every other field is
      copied unchanged from the supplier, its store or the store's address. */
  lemma ToDisplayDataSpec(p: PartnerSupplier)
    ensures ToDisplayData(p).Some? <==> p.store.Some?
    ensures p.store.Some? ==>
      var d := ToDisplayData(p).value;
      var store := p.store.value;
      && d.fullAddress == FormattedAddress(store.address)
      && d.id == p.id && d.name == p.tradeName && d.document == p.document
      && d.city == store.address.city && d.state == store.address.state
      && d.contact == p.contact && d.profileImage == p.profileImage
      && d.accessPending == p.accessPending && d.storeId == p.storeId
      && d.storeName == store.name && d.storeRating == store.rating && d.storeWebsite == store.website
  {
  }

  /** `hasActiveStore`: `!!partner.store && !!partner.storeId`. */
  predicate HasActiveStore(p: PartnerSupplier) {
    p.store.Some? && Truthy(p.storeId)
  }

  /** A supplier has an active store exactly when its display record exists and
      carries a non-empty store id. */
  lemma HasActiveStoreIff(p: PartnerSupplier)
    ensures HasActiveStore(p) <==>
      (ToDisplayData(p).Some? && ToDisplayData(p).value.storeId.Some? && ToDisplayData(p).value.storeId.value != "")
  {
  }
}
