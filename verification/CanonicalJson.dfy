/**
 The canonical form that stable hashes are computed from: `to_jsonable` on payloads whose dictionaries
 have string keys. Dictionaries keep their insertion order, as the program's do. The JSON text and the
 digest computed from the canonical form are not part of this model.
 */
module CanonicalJson {
  import opened Sequences

  datatype Atom = Null | Bool(b: bool) | Number(n: int) | Float(digits: string) | Text(s: string)

  datatype Payload =
    | Leaf(atom: Atom)
    | PathOf(s: string)
    | ListOf(items: seq<Payload>)
    | TupleOf(items: seq<Payload>)
    | Dict(entries: seq<Entry>)
    | Model(entries: seq<Entry>)                         // an object with `model_dump`, by its dump

  datatype Entry = Entry(key: string, value: Payload)

  // ---------------------------------------------------------------- keys

  /** The value under a key: of several entries the first. */
  function Lookup(entries: seq<Entry>, key: string): (r: Option<Payload>)
    ensures r.Some? <==> exists i :: 0 <= i < |entries| && entries[i].key == key
    ensures r.Some? ==> exists i :: 0 <= i < |entries| && entries[i] == Entry(key, r.value)
  {
    if entries == [] then None
    else if entries[0].key == key then
      assert entries[0] == Entry(key, entries[0].value);
      Some(entries[0].value)
    else
      var rest := Lookup(entries[1..], key);
      assert forall i :: 1 <= i < |entries| ==> entries[i] == entries[1..][i - 1];
      assert forall i :: 0 <= i < |entries[1..]| ==> entries[1..][i] == entries[i + 1];
      rest
  }

  ghost predicate DistinctKeys(entries: seq<Entry>) {
    forall i, j :: 0 <= i < j < |entries| ==> entries[i].key != entries[j].key
  }

  lemma LookupAt(entries: seq<Entry>, i: nat)
    requires DistinctKeys(entries) && i < |entries|
    ensures Lookup(entries, entries[i].key) == Some(entries[i].value)
  {
    var r := Lookup(entries, entries[i].key);
    var j :| 0 <= j < |entries| && entries[j] == Entry(entries[i].key, r.value);
    assert i == j;
  }

  // ---------------------------------------------------------------- the canonical form

  /** A payload of the program: the keys of every dictionary are distinct. */
  ghost predicate Valid(p: Payload) {
    match p
    case Leaf(_) => true
    case PathOf(_) => true
    case ListOf(items) => forall i :: 0 <= i < |items| ==> Valid(items[i])
    case TupleOf(items) => forall i :: 0 <= i < |items| ==> Valid(items[i])
    case Dict(entries) => DistinctKeys(entries) && forall i :: 0 <= i < |entries| ==> Valid(entries[i].value)
    case Model(entries) => DistinctKeys(entries) && forall i :: 0 <= i < |entries| ==> Valid(entries[i].value)
  }

  function Inserted(e: Entry, sorted: seq<Entry>): seq<Entry> {
    if sorted == [] || !Less(sorted[0].key, e.key) then [e] + sorted
    else [sorted[0]] + Inserted(e, sorted[1..])
  }

  /** `sorted(items, key=...)`: by key, stable. */
  function SortedEntries(entries: seq<Entry>): seq<Entry> {
    if entries == [] then [] else Inserted(entries[0], SortedEntries(entries[1..]))
  }

  /** `to_jsonable`. Entries are sorted by key, which converting their values does not change. */
  function ToJsonable(p: Payload): Payload
    decreases p
  {
    match p
    case Leaf(_) => p
    case PathOf(s) => Leaf(Text(s))
    case ListOf(items) => ListOf(ConvertItems(items))
    case TupleOf(items) => ListOf(ConvertItems(items))
    case Dict(entries) => Dict(SortedEntries(ConvertEntries(entries)))
    case Model(entries) => Dict(SortedEntries(ConvertEntries(entries)))
  }

  function ConvertItems(items: seq<Payload>): (r: seq<Payload>)
    ensures |r| == |items|
    decreases items
  {
    if items == [] then [] else [ToJsonable(items[0])] + ConvertItems(items[1..])
  }

  function ConvertEntries(entries: seq<Entry>): (r: seq<Entry>)
    ensures |r| == |entries|
    decreases entries
  {
    if entries == [] then [] else [Entry(entries[0].key, ToJsonable(entries[0].value))] + ConvertEntries(entries[1..])
  }

  lemma {:induction false} ConvertedItem(items: seq<Payload>, i: nat)
    requires i < |items|
    ensures ConvertItems(items)[i] == ToJsonable(items[i])
  {
    if i > 0 {
      ConvertedItem(items[1..], i - 1);
    }
  }

  lemma {:induction false} ConvertedEntry(entries: seq<Entry>, i: nat)
    requires i < |entries|
    ensures ConvertEntries(entries)[i] == Entry(entries[i].key, ToJsonable(entries[i].value))
  {
    if i > 0 {
      ConvertedEntry(entries[1..], i - 1);
    }
  }

  lemma ConvertedEntries(entries: seq<Entry>)
    ensures forall i :: 0 <= i < |entries| ==> ConvertEntries(entries)[i] == Entry(entries[i].key, ToJsonable(entries[i].value))
  {
    forall i | 0 <= i < |entries| ensures ConvertEntries(entries)[i] == Entry(entries[i].key, ToJsonable(entries[i].value)) {
      ConvertedEntry(entries, i);
    }
  }

  // ---------------------------------------------------------------- sorting

  ghost predicate Ascending(entries: seq<Entry>) {
    forall i, j :: 0 <= i < j < |entries| ==> Less(entries[i].key, entries[j].key)
  }

  lemma {:induction false} InsertedMembers(e: Entry, sorted: seq<Entry>)
    ensures multiset(Inserted(e, sorted)) == multiset(sorted) + multiset{e}
    ensures forall j :: 0 <= j < |Inserted(e, sorted)| ==> Inserted(e, sorted)[j] == e || Inserted(e, sorted)[j] in sorted
  {
    if sorted != [] {
      assert sorted == [sorted[0]] + sorted[1..];
      InsertedMembers(e, sorted[1..]);
    }
  }

  lemma AscendingCons(e: Entry, sorted: seq<Entry>)
    requires Ascending(sorted) && forall j :: 0 <= j < |sorted| ==> Less(e.key, sorted[j].key)
    ensures Ascending([e] + sorted)
  {
  }

  lemma AscendingTail(sorted: seq<Entry>)
    requires Ascending(sorted) && sorted != []
    ensures Ascending(sorted[1..]) && forall x :: x in sorted[1..] ==> Less(sorted[0].key, x.key) && x in sorted
  {
  }

  lemma {:induction false} InsertedAscends(e: Entry, sorted: seq<Entry>)
    requires Ascending(sorted) && forall j :: 0 <= j < |sorted| ==> sorted[j].key != e.key
    ensures Ascending(Inserted(e, sorted))
  {
    if sorted == [] || !Less(sorted[0].key, e.key) {
      forall j | 0 <= j < |sorted| ensures Less(e.key, sorted[j].key) {
        LessIsTotal(sorted[0].key, e.key);
        if j > 0 {
          LessIsTransitive(e.key, sorted[0].key, sorted[j].key);
        }
      }
      AscendingCons(e, sorted);
    } else {
      AscendingTail(sorted);
      InsertedAscends(e, sorted[1..]);
      InsertedMembers(e, sorted[1..]);
      AscendingCons(sorted[0], Inserted(e, sorted[1..]));
    }
  }

  lemma MembersOfMultiset<T>(s: seq<T>, x: T)
    ensures x in multiset(s) <==> x in s
  {
  }

  lemma {:induction false} SortedAscends(entries: seq<Entry>)
    requires DistinctKeys(entries)
    ensures Ascending(SortedEntries(entries))
    ensures multiset(SortedEntries(entries)) == multiset(entries)
  {
    if entries != [] {
      var rest := entries[1..];
      assert entries == [entries[0]] + rest;
      SortedAscends(rest);
      var sorted := SortedEntries(rest);
      forall i | 0 <= i < |sorted| ensures sorted[i].key != entries[0].key {
        MembersOfMultiset(sorted, sorted[i]);
        MembersOfMultiset(rest, sorted[i]);
        assert sorted[i] in rest;
      }
      InsertedAscends(entries[0], sorted);
      InsertedMembers(entries[0], sorted);
    }
  }

  lemma AscendingIsDistinct(entries: seq<Entry>)
    requires Ascending(entries)
    ensures DistinctKeys(entries)
  {
    forall i, j | 0 <= i < j < |entries| ensures entries[i].key != entries[j].key {
      LessIsIrreflexive(entries[i].key);
    }
  }

  lemma MemberLookup(a: seq<Entry>, b: seq<Entry>, key: string)
    requires DistinctKeys(b) && multiset(a) == multiset(b)
    ensures Lookup(a, key).Some? ==> Lookup(b, key) == Lookup(a, key)
  {
    if Lookup(a, key).Some? {
      var e := Entry(key, Lookup(a, key).value);
      MembersOfMultiset(a, e);
      MembersOfMultiset(b, e);
      var j :| 0 <= j < |b| && b[j] == e;
      LookupAt(b, j);
    }
  }

  lemma SameMembersSameLookup(a: seq<Entry>, b: seq<Entry>, key: string)
    requires DistinctKeys(a) && DistinctKeys(b) && multiset(a) == multiset(b)
    ensures Lookup(a, key) == Lookup(b, key)
  {
    MemberLookup(a, b, key);
    MemberLookup(b, a, key);
  }

  lemma SortKeepsLookup(entries: seq<Entry>, key: string)
    requires DistinctKeys(entries)
    ensures Lookup(SortedEntries(entries), key) == Lookup(entries, key)
  {
    SortedAscends(entries);
    AscendingIsDistinct(SortedEntries(entries));
    SameMembersSameLookup(SortedEntries(entries), entries, key);
  }

  ghost predicate SameLookups(a: seq<Entry>, b: seq<Entry>) {
    forall key :: Lookup(a, key) == Lookup(b, key)
  }

  lemma FirstKeyIsLeast(a: seq<Entry>, b: seq<Entry>)
    requires Ascending(a) && Ascending(b) && SameLookups(a, b) && a != [] && b != []
    ensures a[0] == b[0]
  {
    AscendingIsDistinct(a);
    AscendingIsDistinct(b);
    LookupAt(a, 0);
    LookupAt(b, 0);
    assert Lookup(b, a[0].key).Some? && Lookup(a, b[0].key).Some?;
    var i :| 0 <= i < |b| && b[i].key == a[0].key;
    var j :| 0 <= j < |a| && a[j].key == b[0].key;
    LessIsTotal(a[0].key, b[0].key);
  }

  lemma FirstLookup(entries: seq<Entry>)
    ensures entries != [] ==> Lookup(entries, entries[0].key).Some?
  {
  }

  lemma {:induction false} AscendingIsDetermined(a: seq<Entry>, b: seq<Entry>)
    requires Ascending(a) && Ascending(b) && SameLookups(a, b)
    ensures a == b
  {
    FirstLookup(a);
    FirstLookup(b);
    if a != [] {
      assert Lookup(a, a[0].key) == Lookup(b, a[0].key);
      FirstKeyIsLeast(a, b);
      RestSameLookups(a, b);
      AscendingIsDetermined(a[1..], b[1..]);
      assert a == [a[0]] + a[1..] && b == [b[0]] + b[1..];
    }
  }

  lemma RestSameLookups(a: seq<Entry>, b: seq<Entry>)
    requires Ascending(a) && Ascending(b) && SameLookups(a, b) && a != [] && b != [] && a[0] == b[0]
    ensures SameLookups(a[1..], b[1..])
  {
    AscendingIsDistinct(a);
    AscendingIsDistinct(b);
    forall key ensures Lookup(a[1..], key) == Lookup(b[1..], key) {
      assert Lookup(a, key) == Lookup(b, key);
    }
  }

  // ---------------------------------------------------------------- equality up to key order

  /** Equal up to the order of dictionary keys, at every depth; a tuple counts as the list of its items, a
      path as its text and a model as its dump. */
  ghost predicate Same(p: Payload, q: Payload)
    decreases p
  {
    if p.Dict? || p.Model? then
      && (q.Dict? || q.Model?) && |p.entries| == |q.entries|
      && forall i :: 0 <= i < |p.entries| ==>
           Lookup(q.entries, p.entries[i].key).Some? && Same(p.entries[i].value, Lookup(q.entries, p.entries[i].key).value)
    else if p.ListOf? || p.TupleOf? then
      && (q.ListOf? || q.TupleOf?) && |p.items| == |q.items|
      && forall i :: 0 <= i < |p.items| ==> Same(p.items[i], q.items[i])
    else
      (q.Leaf? || q.PathOf?) && ToJsonable(p) == ToJsonable(q)
  }

  lemma ConversionKeepsKeys(entries: seq<Entry>)
    requires DistinctKeys(entries)
    ensures DistinctKeys(ConvertEntries(entries))
  {
    ConvertedEntries(entries);
  }

  lemma {:induction false} LookupConverted(entries: seq<Entry>, key: string)
    ensures Lookup(ConvertEntries(entries), key)
      == var r := Lookup(entries, key); if r.Some? then Some(ToJsonable(r.value)) else None
  {
    if entries != [] {
      LookupConverted(entries[1..], key);
      assert ConvertEntries(entries)[1..] == ConvertEntries(entries[1..]);
    }
  }

  /** The entries of a dictionary's canonical form. */
  function Canonical(entries: seq<Entry>): seq<Entry> {
    SortedEntries(ConvertEntries(entries))
  }

  lemma CanonicalLookup(entries: seq<Entry>, key: string)
    requires DistinctKeys(entries)
    ensures Lookup(Canonical(entries), key)
      == var r := Lookup(entries, key); if r.Some? then Some(ToJsonable(r.value)) else None
  {
    ConversionKeepsKeys(entries);
    SortKeepsLookup(ConvertEntries(entries), key);
    LookupConverted(entries, key);
  }

  lemma CanonicalAscends(entries: seq<Entry>)
    requires DistinctKeys(entries)
    ensures Ascending(Canonical(entries))
    ensures |Canonical(entries)| == |entries|
  {
    ConversionKeepsKeys(entries);
    SortedAscends(ConvertEntries(entries));
    assert |multiset(Canonical(entries))| == |Canonical(entries)|;
    assert |multiset(ConvertEntries(entries))| == |entries|;
  }

  /** Two dictionaries have one canonical form exactly when the same keys lead to the same forms. */
  lemma CanonicalIff(a: seq<Entry>, b: seq<Entry>)
    requires DistinctKeys(a) && DistinctKeys(b)
    ensures Canonical(a) == Canonical(b) <==> SameLookups(Canonical(a), Canonical(b))
  {
    CanonicalAscends(a);
    CanonicalAscends(b);
    if SameLookups(Canonical(a), Canonical(b)) {
      AscendingIsDetermined(Canonical(a), Canonical(b));
    }
  }

  /** Each key of the first is a key of the second, with the same canonical value. */
  ghost predicate Agree(a: seq<Entry>, b: seq<Entry>) {
    && |a| == |b|
    && forall i :: 0 <= i < |a| ==>
         Lookup(b, a[i].key).Some? && ToJsonable(a[i].value) == ToJsonable(Lookup(b, a[i].key).value)
  }

  function KeysOf(entries: seq<Entry>): seq<string> {
    seq(|entries|, i requires 0 <= i < |entries| => entries[i].key)
  }

  /** With as many distinct keys, the keys of the one being keys of the other, both have the same keys. */
  lemma NoOtherKeys(a: seq<Entry>, b: seq<Entry>, key: string)
    requires DistinctKeys(a) && DistinctKeys(b) && |a| == |b|
    requires forall i :: 0 <= i < |a| ==> Lookup(b, a[i].key).Some?
    ensures Lookup(b, key).Some? ==> Lookup(a, key).Some?
  {
    var ka, kb := KeysOf(a), KeysOf(b);
    DistinctFillPlaces(ka);
    DistinctFillPlaces(kb);
    forall x | x in Elements(ka) ensures x in Elements(kb) {
      var i :| 0 <= i < |ka| && ka[i] == x;
      assert Lookup(b, a[i].key).Some?;
      var j :| 0 <= j < |b| && b[j].key == x;
      assert kb[j] == x;
    }
    SubsetOfSameSize(Elements(ka), Elements(kb));
    if Lookup(b, key).Some? {
      var j :| 0 <= j < |b| && b[j].key == key;
      assert kb[j] == key;
      assert key in Elements(ka);
      var i :| 0 <= i < |ka| && ka[i] == key;
      assert a[i].key == key;
    }
  }

  lemma SubsetOfSameSize<T>(a: set<T>, b: set<T>)
    requires a <= b && |a| == |b|
    ensures a == b
  {
    assert b == a + (b - a);
    assert |b| == |a| + |b - a|;
  }

  lemma AgreementIff(a: seq<Entry>, b: seq<Entry>)
    requires DistinctKeys(a) && DistinctKeys(b)
    ensures Canonical(a) == Canonical(b) <==> Agree(a, b)
  {
    CanonicalIff(a, b);
    if Canonical(a) == Canonical(b) {
      CanonicalAscends(a);
      CanonicalAscends(b);
      forall i | 0 <= i < |a|
        ensures Lookup(b, a[i].key).Some? && ToJsonable(a[i].value) == ToJsonable(Lookup(b, a[i].key).value)
      {
        CanonicalLookup(a, a[i].key);
        CanonicalLookup(b, a[i].key);
        LookupAt(a, i);
      }
    }
    if Agree(a, b) {
      forall key ensures Lookup(Canonical(a), key) == Lookup(Canonical(b), key) {
        AgreeingLookups(a, b, key);
      }
    }
  }

  lemma AgreeingLookups(a: seq<Entry>, b: seq<Entry>, key: string)
    requires DistinctKeys(a) && DistinctKeys(b) && Agree(a, b)
    ensures Lookup(Canonical(a), key) == Lookup(Canonical(b), key)
  {
    CanonicalLookup(a, key);
    CanonicalLookup(b, key);
    NoOtherKeys(a, b, key);
    if Lookup(a, key).Some? {
      var i :| 0 <= i < |a| && a[i] == Entry(key, Lookup(a, key).value);
      assert Lookup(b, a[i].key).Some? && ToJsonable(a[i].value) == ToJsonable(Lookup(b, a[i].key).value);
    }
  }

  /** Item by item, the second sequence holds the conversions of the first. */
  ghost predicate Converts(items: seq<Payload>, converted: seq<Payload>) {
    |converted| == |items| && forall i :: 0 <= i < |items| ==> converted[i] == ToJsonable(items[i])
  }

  lemma ItemsConvert(items: seq<Payload>)
    ensures Converts(items, ConvertItems(items))
  {
    forall i | 0 <= i < |items| ensures ConvertItems(items)[i] == ToJsonable(items[i]) {
      ConvertedItem(items, i);
    }
  }

  ghost predicate SameItems(a: seq<Payload>, b: seq<Payload>) {
    |a| == |b| && forall i :: 0 <= i < |a| ==> ToJsonable(a[i]) == ToJsonable(b[i])
  }

  lemma ConversionsEqualIff(a: seq<Payload>, ca: seq<Payload>, b: seq<Payload>, cb: seq<Payload>)
    requires Converts(a, ca) && Converts(b, cb)
    ensures ca == cb <==> SameItems(a, b)
  {
    if ca == cb {
      forall i | 0 <= i < |a| ensures ToJsonable(a[i]) == ToJsonable(b[i]) {
        assert ca[i] == cb[i];
      }
    }
  }

  predicate DictLike(p: Payload) {
    p.Dict? || p.Model?
  }

  predicate ListLike(p: Payload) {
    p.ListOf? || p.TupleOf?
  }

  lemma DictsIff(p: Payload, q: Payload)
    requires Valid(p) && Valid(q) && DictLike(p) && DictLike(q)
    ensures ToJsonable(p) == ToJsonable(q) <==> Agree(p.entries, q.entries)
  {
    AgreementIff(p.entries, q.entries);
  }

  lemma ListsIff(p: Payload, q: Payload)
    requires ListLike(p) && ListLike(q)
    ensures ToJsonable(p) == ToJsonable(q) <==> SameItems(p.items, q.items)
  {
    ItemsConvert(p.items);
    ItemsConvert(q.items);
    ConversionsEqualIff(p.items, ConvertItems(p.items), q.items, ConvertItems(q.items));
  }

  lemma FoundIsValid(q: Payload, key: string)
    requires Valid(q) && DictLike(q) && Lookup(q.entries, key).Some?
    ensures Valid(Lookup(q.entries, key).value)
  {
    var i :| 0 <= i < |q.entries| && q.entries[i] == Entry(key, Lookup(q.entries, key).value);
  }

  /** Two payloads have the same canonical form, order included, exactly when they are equal up to the
      order of dictionary keys at every depth. */
  lemma {:induction false} CanonicalFormDecides(p: Payload, q: Payload)
    requires Valid(p) && Valid(q)
    ensures ToJsonable(p) == ToJsonable(q) <==> Same(p, q)
    decreases p
  {
    if DictLike(p) && DictLike(q) {
      DictsIff(p, q);
      forall i | 0 <= i < |p.entries| && Lookup(q.entries, p.entries[i].key).Some?
        ensures var v := Lookup(q.entries, p.entries[i].key).value;
          ToJsonable(p.entries[i].value) == ToJsonable(v) <==> Same(p.entries[i].value, v)
      {
        FoundIsValid(q, p.entries[i].key);
        CanonicalFormDecides(p.entries[i].value, Lookup(q.entries, p.entries[i].key).value);
      }
    } else if ListLike(p) && ListLike(q) {
      ListsIff(p, q);
      forall i | 0 <= i < |p.items| && i < |q.items|
        ensures ToJsonable(p.items[i]) == ToJsonable(q.items[i]) <==> Same(p.items[i], q.items[i])
      {
        CanonicalFormDecides(p.items[i], q.items[i]);
      }
    }
  }

  // ---------------------------------------------------------------- idempotence

  lemma {:induction false} FixedItems(items: seq<Payload>)
    requires forall i :: 0 <= i < |items| ==> ToJsonable(items[i]) == items[i]
    ensures ConvertItems(items) == items
  {
    if items != [] {
      assert forall i :: 0 <= i < |items[1..]| ==> items[1..][i] == items[i + 1];
      FixedItems(items[1..]);
      assert items == [items[0]] + items[1..];
    }
  }

  lemma {:induction false} FixedEntries(entries: seq<Entry>)
    requires forall i :: 0 <= i < |entries| ==> ToJsonable(entries[i].value) == entries[i].value
    ensures ConvertEntries(entries) == entries
  {
    if entries != [] {
      assert forall i :: 0 <= i < |entries[1..]| ==> entries[1..][i] == entries[i + 1];
      FixedEntries(entries[1..]);
      assert entries == [entries[0]] + entries[1..];
    }
  }

  lemma {:induction false} SortingSorted(entries: seq<Entry>)
    requires Ascending(entries)
    ensures SortedEntries(entries) == entries
  {
    if entries != [] {
      AscendingTail(entries);
      SortingSorted(entries[1..]);
      assert entries == [entries[0]] + entries[1..];
      if |entries| > 1 {
        assert entries[1] in entries[1..];
        LessIsTotal(entries[0].key, entries[1].key);
      }
    }
  }

  lemma CanonicalMembers(entries: seq<Entry>, k: nat) returns (i: nat)
    requires DistinctKeys(entries) && k < |Canonical(entries)|
    ensures i < |entries| && Canonical(entries)[k] == Entry(entries[i].key, ToJsonable(entries[i].value))
  {
    ConversionKeepsKeys(entries);
    ConvertedEntries(entries);
    SortedAscends(ConvertEntries(entries));
    var e := Canonical(entries)[k];
    MembersOfMultiset(Canonical(entries), e);
    MembersOfMultiset(ConvertEntries(entries), e);
    i :| 0 <= i < |entries| && ConvertEntries(entries)[i] == e;
  }

  lemma CanonicalIsFixed(entries: seq<Entry>)
    requires DistinctKeys(entries)
    requires forall i :: 0 <= i < |entries| ==> ToJsonable(ToJsonable(entries[i].value)) == ToJsonable(entries[i].value)
    ensures Canonical(Canonical(entries)) == Canonical(entries)
  {
    CanonicalAscends(entries);
    forall k | 0 <= k < |Canonical(entries)| ensures ToJsonable(Canonical(entries)[k].value) == Canonical(entries)[k].value {
      var i := CanonicalMembers(entries, k);
    }
    FixedEntries(Canonical(entries));
    SortingSorted(Canonical(entries));
  }

  /** Canonicalising twice is canonicalising once. */
  lemma {:induction false} ToJsonableIsIdempotent(p: Payload)
    requires Valid(p)
    ensures ToJsonable(ToJsonable(p)) == ToJsonable(p)
    decreases p
  {
    if DictLike(p) {
      forall i | 0 <= i < |p.entries|
        ensures ToJsonable(ToJsonable(p.entries[i].value)) == ToJsonable(p.entries[i].value)
      {
        ToJsonableIsIdempotent(p.entries[i].value);
      }
      CanonicalIsFixed(p.entries);
    } else if ListLike(p) {
      forall i | 0 <= i < |p.items| ensures ToJsonable(ConvertItems(p.items)[i]) == ConvertItems(p.items)[i] {
        ToJsonableIsIdempotent(p.items[i]);
        ConvertedItem(p.items, i);
      }
      FixedItems(ConvertItems(p.items));
    }
  }

  // ---------------------------------------------------------------- core parameters of a task

  const CoreFields: seq<string> := [
    "brand_name", "product_name", "category", "platform", "shot_count", "aspect_ratio", "image_size"]

  /** `normalized.get(name)`. */
  function Field(entries: seq<Entry>, name: string): Payload {
    var r := Lookup(entries, name);
    if r.Some? then r.value else Leaf(Null)
  }

  function CoreEntries(entries: seq<Entry>, names: seq<string>): (r: seq<Entry>)
    ensures |r| == |names|
  {
    if names == [] then [] else [Entry(names[0], Field(entries, names[0]))] + CoreEntries(entries, names[1..])
  }

  /** What `hash_task_core_params` hashes. */
  function CoreParams(task: Payload): Payload {
    var normalized := ToJsonable(task);
    if normalized.Dict? then Dict(CoreEntries(normalized.entries, CoreFields)) else normalized
  }

  lemma {:induction false} CoreEntry(entries: seq<Entry>, names: seq<string>, i: nat)
    requires i < |names|
    ensures CoreEntries(entries, names)[i] == Entry(names[i], Field(entries, names[i]))
  {
    if i > 0 {
      CoreEntry(entries, names[1..], i - 1);
    }
  }

  /** Two task dictionaries have the same core parameters exactly when every core field has the same
      canonical value in both, a missing field counting as null: no other field matters. */
  lemma CoreParamsIff(a: Payload, b: Payload)
    requires Valid(a) && Valid(b) && DictLike(a) && DictLike(b)
    ensures CoreParams(a) == CoreParams(b)
      <==> forall i :: 0 <= i < |CoreFields| ==> ToJsonable(Field(a.entries, CoreFields[i])) == ToJsonable(Field(b.entries, CoreFields[i]))
  {
    var ca, cb := CoreEntries(Canonical(a.entries), CoreFields), CoreEntries(Canonical(b.entries), CoreFields);
    forall i | 0 <= i < |CoreFields|
      ensures ca[i] == Entry(CoreFields[i], ToJsonable(Field(a.entries, CoreFields[i])))
      ensures cb[i] == Entry(CoreFields[i], ToJsonable(Field(b.entries, CoreFields[i])))
    {
      CoreEntry(Canonical(a.entries), CoreFields, i);
      CoreEntry(Canonical(b.entries), CoreFields, i);
      CanonicalLookup(a.entries, CoreFields[i]);
      CanonicalLookup(b.entries, CoreFields[i]);
    }
    if CoreParams(a) == CoreParams(b) {
      assert forall i :: 0 <= i < |CoreFields| ==> ca[i] == cb[i];
    } else {
      assert ca != cb;
      var i :| 0 <= i < |CoreFields| && ca[i] != cb[i];
    }
  }

  /** Both have this field with the same value up to the order of keys at every depth; a field that is missing
      agrees with one that is missing or null. */
  ghost predicate SameField(a: Payload, b: Payload, name: string)
    requires DictLike(a) && DictLike(b)
  {
    var x, y := Lookup(a.entries, name), Lookup(b.entries, name);
    if x.Some? && y.Some? then Same(x.value, y.value)
    else if x.Some? then x.value == Leaf(Null)
    else y.Some? ==> y.value == Leaf(Null)
  }

  lemma NullIsItself(p: Payload)
    requires Valid(p)
    ensures ToJsonable(p) == Leaf(Null) <==> p == Leaf(Null)
  {
  }

  lemma FieldsAgreeIff(a: Payload, b: Payload, name: string)
    requires Valid(a) && Valid(b) && DictLike(a) && DictLike(b)
    ensures ToJsonable(Field(a.entries, name)) == ToJsonable(Field(b.entries, name)) <==> SameField(a, b, name)
  {
    var x, y := Lookup(a.entries, name), Lookup(b.entries, name);
    if x.Some? {
      FoundIsValid(a, name);
      NullIsItself(x.value);
    }
    if y.Some? {
      FoundIsValid(b, name);
      NullIsItself(y.value);
    }
    if x.Some? && y.Some? {
      CanonicalFormDecides(x.value, y.value);
    }
  }

  lemma AllSeven(agrees: string -> bool)
    ensures (forall i :: 0 <= i < |CoreFields| ==> agrees(CoreFields[i])) <==>
      && agrees("brand_name") && agrees("product_name") && agrees("category") && agrees("platform")
      && agrees("shot_count") && agrees("aspect_ratio") && agrees("image_size")
  {
    assert CoreFields[0] == "brand_name" && CoreFields[1] == "product_name" && CoreFields[2] == "category";
    assert CoreFields[3] == "platform" && CoreFields[4] == "shot_count" && CoreFields[5] == "aspect_ratio";
    assert CoreFields[6] == "image_size";
  }

  lemma CoreParamsFields(a: Payload, b: Payload)
    requires Valid(a) && Valid(b) && DictLike(a) && DictLike(b)
    ensures CoreParams(a) == CoreParams(b) <==> forall i :: 0 <= i < |CoreFields| ==> SameField(a, b, CoreFields[i])
  {
    CoreParamsIff(a, b);
    forall i | 0 <= i < |CoreFields|
      ensures ToJsonable(Field(a.entries, CoreFields[i])) == ToJsonable(Field(b.entries, CoreFields[i]))
              <==> SameField(a, b, CoreFields[i])
    {
      FieldsAgreeIff(a, b, CoreFields[i]);
    }
  }

  /** So what is hashed of two tasks is the same exactly when these seven fields are, whatever else they hold. */
  lemma CoreParamsMeaning(a: Payload, b: Payload)
    requires Valid(a) && Valid(b) && DictLike(a) && DictLike(b)
    ensures CoreParams(a) == CoreParams(b) <==>
      && SameField(a, b, "brand_name") && SameField(a, b, "product_name") && SameField(a, b, "category")
      && SameField(a, b, "platform") && SameField(a, b, "shot_count") && SameField(a, b, "aspect_ratio")
      && SameField(a, b, "image_size")
  {
    CoreParamsFields(a, b);
    AllSeven(name => SameField(a, b, name));
  }
}
