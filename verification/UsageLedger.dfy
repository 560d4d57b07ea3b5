/**
 The usage ledger: model-call events are folded into a summary with a total and two breakdowns,
 by stage and by provider, each listed in key order; two summaries can be merged.

 A breakdown under construction is a `Book`, a map from key to label and metrics. The methods build
 it in a dictionary of mutable items, as the source does; the functions over books say what they
 compute, and the lemmas prove the algebra of merging.
 */
module UsageLedger {
  import Sequences

  // ---------------------------------------------------------------- metrics and events

  datatype Source = ProviderReported | Estimated | Unavailable

  datatype Usage = Usage(
    source: Source, inputTokens: int, outputTokens: int, totalTokens: int,
    requestCount: int, imageCount: int, latencyMs: int)

  datatype Event = Event(
    stageName: string, stageLabel: string,
    providerType: string, providerName: string, modelId: string,
    success: bool, usage: Usage)

  datatype Metrics = Metrics(
    events: int, succeeded: int, failed: int,
    reported: int, estimated: int, unavailable: int,
    requests: int, images: int,
    inputTokens: int, outputTokens: int, totalTokens: int, latencyMs: int)

  const Zero: Metrics := Metrics(0, 0, 0, 0, 0, 0, 0, 0, 0, 0, 0, 0)

  function Merged(a: Metrics, b: Metrics): Metrics {
    Metrics(
      a.events + b.events, a.succeeded + b.succeeded, a.failed + b.failed,
      a.reported + b.reported, a.estimated + b.estimated, a.unavailable + b.unavailable,
      a.requests + b.requests, a.images + b.images,
      a.inputTokens + b.inputTokens, a.outputTokens + b.outputTokens, a.totalTokens + b.totalTokens,
      a.latencyMs + b.latencyMs)
  }

  lemma MergedAssociative(a: Metrics, b: Metrics, c: Metrics)
    ensures Merged(Merged(a, b), c) == Merged(a, Merged(b, c))
  {
  }

  lemma MergedCommutes(a: Metrics, b: Metrics)
    ensures Merged(a, b) == Merged(b, a)
    ensures Merged(a, Zero) == a && Merged(Zero, a) == a
  {
  }

  function NonNegative(x: int): nat { if x < 0 then 0 else x }

  function MetricsOf(e: Event): Metrics {
    Metrics(
      1, if e.success then 1 else 0, if e.success then 0 else 1,
      if e.usage.source == ProviderReported then 1 else 0,
      if e.usage.source == Estimated then 1 else 0,
      if e.usage.source == Unavailable then 1 else 0,
      NonNegative(e.usage.requestCount), NonNegative(e.usage.imageCount),
      NonNegative(e.usage.inputTokens), NonNegative(e.usage.outputTokens),
      NonNegative(e.usage.totalTokens), NonNegative(e.usage.latencyMs))
  }

  /** The two ways a summary is broken down. */
  datatype Dimension = ByStage | ByProvider

  function KeyOf(e: Event, d: Dimension): string {
    match d
    case ByStage => e.stageName
    case ByProvider => e.providerType + ":" + e.providerName + ":" + e.modelId
  }

  function LabelOf(e: Event, d: Dimension): string {
    match d
    case ByStage => if e.stageLabel != "" then e.stageLabel else e.stageName
    case ByProvider =>
      e.providerType + "/" + e.providerName + "/" + (if e.modelId != "" then e.modelId else "-")
  }

  // ---------------------------------------------------------------- books

  datatype Line = Line(caption: string, metrics: Metrics)

  type Book = map<string, Line>

  /** Adds metrics under a key; the label of an existing line stays. */
  function Post(b: Book, key: string, caption: string, m: Metrics): Book {
    if key in b then b[key := Line(b[key].caption, Merged(b[key].metrics, m))] else b[key := Line(caption, m)]
  }

  function BookOf(events: seq<Event>, d: Dimension): Book {
    if events == [] then map[] else
      var e := events[|events| - 1];
      Post(BookOf(events[..|events| - 1], d), KeyOf(e, d), LabelOf(e, d), MetricsOf(e))
  }

  /** Two books as one: labels of the first win, metrics add up. */
  ghost function Collate(a: Book, b: Book): Book {
    map k | k in a.Keys + b.Keys ::
      if k !in b then a[k]
      else if k !in a then b[k]
      else Line(a[k].caption, Merged(a[k].metrics, b[k].metrics))
  }

  lemma CollatePost(a: Book, b: Book, key: string, caption: string, m: Metrics)
    ensures Collate(a, Post(b, key, caption, m)) == Post(Collate(a, b), key, caption, m)
  {
  }

  lemma CollateAssociative(a: Book, b: Book, c: Book)
    ensures Collate(Collate(a, b), c) == Collate(a, Collate(b, c))
  {
  }

  lemma CollateUnit(a: Book)
    ensures Collate(a, map[]) == a && Collate(map[], a) == a
  {
  }

  lemma {:induction false} BookOfConcat(a: seq<Event>, b: seq<Event>, d: Dimension)
    ensures BookOf(a + b, d) == Collate(BookOf(a, d), BookOf(b, d))
  {
    if b == [] {
      assert a + b == a;
      CollateUnit(BookOf(a, d));
    } else {
      var e := b[|b| - 1];
      assert (a + b)[..|a + b| - 1] == a + b[..|b| - 1];
      BookOfConcat(a, b[..|b| - 1], d);
      CollatePost(BookOf(a, d), BookOf(b[..|b| - 1], d), KeyOf(e, d), LabelOf(e, d), MetricsOf(e));
    }
  }

  // ---------------------------------------------------------------- what a line of a book means

  function Total(events: seq<Event>): Metrics {
    if events == [] then Zero else Merged(Total(events[..|events| - 1]), MetricsOf(events[|events| - 1]))
  }

  /** The events of one breakdown row. */
  function Selected(events: seq<Event>, d: Dimension, key: string): seq<Event> {
    if events == [] then [] else
      var before, e := Selected(events[..|events| - 1], d, key), events[|events| - 1];
      if KeyOf(e, d) == key then before + [e] else before
  }

  lemma TotalSnoc(events: seq<Event>, e: Event)
    ensures Total(events + [e]) == Merged(Total(events), MetricsOf(e))
  {
    var all := events + [e];
    assert all[..|all| - 1] == events && all[|all| - 1] == e;
  }

  /** The row under a key holds the sum of these events under the label of the first of them. */
  ghost predicate RowIs(b: Book, key: string, own: seq<Event>, d: Dimension) {
    && (key in b <==> own != [])
    && (key in b ==> b[key] == Line(LabelOf(own[0], d), Total(own)))
  }

  lemma PostKeepsRow(b: Book, key: string, own: seq<Event>, d: Dimension, e: Event)
    requires RowIs(b, key, own, d)
    ensures RowIs(Post(b, KeyOf(e, d), LabelOf(e, d), MetricsOf(e)), key, if KeyOf(e, d) == key then own + [e] else own, d)
  {
    if KeyOf(e, d) == key {
      TotalSnoc(own, e);
      MergedCommutes(MetricsOf(e), Zero);
    }
  }

  /** Every row holds the sum of its own events under the label of the first of them. */
  lemma {:induction false} RowMeaning(events: seq<Event>, d: Dimension, key: string)
    ensures RowIs(BookOf(events, d), key, Selected(events, d, key), d)
  {
    if events != [] {
      var before := events[..|events| - 1];
      RowMeaning(before, d, key);
      PostKeepsRow(BookOf(before, d), key, Selected(before, d, key), d, events[|events| - 1]);
    }
  }

  // ---------------------------------------------------------------- listings

  datatype Entry = Entry(key: string, caption: string, metrics: Metrics)

  /** The entries are the lines of the book, each once, in strictly increasing key order. */
  ghost predicate Lists(entries: seq<Entry>, b: Book) {
    && SortedByKey(entries)
    && (forall i :: 0 <= i < |entries| ==>
          entries[i].key in b && b[entries[i].key] == Line(entries[i].caption, entries[i].metrics))
    && (forall k :: k in b ==> HasKey(entries, k))
  }

  ghost predicate SortedByKey(entries: seq<Entry>) {
    forall i, j :: 0 <= i < j < |entries| ==> Sequences.Less(entries[i].key, entries[j].key)
  }

  ghost predicate HasKey(entries: seq<Entry>, k: string) {
    exists i :: 0 <= i < |entries| && entries[i].key == k
  }

  lemma {:induction false} ListingIsUnique(x: seq<Entry>, y: seq<Entry>, b: Book)
    requires Lists(x, b) && Lists(y, b)
    ensures x == y
    decreases |x|
  {
    assert x == [] <==> b == map[] by {
      EmptyListing(x, b);
    }
    assert y == [] <==> b == map[] by {
      EmptyListing(y, b);
    }
    if x != [] && y != [] {
      assert HasKey(y, x[0].key);
      assert HasKey(x, y[0].key);
      FirstKeysAgree(x, y);
      var rest := b - {x[0].key};
      TailLists(x, b);
      TailLists(y, b);
      ListingIsUnique(x[1..], y[1..], rest);
      assert x == [x[0]] + x[1..] && y == [y[0]] + y[1..];
    }
  }

  lemma EmptyListing(x: seq<Entry>, b: Book)
    requires Lists(x, b)
    ensures x == [] <==> b == map[]
  {
    if x == [] {
      assert forall k :: k in b ==> HasKey(x, k);
    } else {
      assert x[0].key in b;
    }
  }

  lemma FirstKeysAgree(x: seq<Entry>, y: seq<Entry>)
    requires x != [] && y != [] && SortedByKey(x) && SortedByKey(y)
    requires HasKey(y, x[0].key) && HasKey(x, y[0].key)
    ensures x[0].key == y[0].key
  {
    var i :| 0 <= i < |y| && y[i].key == x[0].key;
    var j :| 0 <= j < |x| && x[j].key == y[0].key;
    Sequences.LessIsTotal(x[0].key, y[0].key);
  }

  lemma TailLists(x: seq<Entry>, b: Book)
    requires Lists(x, b) && x != []
    ensures Lists(x[1..], b - {x[0].key})
  {
    forall k | k in b - {x[0].key} ensures HasKey(x[1..], k) {
      var i :| 0 <= i < |x| && x[i].key == k;
      assert x[1..][i - 1].key == k;
    }
    forall i | 0 <= i < |x[1..]| ensures x[1..][i].key != x[0].key {
      Sequences.LessIsTotal(x[0].key, x[i + 1].key);
    }
  }

  lemma InsertSorted(s: seq<Entry>, e: Entry, i: nat)
    requires SortedByKey(s) && i <= |s|
    requires forall j :: 0 <= j < i ==> Sequences.Less(s[j].key, e.key)
    requires i < |s| ==> Sequences.Less(e.key, s[i].key)
    ensures SortedByKey(s[..i] + [e] + s[i..])
  {
    var t := s[..i] + [e] + s[i..];
    forall j | i < j < |s| ensures Sequences.Less(e.key, s[j].key) {
      Sequences.LessIsTransitive(e.key, s[i].key, s[j].key);
    }
    assert forall j :: 0 <= j < |t| ==> t[j] == if j < i then s[j] else if j == i then e else s[j - 1];
  }

  lemma InsertHasKeys(s: seq<Entry>, b: Book, e: Entry, i: nat)
    requires i <= |s| && forall k :: k in b ==> HasKey(s, k)
    ensures forall k :: k in b || k == e.key ==> HasKey(s[..i] + [e] + s[i..], k)
  {
    var t := s[..i] + [e] + s[i..];
    forall k | k in b || k == e.key ensures HasKey(t, k) {
      if k == e.key {
        assert t[i].key == k;
      } else {
        assert HasKey(s, k);
        var j :| 0 <= j < |s| && s[j].key == k;
        assert t[if j < i then j else j + 1].key == k;
      }
    }
  }

  /** Where a new key goes in a sorted listing. */
  lemma InsertLists(s: seq<Entry>, b: Book, e: Entry, i: nat)
    requires Lists(s, b) && e.key !in b && i <= |s|
    requires forall j :: 0 <= j < i ==> Sequences.Less(s[j].key, e.key)
    requires i < |s| ==> Sequences.Less(e.key, s[i].key)
    ensures Lists(s[..i] + [e] + s[i..], b[e.key := Line(e.caption, e.metrics)])
  {
    var t := s[..i] + [e] + s[i..];
    var c := b[e.key := Line(e.caption, e.metrics)];
    InsertSorted(s, e, i);
    InsertHasKeys(s, b, e, i);
    forall j | 0 <= j < |t| ensures t[j].key in c && c[t[j].key] == Line(t[j].caption, t[j].metrics) {
      assert t[j] == if j < i then s[j] else if j == i then e else s[j - 1];
    }
  }

  function InsertionPoint(s: seq<Entry>, key: string): (i: nat)
    ensures i <= |s|
    ensures forall j :: 0 <= j < i ==> Sequences.Less(s[j].key, key)
    ensures i < |s| ==> !Sequences.Less(s[i].key, key)
  {
    if s == [] || !Sequences.Less(s[0].key, key) then 0 else 1 + InsertionPoint(s[1..], key)
  }

  ghost function AnyKey(b: Book): (k: string)
    requires b != map[]
    ensures k in b
  {
    var k :| k in b; k
  }

  /** The one listing of a book. */
  ghost function Listing(b: Book): seq<Entry>
    decreases |b|
  {
    if b == map[] then [] else
      var k := AnyKey(b);
      assert |b.Keys - {k}| < |b.Keys|;
      assert (b - {k}).Keys == b.Keys - {k};
      var s := Listing(b - {k});
      s[..InsertionPoint(s, k)] + [Entry(k, b[k].caption, b[k].metrics)] + s[InsertionPoint(s, k)..]
  }

  lemma {:induction false} ListingLists(b: Book)
    ensures Lists(Listing(b), b)
    decreases |b|
  {
    if b != map[] {
      var k := AnyKey(b);
      var rest := b - {k};
      assert |b.Keys - {k}| < |b.Keys|;
      assert rest.Keys == b.Keys - {k};
      ListingLists(rest);
      var s := Listing(rest);
      var i := InsertionPoint(s, k);
      if i < |s| {
        Sequences.LessIsTotal(k, s[i].key);
        assert s[i].key in rest;
      }
      InsertLists(s, rest, Entry(k, b[k].caption, b[k].metrics), i);
      assert rest[k := b[k]] == b;
    }
  }

  lemma ListingIs(b: Book, s: seq<Entry>)
    requires Lists(s, b)
    ensures s == Listing(b)
  {
    ListingLists(b);
    ListingIsUnique(s, Listing(b), b);
  }

  /** Folding any list of entries into a book. */
  function EntriesBook(entries: seq<Entry>): Book {
    if entries == [] then map[] else
      var e := entries[|entries| - 1];
      Post(EntriesBook(entries[..|entries| - 1]), e.key, e.caption, e.metrics)
  }

  lemma {:induction false} EntriesBookConcat(x: seq<Entry>, y: seq<Entry>)
    ensures EntriesBook(x + y) == Collate(EntriesBook(x), EntriesBook(y))
  {
    if y == [] {
      assert x + y == x;
      CollateUnit(EntriesBook(x));
    } else {
      var e := y[|y| - 1];
      assert (x + y)[..|x + y| - 1] == x + y[..|y| - 1];
      EntriesBookConcat(x, y[..|y| - 1]);
      CollatePost(EntriesBook(x), EntriesBook(y[..|y| - 1]), e.key, e.caption, e.metrics);
    }
  }

  lemma AppendLists(s: seq<Entry>, b: Book, e: Entry)
    requires Lists(s, b) && SortedByKey(s + [e])
    ensures Lists(s + [e], Post(b, e.key, e.caption, e.metrics))
  {
    var t := s + [e];
    forall i | 0 <= i < |s| ensures Sequences.Less(s[i].key, e.key) && s[i].key != e.key {
      assert Sequences.Less(t[i].key, t[|s|].key);
      Sequences.LessIsTotal(s[i].key, e.key);
    }
    if e.key in b {
      assert HasKey(s, e.key);
    }
    InsertLists(s, b, e, |s|);
    assert s[..|s|] + [e] + s[|s|..] == t;
  }

  lemma {:induction false} SortedEntriesAreListed(s: seq<Entry>)
    requires SortedByKey(s)
    ensures Lists(s, EntriesBook(s))
  {
    if s != [] {
      var n := |s| - 1;
      assert s == s[..n] + [s[n]];
      SortedEntriesAreListed(s[..n]);
      AppendLists(s[..n], EntriesBook(s[..n]), s[n]);
    }
  }

  /** Entries that list two books list the same book. */
  lemma ListsOneBook(s: seq<Entry>, a: Book, b: Book)
    requires Lists(s, a) && Lists(s, b)
    ensures a == b
  {
    forall k | k in a ensures k in b && b[k] == a[k] {
      assert HasKey(s, k);
      var i :| 0 <= i < |s| && s[i].key == k;
    }
    forall k | k in b ensures k in a {
      assert HasKey(s, k);
      var i :| 0 <= i < |s| && s[i].key == k;
    }
  }

  /** Listing a book and reading it back loses nothing. */
  lemma ListingRoundTrip(b: Book)
    ensures EntriesBook(Listing(b)) == b
  {
    ListingLists(b);
    SortedEntriesAreListed(Listing(b));
    ListsOneBook(Listing(b), EntriesBook(Listing(b)), b);
  }

  // ---------------------------------------------------------------- summaries

  datatype Summary = Summary(total: Metrics, byStage: seq<Entry>, byProvider: seq<Entry>)

  const EmptySummary: Summary := Summary(Zero, [], [])

  ghost function Summarised(events: seq<Event>): Summary {
    Summary(Total(events), Listing(BookOf(events, ByStage)), Listing(BookOf(events, ByProvider)))
  }

  ghost function MergedSummary(l: Summary, r: Summary): Summary {
    Summary(
      Merged(l.total, r.total),
      Listing(EntriesBook(l.byStage + r.byStage)),
      Listing(EntriesBook(l.byProvider + r.byProvider)))
  }

  lemma {:induction false} TotalConcat(a: seq<Event>, b: seq<Event>)
    ensures Total(a + b) == Merged(Total(a), Total(b))
  {
    if b == [] {
      assert a + b == a;
      MergedCommutes(Total(a), Zero);
    } else {
      var rest, m := b[..|b| - 1], MetricsOf(b[|b| - 1]);
      assert (a + b)[..|a + b| - 1] == a + rest;
      TotalConcat(a, rest);
      MergedAssociative(Total(a), Total(rest), m);
    }
  }

  lemma MergeBreakdown(a: seq<Event>, b: seq<Event>, d: Dimension)
    ensures EntriesBook(Listing(BookOf(a, d)) + Listing(BookOf(b, d))) == BookOf(a + b, d)
  {
    EntriesBookConcat(Listing(BookOf(a, d)), Listing(BookOf(b, d)));
    ListingRoundTrip(BookOf(a, d));
    ListingRoundTrip(BookOf(b, d));
    BookOfConcat(a, b, d);
  }

  /** Merging two summaries is summarising all their events: totals, rows, labels and order. */
  lemma MergeOfSummaries(a: seq<Event>, b: seq<Event>)
    ensures MergedSummary(Summarised(a), Summarised(b)) == Summarised(a + b)
  {
    TotalConcat(a, b);
    MergeBreakdown(a, b, ByStage);
    MergeBreakdown(a, b, ByProvider);
  }

  lemma MergeListsAssociative(x: seq<Entry>, y: seq<Entry>, z: seq<Entry>)
    ensures EntriesBook(Listing(EntriesBook(x + y)) + z) == EntriesBook(x + Listing(EntriesBook(y + z)))
  {
    EntriesBookConcat(Listing(EntriesBook(x + y)), z);
    EntriesBookConcat(x, Listing(EntriesBook(y + z)));
    ListingRoundTrip(EntriesBook(x + y));
    ListingRoundTrip(EntriesBook(y + z));
    EntriesBookConcat(x, y);
    EntriesBookConcat(y, z);
    CollateAssociative(EntriesBook(x), EntriesBook(y), EntriesBook(z));
  }

  /** Merging is associative on all summaries, sorted or not. */
  lemma MergeAssociative(a: Summary, b: Summary, c: Summary)
    ensures MergedSummary(MergedSummary(a, b), c) == MergedSummary(a, MergedSummary(b, c))
  {
    MergeListsAssociative(a.byStage, b.byStage, c.byStage);
    MergeListsAssociative(a.byProvider, b.byProvider, c.byProvider);
  }

  lemma RelistingIsIdentityIffSorted(s: seq<Entry>)
    ensures Listing(EntriesBook(s)) == s <==> SortedByKey(s)
  {
    ListingLists(EntriesBook(s));
    if SortedByKey(s) {
      SortedEntriesAreListed(s);
      ListingIs(EntriesBook(s), s);
    }
  }

  /** The empty summary is a unit, on either side, exactly for the summaries whose breakdowns are
      strictly sorted. */
  lemma EmptyIsUnitIffSorted(s: Summary)
    ensures MergedSummary(EmptySummary, s) == MergedSummary(s, EmptySummary)
    ensures MergedSummary(s, EmptySummary) == s <==> SortedByKey(s.byStage) && SortedByKey(s.byProvider)
  {
    assert [] + s.byStage == s.byStage && s.byStage + [] == s.byStage;
    assert [] + s.byProvider == s.byProvider && s.byProvider + [] == s.byProvider;
    MergedCommutes(s.total, Zero);
    RelistingIsIdentityIffSorted(s.byStage);
    RelistingIsIdentityIffSorted(s.byProvider);
    assert MergedSummary(s, EmptySummary) ==
      Summary(s.total, Listing(EntriesBook(s.byStage)), Listing(EntriesBook(s.byProvider)));
  }

  // ---------------------------------------------------------------- conservation

  function SumOf(entries: seq<Entry>): Metrics {
    if entries == [] then Zero else Merged(SumOf(entries[..|entries| - 1]), entries[|entries| - 1].metrics)
  }

  lemma {:induction false} SumOfConcat(x: seq<Entry>, y: seq<Entry>)
    ensures SumOf(x + y) == Merged(SumOf(x), SumOf(y))
  {
    if y == [] {
      assert x + y == x;
      MergedCommutes(SumOf(x), Zero);
    } else {
      var rest, m := y[..|y| - 1], y[|y| - 1].metrics;
      assert (x + y)[..|x + y| - 1] == x + rest;
      SumOfConcat(x, rest);
      MergedAssociative(SumOf(x), SumOf(rest), m);
    }
  }

  lemma SumOfOne(e: Entry)
    ensures SumOf([e]) == e.metrics
  {
    assert SumOf([e][..0]) == Zero;
  }

  /** Splitting a listing around one position. */
  lemma SumAround(s: seq<Entry>, i: nat, e: Entry)
    requires i <= |s|
    ensures SumOf(s[..i] + [e] + s[i..]) == Merged(SumOf(s), e.metrics)
  {
    assert s == s[..i] + s[i..];
    var p, q := SumOf(s[..i]), SumOf(s[i..]);
    SumOfConcat(s[..i], s[i..]);
    SumOfConcat(s[..i] + [e], s[i..]);
    SumOfConcat(s[..i], [e]);
    SumOfOne(e);
    MergedAssociative(p, e.metrics, q);
    MergedCommutes(e.metrics, q);
    MergedAssociative(p, q, e.metrics);
  }

  /** Changing the line of one key changes one entry of the listing. */
  lemma UpdateLists(s: seq<Entry>, b: Book, i: nat, e: Entry)
    requires Lists(s, b) && i < |s| && e.key == s[i].key
    ensures Lists(s[i := e], b[e.key := Line(e.caption, e.metrics)])
  {
    var t := s[i := e];
    var c := b[e.key := Line(e.caption, e.metrics)];
    forall j | 0 <= j < |s| && j != i ensures s[j].key != e.key {
      Sequences.LessIsTotal(s[j].key, s[i].key);
      assert j < i ==> Sequences.Less(s[j].key, s[i].key);
    }
    forall k | k in c ensures HasKey(t, k) {
      assert HasKey(s, k);
      var j :| 0 <= j < |s| && s[j].key == k;
      assert t[j].key == k;
    }
  }

  lemma PostListing(b: Book, key: string, caption: string, m: Metrics)
    ensures SumOf(Listing(Post(b, key, caption, m))) == Merged(SumOf(Listing(b)), m)
  {
    var s := Listing(b);
    var c := Post(b, key, caption, m);
    ListingLists(b);
    if key in b {
      assert HasKey(s, key);
      var i :| 0 <= i < |s| && s[i].key == key;
      var e := Entry(key, b[key].caption, Merged(b[key].metrics, m));
      UpdateLists(s, b, i, e);
      ListingIs(c, s[i := e]);
      SumReplaced(s, i, e, m);
    } else {
      var e := Entry(key, caption, m);
      var i := InsertionPoint(s, key);
      if i < |s| {
        Sequences.LessIsTotal(key, s[i].key);
        assert s[i].key in b;
      }
      InsertLists(s, b, e, i);
      ListingIs(c, s[..i] + [e] + s[i..]);
      SumAround(s, i, e);
    }
  }

  lemma SumReplaced(s: seq<Entry>, i: nat, e: Entry, m: Metrics)
    requires i < |s| && e.metrics == Merged(s[i].metrics, m)
    ensures SumOf(s[i := e]) == Merged(SumOf(s), m)
  {
    var rest := s[..i] + s[i + 1..];
    assert rest[..i] + [s[i]] + rest[i..] == s;
    assert rest[..i] + [e] + rest[i..] == s[i := e];
    SumAround(rest, i, s[i]);
    SumAround(rest, i, e);
  }

  lemma {:induction false} RowsAddUp(events: seq<Event>, d: Dimension)
    ensures SumOf(Listing(BookOf(events, d))) == Total(events)
  {
    if events != [] {
      var e := events[|events| - 1];
      RowsAddUp(events[..|events| - 1], d);
      PostListing(BookOf(events[..|events| - 1], d), KeyOf(e, d), LabelOf(e, d), MetricsOf(e));
    }
  }

  lemma {:induction false} TotalCounts(events: seq<Event>)
    ensures var t := Total(events);
      t.events == |events| && t.events == t.succeeded + t.failed
      && t.events == t.reported + t.estimated + t.unavailable
  {
    if events != [] {
      TotalCounts(events[..|events| - 1]);
    }
  }

  /** How a summary may come about: from events, or by merging two others. */
  datatype Origin = Recorded(events: seq<Event>) | Joined(left: Origin, right: Origin)

  ghost function Outcome(o: Origin): Summary {
    match o
    case Recorded(events) => Summarised(events)
    case Joined(l, r) => MergedSummary(Outcome(l), Outcome(r))
  }

  function EventsOf(o: Origin): seq<Event> {
    match o
    case Recorded(events) => events
    case Joined(l, r) => EventsOf(l) + EventsOf(r)
  }

  lemma JoinedIsSummary(left: Summary, right: Summary, a: seq<Event>, b: seq<Event>)
    requires left == Summarised(a) && right == Summarised(b)
    ensures MergedSummary(left, right) == Summarised(a + b)
  {
    MergeOfSummaries(a, b);
  }

  lemma {:induction false} OutcomeIsSummary(o: Origin)
    ensures Outcome(o) == Summarised(EventsOf(o))
  {
    match o
    case Recorded(_) =>
    case Joined(l, r) =>
      OutcomeIsSummary(l);
      OutcomeIsSummary(r);
      JoinedIsSummary(Outcome(l), Outcome(r), EventsOf(l), EventsOf(r));
  }

  /** However a summary was put together, in all twelve fields the total is the sum of the stage rows
      and of the provider rows, the event counts agree, and both breakdowns are strictly sorted. */
  lemma SummariesBalance(o: Origin)
    ensures var s := Outcome(o);
      && s.total == SumOf(s.byStage) == SumOf(s.byProvider)
      && s.total.events == s.total.succeeded + s.total.failed
      && s.total.events == s.total.reported + s.total.estimated + s.total.unavailable
      && SortedByKey(s.byStage) && SortedByKey(s.byProvider)
  {
    OutcomeIsSummary(o);
    RowsAddUp(EventsOf(o), ByStage);
    RowsAddUp(EventsOf(o), ByProvider);
    ListingLists(BookOf(EventsOf(o), ByStage));
    ListingLists(BookOf(EventsOf(o), ByProvider));
    TotalCounts(EventsOf(o));
  }

  // ---------------------------------------------------------------- what the fields count

  /** The sum of an amount over the events, a negative one counting as nothing. */
  function Sum(events: seq<Event>, amount: Event -> int): nat {
    if events == [] then 0 else
      var last := amount(events[|events| - 1]);
      Sum(events[..|events| - 1], amount) + if last > 0 then last else 0
  }

  /** The metrics tell of these events: how many there are, how many with and without success, how many of
      each source, and the sum of each amount. */
  ghost predicate Tells(m: Metrics, events: seq<Event>) {
    && m.events == |events|
    && m.succeeded == Sequences.CountWhere(events, (e: Event) => e.success)
    && m.failed == Sequences.CountWhere(events, (e: Event) => !e.success)
    && m.reported == Sequences.CountWhere(events, (e: Event) => e.usage.source == ProviderReported)
    && m.estimated == Sequences.CountWhere(events, (e: Event) => e.usage.source == Estimated)
    && m.unavailable == Sequences.CountWhere(events, (e: Event) => e.usage.source == Unavailable)
    && m.requests == Sum(events, (e: Event) => e.usage.requestCount)
    && m.images == Sum(events, (e: Event) => e.usage.imageCount)
    && m.inputTokens == Sum(events, (e: Event) => e.usage.inputTokens)
    && m.outputTokens == Sum(events, (e: Event) => e.usage.outputTokens)
    && m.totalTokens == Sum(events, (e: Event) => e.usage.totalTokens)
    && m.latencyMs == Sum(events, (e: Event) => e.usage.latencyMs)
  }

  lemma {:induction false} TotalTells(events: seq<Event>)
    ensures Tells(Total(events), events)
  {
    if events != [] {
      TotalTells(events[..|events| - 1]);
    }
  }

  lemma {:induction false} SelectedIsWhere(events: seq<Event>, d: Dimension, key: string, keep: Event -> bool)
    requires forall e :: keep(e) <==> KeyOf(e, d) == key
    ensures Selected(events, d, key) == Sequences.Where(events, keep)
  {
    if events != [] {
      SelectedIsWhere(events[..|events| - 1], d, key, keep);
    }
  }

  /** A row of a breakdown: its events are there, it is labelled by the first of them and tells of them all. */
  ghost predicate RowTells(row: Entry, own: seq<Event>, caption: Event -> string) {
    own != [] && row.caption == caption(own[0]) && Tells(row.metrics, own)
  }

  lemma ListedRow(events: seq<Event>, d: Dimension, i: nat)
    requires i < |Listing(BookOf(events, d))|
    ensures var row := Listing(BookOf(events, d))[i];
      RowTells(row, Selected(events, d, row.key), e => LabelOf(e, d))
  {
    ListingLists(BookOf(events, d));
    var row := Listing(BookOf(events, d))[i];
    RowMeaning(events, d, row.key);
    TotalTells(Selected(events, d, row.key));
  }

  lemma {:induction false} ListedKeys(events: seq<Event>, d: Dimension, e: Event)
    requires e in events
    ensures HasKey(Listing(BookOf(events, d)), KeyOf(e, d))
  {
    ListingLists(BookOf(events, d));
    RowMeaning(events, d, KeyOf(e, d));
    OwnIsSelected(events, d, e);
  }

  lemma {:induction false} OwnIsSelected(events: seq<Event>, d: Dimension, e: Event)
    requires e in events
    ensures e in Selected(events, d, KeyOf(e, d))
  {
    var n := |events| - 1;
    assert events == events[..n] + [events[n]];
    if e in events[..n] {
      OwnIsSelected(events[..n], d, e);
    }
  }

  /** However a summary was put together, its total tells of all its events; each stage row tells of the events
      of that stage, under the label of the first of them, or the name of the stage if that label is empty;
      and every stage has a row. */
  lemma SummaryTellsOfStages(o: Origin)
    ensures var s, events := Outcome(o), EventsOf(o);
      && Tells(s.total, events)
      && (forall i :: 0 <= i < |s.byStage| ==>
            RowTells(s.byStage[i], Sequences.Where(events, (e: Event) => e.stageName == s.byStage[i].key),
                     (e: Event) => if e.stageLabel == "" then e.stageName else e.stageLabel))
      && (forall e :: e in events ==> HasKey(s.byStage, e.stageName))
  {
    var s, events := Outcome(o), EventsOf(o);
    OutcomeIsSummary(o);
    TotalTells(events);
    forall i | 0 <= i < |s.byStage|
      ensures RowTells(s.byStage[i], Sequences.Where(events, (e: Event) => e.stageName == s.byStage[i].key),
                       (e: Event) => if e.stageLabel == "" then e.stageName else e.stageLabel)
    {
      ListedRow(events, ByStage, i);
      SelectedIsWhere(events, ByStage, s.byStage[i].key, (e: Event) => e.stageName == s.byStage[i].key);
    }
    forall e | e in events ensures HasKey(s.byStage, e.stageName) {
      ListedKeys(events, ByStage, e);
    }
  }

  /** The three names of a provider, joined. */
  function Joined3(e: Event, separator: string, model: string): string {
    e.providerType + separator + e.providerName + separator + model
  }

  /** The same for the provider rows: one for each joined type, name and model of an event. */
  lemma SummaryTellsOfProviders(o: Origin)
    ensures var s, events := Outcome(o), EventsOf(o);
      && (forall i :: 0 <= i < |s.byProvider| ==>
            RowTells(s.byProvider[i], Sequences.Where(events, (e: Event) => Joined3(e, ":", e.modelId) == s.byProvider[i].key),
                     (e: Event) => Joined3(e, "/", if e.modelId == "" then "-" else e.modelId)))
      && (forall e :: e in events ==> HasKey(s.byProvider, Joined3(e, ":", e.modelId)))
  {
    var s, events := Outcome(o), EventsOf(o);
    OutcomeIsSummary(o);
    forall i | 0 <= i < |s.byProvider|
      ensures RowTells(s.byProvider[i], Sequences.Where(events, (e: Event) => Joined3(e, ":", e.modelId) == s.byProvider[i].key),
                       (e: Event) => Joined3(e, "/", if e.modelId == "" then "-" else e.modelId))
    {
      ListedRow(events, ByProvider, i);
      SelectedIsWhere(events, ByProvider, s.byProvider[i].key, (e: Event) => Joined3(e, ":", e.modelId) == s.byProvider[i].key);
    }
    forall e | e in events ensures HasKey(s.byProvider, Joined3(e, ":", e.modelId)) {
      ListedKeys(events, ByProvider, e);
    }
  }

  ghost predicate SameProvider(e: Event, f: Event) {
    e.providerType == f.providerType && e.providerName == f.providerName && e.modelId == f.modelId
  }

  lemma JoinedParts(e: Event)
    ensures Joined3(e, ":", e.modelId) == e.providerType + [':'] + (e.providerName + [':'] + e.modelId)
  {
  }

  function Colons(s: string): nat {
    if s == [] then 0 else
      var before := Colons(s[..|s| - 1]);
      if s[|s| - 1] == ':' then before + 1 else before
  }

  lemma {:induction false} ColonsOfConcat(a: string, b: string)
    ensures Colons(a + b) == Colons(a) + Colons(b)
  {
    if b == [] {
      assert a + b == a;
    } else {
      assert (a + b)[..|a + b| - 1] == a + b[..|b| - 1];
      ColonsOfConcat(a, b[..|b| - 1]);
    }
  }

  lemma {:induction false} NoColons(s: string)
    ensures Colons(s) == 0 <==> ':' !in s
  {
    if s != [] {
      NoColons(s[..|s| - 1]);
      assert s == s[..|s| - 1] + [s[|s| - 1]];
    }
  }

  lemma JoinedColons(e: Event)
    ensures Colons(Joined3(e, ":", e.modelId)) == Colons(e.providerType) + Colons(e.providerName) + Colons(e.modelId) + 2
  {
    JoinedParts(e);
    ColonsOfConcat(e.providerType + [':'], e.providerName + [':'] + e.modelId);
    ColonsOfConcat(e.providerType, [':']);
    ColonsOfConcat(e.providerName + [':'], e.modelId);
    ColonsOfConcat(e.providerName, [':']);
    assert Colons([':'][..0]) == 0;
  }

  ghost predicate NamesHaveNoColon(e: Event) {
    ':' !in e.providerType && ':' !in e.providerName && ':' !in e.modelId
  }

  lemma ColonlessKeyDecides(e: Event, f: Event)
    requires NamesHaveNoColon(e) && Joined3(e, ":", e.modelId) == Joined3(f, ":", f.modelId)
    ensures SameProvider(e, f)
  {
    JoinedColons(e);
    JoinedColons(f);
    NoColons(e.providerType);
    NoColons(e.providerName);
    NoColons(e.modelId);
    NoColons(f.providerType);
    NoColons(f.providerName);
    JoinedParts(e);
    JoinedParts(f);
    Sequences.SeparatorSplits(
      e.providerType, e.providerName + [':'] + e.modelId, f.providerType, f.providerName + [':'] + f.modelId, ':');
    Sequences.SeparatorSplits(e.providerName, e.modelId, f.providerName, f.modelId, ':');
  }

  lemma SplitAtColon(s: string) returns (i: nat)
    requires ':' in s
    ensures i < |s| && s == s[..i] + ":" + s[i + 1..]
  {
    i :| i < |s| && s[i] == ':';
  }

  lemma ColonInType(e: Event) returns (f: Event)
    requires ':' in e.providerType
    ensures Joined3(e, ":", e.modelId) == Joined3(f, ":", f.modelId) && !SameProvider(e, f)
  {
    var i := SplitAtColon(e.providerType);
    f := e.(providerType := e.providerType[..i], providerName := e.providerType[i + 1..], modelId := e.providerName + ":" + e.modelId);
    assert |f.providerType| < |e.providerType|;
  }

  lemma ColonInName(e: Event) returns (f: Event)
    requires ':' in e.providerName
    ensures Joined3(e, ":", e.modelId) == Joined3(f, ":", f.modelId) && !SameProvider(e, f)
  {
    var i := SplitAtColon(e.providerName);
    f := e.(providerName := e.providerName[..i], modelId := e.providerName[i + 1..] + ":" + e.modelId);
    assert |f.providerName| < |e.providerName|;
  }

  lemma ColonInModel(e: Event) returns (f: Event)
    requires ':' in e.modelId
    ensures Joined3(e, ":", e.modelId) == Joined3(f, ":", f.modelId) && !SameProvider(e, f)
  {
    var i := SplitAtColon(e.modelId);
    f := e.(providerName := e.providerName + ":" + e.modelId[..i], modelId := e.modelId[i + 1..]);
    assert |f.providerName| > |e.providerName|;
  }

  /** Another provider with the same key, when a name has a colon. */
  lemma ColonMovesTheBoundary(e: Event) returns (f: Event)
    requires !NamesHaveNoColon(e)
    ensures Joined3(e, ":", e.modelId) == Joined3(f, ":", f.modelId) && !SameProvider(e, f)
  {
    if ':' in e.providerType {
      f := ColonInType(e);
    } else if ':' in e.providerName {
      f := ColonInName(e);
    } else {
      f := ColonInModel(e);
    }
  }

  /** The row of an event is one of its own provider alone, whatever other events there are, exactly when none of
      its three names has a colon. */
  lemma RowIsUnsharedIff(e: Event)
    ensures (forall f: Event :: Joined3(f, ":", f.modelId) == Joined3(e, ":", e.modelId) ==> SameProvider(e, f))
      <==> NamesHaveNoColon(e)
  {
    if NamesHaveNoColon(e) {
      forall f: Event | Joined3(f, ":", f.modelId) == Joined3(e, ":", e.modelId) ensures SameProvider(e, f) {
        ColonlessKeyDecides(e, f);
      }
    } else {
      var f := ColonMovesTheBoundary(e);
    }
  }

  /** With a colon in a name they can share one although they differ. */
  lemma ProvidersCanShareRow(usage: Usage)
    ensures var e := Event("plan", "", "text", "a", "b:c", true, usage);
      var f := Event("plan", "", "text", "a:b", "c", true, usage);
      Joined3(e, ":", e.modelId) == Joined3(f, ":", f.modelId) && e.providerName != f.providerName
  {
    assert "text" + ":" + "a" + ":" + "b:c" == "text" + ":" + "a:b" + ":" + "c";
  }

  // ---------------------------------------------------------------- the dictionary loops

  /** `UsageBreakdownItem`: the loops below update its metrics in place. */
  class BreakdownItem {
    const key: string
    const caption: string
    var metrics: Metrics

    constructor (key: string, caption: string, metrics: Metrics)
      ensures View() == Entry(key, caption, metrics)
    {
      this.key, this.caption, this.metrics := key, caption, metrics;
    }

    ghost function View(): Entry
      reads this
    {
      Entry(key, caption, metrics)
    }
  }

  /** `UsageSummary`, whose lists hold references to items. */
  datatype UsageSummary =
    UsageSummary(total: Metrics, byStage: seq<BreakdownItem>, byProvider: seq<BreakdownItem>)
  {
    ghost function View(): Summary
      reads byStage, byProvider
    {
      Summary(total, Views(byStage), Views(byProvider))
    }

    ghost function Items(): set<BreakdownItem> {
      (set x | x in byStage) + (set x | x in byProvider)
    }
  }

  ghost function Views(items: seq<BreakdownItem>): seq<Entry>
    reads items
  {
    seq(|items|, i requires 0 <= i < |items| reads items => items[i].View())
  }

  type Dictionary = map<string, BreakdownItem>

  /** The items stored in the dictionary are the lines of the book. */
  ghost predicate Represents(items: Dictionary, b: Book)
    reads items.Values
  {
    && items.Keys == b.Keys
    && forall k :: k in items ==> items[k].key == k && b[k] == Line(items[k].caption, items[k].metrics)
  }

  /** `setdefault` with a zero item, then adding to its metrics. */
  method PostTo(items: Dictionary, key: string, caption: string, m: Metrics, ghost b: Book) returns (r: Dictionary)
    requires Represents(items, b)
    modifies items.Values
    ensures Represents(r, Post(b, key, caption, m))
    ensures forall x :: x in r.Values ==> x in items.Values || fresh(x)
  {
    r := items;
    if key !in r {
      var zeroItem := new BreakdownItem(key, caption, Zero);
      r := r[key := zeroItem];
    }
    var item := r[key];
    MergedCommutes(m, Zero);
    assert forall k :: k in r && k != key ==> r[k] != item;
    item.metrics := Merged(item.metrics, m);
  }

  /** One item of a summary being merged: a deep copy under a new key, else added to the item there. */
  method MergeInto(items: Dictionary, item: BreakdownItem, ghost b: Book) returns (r: Dictionary)
    requires Represents(items, b) && item !in items.Values
    modifies items.Values
    ensures Represents(r, Post(b, item.key, item.caption, item.metrics))
    ensures forall x :: x in r.Values ==> x in items.Values || fresh(x)
  {
    r := items;
    if item.key !in r {
      var copy := new BreakdownItem(item.key, item.caption, item.metrics);
      r := r[item.key := copy];
      return;
    }
    var current := r[item.key];
    assert forall k :: k in r && k != item.key ==> r[k] != current;
    current.metrics := Merged(current.metrics, item.metrics);
  }

  method InsertInOrder(sorted: seq<BreakdownItem>, item: BreakdownItem, ghost b: Book) returns (r: seq<BreakdownItem>)
    requires Lists(Views(sorted), b) && item.key !in b
    ensures Lists(Views(r), b[item.key := Line(item.caption, item.metrics)])
    ensures forall x :: x in r ==> x in sorted || x == item
  {
    var i := 0;
    while i < |sorted| && Sequences.Less(sorted[i].key, item.key)
      invariant i <= |sorted|
      invariant forall j :: 0 <= j < i ==> Sequences.Less(sorted[j].key, item.key)
    {
      i := i + 1;
    }
    if i < |sorted| {
      assert Views(sorted)[i].key in b;
      Sequences.LessIsTotal(sorted[i].key, item.key);
    }
    InsertLists(Views(sorted), b, item.View(), i);
    r := sorted[..i] + [item] + sorted[i..];
    assert Views(r) == Views(sorted)[..i] + [item.View()] + Views(sorted)[i..];
  }

  /** `sorted(items.values(), key=...)`: the dictionary is read in any order. */
  method SortedByKeyOf(items: Dictionary, ghost b: Book) returns (r: seq<BreakdownItem>)
    requires Represents(items, b)
    ensures Views(r) == Listing(b)
    ensures forall x :: x in r ==> x in items.Values
  {
    r := [];
    var rest := items.Keys;
    ghost var taken: Book := map[];
    while rest != {}
      invariant rest <= items.Keys
      invariant taken == map k | k in items.Keys - rest :: b[k]
      invariant Lists(Views(r), taken)
      invariant forall x :: x in r ==> x in items.Values
      decreases |rest|
    {
      var k :| k in rest;
      r := InsertInOrder(r, items[k], taken);
      taken := taken[k := b[k]];
      rest := rest - {k};
    }
    assert taken == b;
    ListingIs(b, Views(r));
  }

  /** The two folds over the first `n` events, indexed as the loop is. */
  ghost function TotalUpTo(events: seq<Event>, n: nat): Metrics
    requires n <= |events|
  {
    if n == 0 then Zero else Merged(TotalUpTo(events, n - 1), MetricsOf(events[n - 1]))
  }

  ghost function BookUpTo(events: seq<Event>, n: nat, d: Dimension): Book
    requires n <= |events|
  {
    if n == 0 then map[] else
      var e := events[n - 1];
      Post(BookUpTo(events, n - 1, d), KeyOf(e, d), LabelOf(e, d), MetricsOf(e))
  }

  lemma {:induction false} UpToIsPrefix(events: seq<Event>, n: nat, d: Dimension)
    requires n <= |events|
    ensures TotalUpTo(events, n) == Total(events[..n]) && BookUpTo(events, n, d) == BookOf(events[..n], d)
  {
    if n > 0 {
      assert events[..n][..n - 1] == events[..n - 1];
      UpToIsPrefix(events, n - 1, d);
    }
  }

  lemma UpToIsAll(events: seq<Event>, d: Dimension)
    ensures TotalUpTo(events, |events|) == Total(events) && BookUpTo(events, |events|, d) == BookOf(events, d)
  {
    UpToIsPrefix(events, |events|, d);
    assert events[..|events|] == events;
  }

  method AddToTotal(total: Metrics, events: seq<Event>, i: nat) returns (t: Metrics, m: Metrics)
    requires i < |events| && total == TotalUpTo(events, i)
    ensures m == MetricsOf(events[i]) && t == TotalUpTo(events, i + 1)
  {
    m := MetricsOf(events[i]);
    t := Merged(total, m);
  }

  method AddToBook(items: Dictionary, events: seq<Event>, i: nat, m: Metrics, d: Dimension) returns (r: Dictionary)
    requires i < |events| && m == MetricsOf(events[i]) && Represents(items, BookUpTo(events, i, d))
    modifies items.Values
    ensures Represents(r, BookUpTo(events, i + 1, d))
    ensures forall x :: x in r.Values ==> x in items.Values || fresh(x)
  {
    var e := events[i];
    r := PostTo(items, KeyOf(e, d), LabelOf(e, d), m, BookUpTo(events, i, d));
  }

  /** The loop body of `summarize_usage_events`. */
  method AddEvent(total: Metrics, byStage: Dictionary, byProvider: Dictionary, events: seq<Event>, i: nat)
    returns (t: Metrics, stages: Dictionary, providers: Dictionary)
    requires i < |events| && total == TotalUpTo(events, i) && byStage.Values !! byProvider.Values
    requires Represents(byStage, BookUpTo(events, i, ByStage))
    requires Represents(byProvider, BookUpTo(events, i, ByProvider))
    modifies byStage.Values, byProvider.Values
    ensures t == TotalUpTo(events, i + 1) && stages.Values !! providers.Values
    ensures Represents(stages, BookUpTo(events, i + 1, ByStage))
    ensures Represents(providers, BookUpTo(events, i + 1, ByProvider))
    ensures forall x :: x in stages.Values ==> x in byStage.Values || fresh(x)
    ensures forall x :: x in providers.Values ==> x in byProvider.Values || fresh(x)
  {
    var m;
    t, m := AddToTotal(total, events, i);
    stages := AddToBook(byStage, events, i, m, ByStage);
    providers := AddToBook(byProvider, events, i, m, ByProvider);
  }

  method FoldEvents(events: seq<Event>) returns (total: Metrics, byStage: Dictionary, byProvider: Dictionary)
    ensures total == TotalUpTo(events, |events|)
    ensures Represents(byStage, BookUpTo(events, |events|, ByStage))
    ensures Represents(byProvider, BookUpTo(events, |events|, ByProvider))
    ensures fresh(byStage.Values) && fresh(byProvider.Values)
  {
    total, byStage, byProvider := Zero, map[], map[];
    for i := 0 to |events|
      invariant total == TotalUpTo(events, i)
      invariant byStage.Values !! byProvider.Values
      invariant forall x :: x in byStage.Values ==> fresh(x)
      invariant forall x :: x in byProvider.Values ==> fresh(x)
      invariant Represents(byStage, BookUpTo(events, i, ByStage))
      invariant Represents(byProvider, BookUpTo(events, i, ByProvider))
    {
      total, byStage, byProvider := AddEvent(total, byStage, byProvider, events, i);
    }
  }

  method SummarizeUsageEvents(events: seq<Event>) returns (summary: UsageSummary)
    ensures summary.View() == Summarised(events)
    ensures fresh(summary.Items())
  {
    UpToIsAll(events, ByStage);
    UpToIsAll(events, ByProvider);
    var total, byStage, byProvider := FoldEvents(events);
    var stages := SortedByKeyOf(byStage, BookOf(events, ByStage));
    var providers := SortedByKeyOf(byProvider, BookOf(events, ByProvider));
    summary := UsageSummary(total, stages, providers);
  }

  /** A book after the first `n` of some further entries. */
  ghost function PostUpTo(b: Book, entries: seq<Entry>, n: nat): Book
    requires n <= |entries|
  {
    if n == 0 then b else
      var e := entries[n - 1];
      Post(PostUpTo(b, entries, n - 1), e.key, e.caption, e.metrics)
  }

  lemma {:induction false} PostUpToIsConcat(x: seq<Entry>, y: seq<Entry>, n: nat)
    requires n <= |y|
    ensures PostUpTo(EntriesBook(x), y, n) == EntriesBook(x + y[..n])
  {
    if n == 0 {
      assert x + y[..0] == x;
    } else {
      assert (x + y[..n])[..|x| + n - 1] == x + y[..n - 1];
      PostUpToIsConcat(x, y, n - 1);
    }
  }

  /** One pass of the merge: the items of one breakdown of one summary. */
  method MergePass(items: Dictionary, list: seq<BreakdownItem>, ghost b: Book, ghost entries: seq<Entry>)
    returns (r: Dictionary)
    requires Represents(items, b) && entries == Views(list)
    requires forall x :: x in list ==> x !in items.Values
    modifies items.Values
    ensures Represents(r, PostUpTo(b, entries, |entries|))
    ensures forall x :: x in r.Values ==> x in items.Values || fresh(x)
  {
    assert forall j :: 0 <= j < |list| ==> list[j].View() == entries[j];
    r := items;
    for i := 0 to |list|
      invariant forall x :: x in r.Values ==> x in items.Values || fresh(x)
      invariant Represents(r, PostUpTo(b, entries, i))
      invariant forall j :: 0 <= j < |list| ==> list[j].View() == entries[j]
    {
      r := MergeInto(r, list[i], PostUpTo(b, entries, i));
    }
  }

  method MergeBreakdowns(left: seq<BreakdownItem>, right: seq<BreakdownItem>, ghost x: seq<Entry>, ghost y: seq<Entry>)
    returns (r: seq<BreakdownItem>)
    requires x == Views(left) && y == Views(right)
    ensures Views(r) == Listing(EntriesBook(x + y))
    ensures forall item :: item in r ==> fresh(item)
  {
    PostUpToIsConcat([], x, |x|);
    PostUpToIsConcat(x, y, |y|);
    assert [] + x[..|x|] == x && y[..|y|] == y;
    var items := MergePass(map[], left, map[], x);
    items := MergePass(items, right, EntriesBook(x), y);
    r := SortedByKeyOf(items, EntriesBook(x + y));
  }

  /** Merging writes to no item of its inputs and returns none of them. */
  method MergeUsageSummaries(left: UsageSummary, right: UsageSummary) returns (summary: UsageSummary)
    ensures summary.View() == MergedSummary(left.View(), right.View())
    ensures fresh(summary.Items())
  {
    var stages := MergeBreakdowns(left.byStage, right.byStage, Views(left.byStage), Views(right.byStage));
    var providers :=
      MergeBreakdowns(left.byProvider, right.byProvider, Views(left.byProvider), Views(right.byProvider));
    summary := UsageSummary(Merged(left.total, right.total), stages, providers);
  }
}
