/**
 The metrics registry: label escaping in the text exposition format, and the request counters.
 */
module MetricsText {
  import opened Sequences

  // ---------------------------------------------------------------- escaping

  /** Python's `s.replace(c, text)` for a single character `c`. */
  function Replace(s: string, c: char, text: string): string {
    if s == [] then [] else (if s[0] == c then text else [s[0]]) + Replace(s[1..], c, text)
  }

  const Backslash: char := '\\'
  const Quote: char := '"'
  const Newline: char := '\n'

  /** `_escape`: three replacements, one after the other. */
  function Escape(s: string): string {
    Replace(Replace(Replace(s, Backslash, [Backslash, Backslash]), Quote, [Backslash, Quote]), Newline, [Backslash, 'n'])
  }

  /** The escape of one character. */
  function EscapeChar(c: char): string {
    if c == Backslash then [Backslash, Backslash]
    else if c == Quote then [Backslash, Quote]
    else if c == Newline then [Backslash, 'n']
    else [c]
  }

  function EscapeEach(s: string): string {
    if s == [] then [] else EscapeChar(s[0]) + EscapeEach(s[1..])
  }

  lemma {:induction false} ReplaceConcat(s: string, t: string, c: char, text: string)
    ensures Replace(s + t, c, text) == Replace(s, c, text) + Replace(t, c, text)
  {
    if s == [] {
      assert s + t == t;
    } else {
      assert (s + t)[1..] == s[1..] + t;
      ReplaceConcat(s[1..], t, c, text);
    }
  }

  lemma ReplaceOne(c: char, d: char, text: string)
    ensures Replace([d], c, text) == if d == c then text else [d]
  {
    assert [d][1..] == [];
  }

  lemma ReplaceTwo(a: char, b: char, c: char, text: string)
    requires a != c
    ensures Replace([a, b], c, text) == [a] + if b == c then text else [b]
  {
    ReplaceOne(c, b, text);
    assert [a, b][1..] == [b];
  }

  /** The second and third replacements leave the backslashes of the ones before alone. */
  lemma EscapeOne(c: char)
    ensures Escape([c]) == EscapeChar(c)
  {
    ReplaceOne(Backslash, c, [Backslash, Backslash]);
    ReplaceOne(Quote, c, [Backslash, Quote]);
    ReplaceOne(Newline, c, [Backslash, 'n']);
    ReplaceTwo(Backslash, Backslash, Quote, [Backslash, Quote]);
    ReplaceTwo(Backslash, Backslash, Newline, [Backslash, 'n']);
    ReplaceTwo(Backslash, Quote, Newline, [Backslash, 'n']);
  }

  lemma EscapeConcat(s: string, t: string)
    ensures Escape(s + t) == Escape(s) + Escape(t)
  {
    ReplaceConcat(s, t, Backslash, [Backslash, Backslash]);
    var a, b := Replace(s, Backslash, [Backslash, Backslash]), Replace(t, Backslash, [Backslash, Backslash]);
    ReplaceConcat(a, b, Quote, [Backslash, Quote]);
    ReplaceConcat(Replace(a, Quote, [Backslash, Quote]), Replace(b, Quote, [Backslash, Quote]), Newline, [Backslash, 'n']);
  }

  /** The three passes amount to one escape of each character. */
  lemma {:induction false} EscapeIsCharacterwise(s: string)
    ensures Escape(s) == EscapeEach(s)
  {
    if s != [] {
      assert s == [s[0]] + s[1..];
      EscapeConcat([s[0]], s[1..]);
      EscapeOne(s[0]);
      EscapeIsCharacterwise(s[1..]);
    }
  }

  /** The character that a backslash and `c` stand for. */
  function Meaning(c: char): Option<char> {
    if c == Backslash then Some(Backslash)
    else if c == Quote then Some(Quote)
    else if c == 'n' then Some(Newline)
    else None
  }

  /** Reads a label value up to its closing quote: the value and what follows the quote. There is none
      when a raw newline, an unknown escape or the end of the text comes first. */
  function ReadValue(t: string): Option<(string, string)> {
    if t == [] || t[0] == Newline then None
    else if t[0] == Quote then Some(([], t[1..]))
    else if t[0] == Backslash then
      if |t| < 2 || Meaning(t[1]).None? then None
      else
        var rest := ReadValue(t[2..]);
        if rest.None? then None else Some(([Meaning(t[1]).value] + rest.value.0, rest.value.1))
    else
      var rest := ReadValue(t[1..]);
      if rest.None? then None else Some(([t[0]] + rest.value.0, rest.value.1))
  }

  lemma ReadOne(c: char, t: string)
    ensures var rest := ReadValue(t);
      ReadValue(EscapeChar(c) + t) == if rest.None? then None else Some(([c] + rest.value.0, rest.value.1))
  {
    if |EscapeChar(c)| == 2 {
      assert (EscapeChar(c) + t)[2..] == t;
    } else {
      assert (EscapeChar(c) + t)[1..] == t;
    }
  }

  lemma Regroup(a: string, b: string, c: string, d: string)
    ensures a + b + c + d == a + (b + c + d)
  {
  }

  lemma {:induction false} ReadEscaped(s: string, rest: string)
    ensures ReadValue(EscapeEach(s) + [Quote] + rest) == Some((s, rest))
  {
    if s == [] {
      assert (EscapeEach(s) + [Quote] + rest)[1..] == rest;
    } else {
      ReadEscaped(s[1..], rest);
      assert s == [s[0]] + s[1..];
      ReadOne(s[0], EscapeEach(s[1..]) + [Quote] + rest);
      Regroup(EscapeChar(s[0]), EscapeEach(s[1..]), [Quote], rest);
    }
  }

  /** Whatever a label's value, reading the text after its opening quote gives back the value and exactly
      the text after its closing quote: no quote or newline of the value is taken for the format's own. */
  lemma ReadBack(s: string, rest: string)
    ensures ReadValue(Escape(s) + [Quote] + rest) == Some((s, rest))
  {
    EscapeIsCharacterwise(s);
    ReadEscaped(s, rest);
  }

  /** The only text that reads as a value is its escape. */
  lemma {:induction false} ReadIsEscape(t: string)
    requires ReadValue(t).Some?
    ensures t == EscapeEach(ReadValue(t).value.0) + [Quote] + ReadValue(t).value.1
    decreases |t|
  {
    if t[0] == Quote {
      assert t == [] + [Quote] + t[1..];
    } else if t[0] == Backslash {
      ReadIsEscape(t[2..]);
      ReadStep(t, EscapeChar(Meaning(t[1]).value), Meaning(t[1]).value, t[2..]);
    } else {
      ReadIsEscape(t[1..]);
      ReadStep(t, [t[0]], t[0], t[1..]);
    }
  }

  lemma ReadStep(t: string, head: string, c: char, tail: string)
    requires t == head + tail && head == EscapeChar(c) && ReadValue(tail).Some?
    requires tail == EscapeEach(ReadValue(tail).value.0) + [Quote] + ReadValue(tail).value.1
    ensures ReadValue(t).Some? && t == EscapeEach(ReadValue(t).value.0) + [Quote] + ReadValue(t).value.1
  {
    ReadOne(c, tail);
    var s := ReadValue(tail).value.0;
    assert ([c] + s)[1..] == s;
    assert EscapeEach([c] + s) == head + EscapeEach(s);
  }

  /** Undoes `_escape`; defined on escaped values only. */
  function Unescape(t: string): Option<string> {
    var r := ReadValue(t + [Quote]);
    if r.Some? && r.value.1 == [] then Some(r.value.0) else None
  }

  /** Unescaping recovers every string, and what it accepts is exactly the escaped strings. */
  lemma UnescapeIff(t: string, s: string)
    ensures Unescape(t) == Some(s) <==> t == Escape(s)
  {
    EscapeIsCharacterwise(s);
    if t == Escape(s) {
      ReadBack(s, []);
      assert Escape(s) + [Quote] + [] == t + [Quote];
    }
    if Unescape(t) == Some(s) {
      ReadIsEscape(t + [Quote]);
      assert t + [Quote] == EscapeEach(s) + [Quote] + [];
      assert (t + [Quote])[..|t|] == t;
      assert (EscapeEach(s) + [Quote] + [])[..|EscapeEach(s)|] == EscapeEach(s);
    }
  }

  /** Position `i` of the text is escaped: an odd number of backslashes stands before it. */
  predicate EscapedAt(t: string, i: nat)
    requires i <= |t|
  {
    i > 0 && t[i - 1] == Backslash && !EscapedAt(t, i - 1)
  }

  lemma {:induction false} EscapedAfterHead(c: char, t: string, i: nat)
    requires i <= |t|
    ensures EscapedAt(EscapeChar(c) + t, |EscapeChar(c)| + i) == EscapedAt(t, i)
  {
    var whole, k := EscapeChar(c) + t, |EscapeChar(c)|;
    if i == 0 {
      if k == 2 {
        assert whole[0] == Backslash && EscapedAt(whole, 1);
      }
    } else {
      EscapedAfterHead(c, t, i - 1);
      assert whole[k + i - 1] == t[i - 1];
    }
  }

  /** An escaped value holds no raw newline and no quote that is not escaped. */
  lemma {:induction false} EscapedIsClean(s: string, i: nat)
    requires i < |EscapeEach(s)|
    ensures EscapeEach(s)[i] != Newline
    ensures EscapeEach(s)[i] == Quote ==> EscapedAt(EscapeEach(s), i)
    ensures !EscapedAt(EscapeEach(s), |EscapeEach(s)|)
  {
    var head, rest := EscapeChar(s[0]), EscapeEach(s[1..]);
    assert EscapeEach(s) == head + rest;
    EscapedAfterHead(s[0], rest, |rest|);
    if rest != [] {
      EscapedIsClean(s[1..], if i < |head| then 0 else i - |head|);
    }
    if i >= |head| {
      EscapedAfterHead(s[0], rest, i - |head|);
    }
  }

  lemma NoRawNewlineOrQuote(s: string, i: nat)
    requires i < |Escape(s)|
    ensures Escape(s)[i] != Newline && (Escape(s)[i] == Quote ==> EscapedAt(Escape(s), i))
  {
    EscapeIsCharacterwise(s);
    EscapedIsClean(s, i);
  }

  // ---------------------------------------------------------------- label sets

  function Lead(name: string): string {
    name + "=" + [Quote]
  }

  /** `name="value"`, joined by commas: a label set without its braces. */
  function RenderLabels(names: seq<string>, values: seq<string>): string
    requires |names| == |values|
    decreases |names|, 1
  {
    if names == [] then [] else Lead(names[0]) + (Escape(values[0]) + [Quote] + RestOfLabels(names, values))
  }

  function RestOfLabels(names: seq<string>, values: seq<string>): string
    requires |names| == |values| > 0
    decreases |names|, 0
  {
    if |names| == 1 then [] else "," + RenderLabels(names[1..], values[1..])
  }

  /** Reads a label set whose names are known. */
  function ReadLabels(names: seq<string>, t: string): Option<seq<string>>
    decreases |names|, 1
  {
    if names == [] then (if t == [] then Some([]) else None)
    else if !(Lead(names[0]) <= t) then None
    else
      var r := ReadValue(t[|Lead(names[0])|..]);
      if r.None? then None else
      var rest := ReadRest(names, r.value.1);
      if rest.None? then None else Some([r.value.0] + rest.value)
  }

  function ReadRest(names: seq<string>, t: string): Option<seq<string>>
    requires names != []
    decreases |names|, 0
  {
    if |names| == 1 then (if t == [] then Some([]) else None)
    else if t == [] || t[0] != ',' then None
    else ReadLabels(names[1..], t[1..])
  }

  lemma DropLead(lead: string, t: string)
    ensures lead <= lead + t && (lead + t)[|lead|..] == t
  {
  }

  /** The label set of a sample determines its labels, whatever characters they hold. */
  lemma {:induction false} LabelsReadBack(names: seq<string>, values: seq<string>)
    requires |names| == |values|
    ensures ReadLabels(names, RenderLabels(names, values)) == Some(values)
    decreases |names|, 1
  {
    if names == [] {
      assert values == [];
    } else {
      var tail := RestOfLabels(names, values);
      DropLead(Lead(names[0]), Escape(values[0]) + [Quote] + tail);
      ReadBack(values[0], tail);
      RestReadsBack(names, values);
      assert values == [values[0]] + values[1..];
    }
  }

  lemma {:induction false} RestReadsBack(names: seq<string>, values: seq<string>)
    requires |names| == |values| > 0
    ensures ReadRest(names, RestOfLabels(names, values)) == Some(values[1..])
    decreases |names|, 0
  {
    if |names| == 1 {
      assert values[1..] == [];
    } else {
      LabelsReadBack(names[1..], values[1..]);
      DropLead(",", RenderLabels(names[1..], values[1..]));
    }
  }

  // ---------------------------------------------------------------- counters

  type RequestKey = (string, string, int)

  type DurationKey = (string, string)

  datatype Registry = Registry(
    requests: map<RequestKey, nat>, durationSum: map<DurationKey, real>, durationCount: map<DurationKey, nat>,
    rateLimited: map<string, nat>)

  const Empty := Registry(map[], map[], map[], map[])

  datatype Event =
    | Request(verb: string, path: string, status: int, duration: real)
    | RateLimited(rule: string)

  function Get<K>(m: map<K, nat>, k: K): nat {
    if k in m then m[k] else 0
  }

  /** `record_http_request` and `record_rate_limited`; upper-casing is a parameter. */
  function Recorded(upper: string -> string, r: Registry, e: Event): Registry {
    match e
    case Request(name, path, status, duration) =>
      var key, pair := (upper(name), path, status), (upper(name), path);
      r.(requests := r.requests[key := Get(r.requests, key) + 1],
         durationSum := r.durationSum[pair := (if pair in r.durationSum then r.durationSum[pair] else 0.0) + duration],
         durationCount := r.durationCount[pair := Get(r.durationCount, pair) + 1])
    case RateLimited(rule) => r.(rateLimited := r.rateLimited[rule := Get(r.rateLimited, rule) + 1])
  }

  function Run(upper: string -> string, events: seq<Event>): Registry {
    if events == [] then Empty else Recorded(upper, Run(upper, events[..|events| - 1]), events[|events| - 1])
  }

  /** The request counters of one method and path, summed over the statuses from `lo` up to `hi`. */
  function SumOver(requests: map<RequestKey, nat>, pair: DurationKey, lo: int, hi: int): nat
    decreases hi - lo
  {
    if lo >= hi then 0 else SumOver(requests, pair, lo, hi - 1) + Get(requests, (pair.0, pair.1, hi - 1))
  }

  lemma {:induction false} SumOverAfter(requests: map<RequestKey, nat>, key: RequestKey, pair: DurationKey, lo: int, hi: int)
    ensures var after := requests[key := Get(requests, key) + 1];
      SumOver(after, pair, lo, hi)
      == SumOver(requests, pair, lo, hi) + if (key.0, key.1) == pair && lo <= key.2 < hi then 1 else 0
    decreases hi - lo
  {
    if lo < hi {
      SumOverAfter(requests, key, pair, lo, hi - 1);
    }
  }

  lemma {:induction false} EmptySum(pair: DurationKey, lo: int, hi: int)
    ensures SumOver(map[], pair, lo, hi) == 0
    decreases hi - lo
  {
    if lo < hi {
      EmptySum(pair, lo, hi - 1);
    }
  }

  /** In every state each duration count is the sum of the request counters of its method and path, over
      any range that holds the statuses recorded. */
  lemma {:induction false} CountersBalance(upper: string -> string, events: seq<Event>, pair: DurationKey, lo: int, hi: int)
    requires forall i :: 0 <= i < |events| && events[i].Request? ==> lo <= events[i].status < hi
    ensures var r := Run(upper, events); Get(r.durationCount, pair) == SumOver(r.requests, pair, lo, hi)
  {
    if events == [] {
      EmptySum(pair, lo, hi);
    } else {
      var before, e := events[..|events| - 1], events[|events| - 1];
      CountersBalance(upper, before, pair, lo, hi);
      if e.Request? {
        SumOverAfter(Run(upper, before).requests, (upper(e.verb), e.path, e.status), pair, lo, hi);
      }
    }
  }

  /** The durations of the requests of one method and path, added up. */
  function DurationOf(upper: string -> string, events: seq<Event>, pair: DurationKey): real {
    if events == [] then 0.0 else
      var before, e := DurationOf(upper, events[..|events| - 1], pair), events[|events| - 1];
      if e.Request? && (upper(e.verb), e.path) == pair then before + e.duration else before
  }

  /** In every state each counter counts its own events: requests by method, path and status, durations by method
      and path, blocked requests by rule. A counter is there exactly when it is not zero. */
  lemma {:induction false} CountersMeaning(
    upper: string -> string, events: seq<Event>, key: RequestKey, pair: DurationKey, rule: string)
    ensures var r := Run(upper, events);
      && Get(r.requests, key) == CountWhere(events, (e: Event) => e.Request? && (upper(e.verb), e.path, e.status) == key)
      && Get(r.durationCount, pair) == CountWhere(events, (e: Event) => e.Request? && (upper(e.verb), e.path) == pair)
      && Get(r.rateLimited, rule) == CountWhere(events, (e: Event) => e.RateLimited? && e.rule == rule)
      && (if pair in r.durationSum then r.durationSum[pair] else 0.0) == DurationOf(upper, events, pair)
      && (key in r.requests <==> Get(r.requests, key) > 0)
      && (pair in r.durationCount <==> Get(r.durationCount, pair) > 0) && r.durationSum.Keys == r.durationCount.Keys
      && (rule in r.rateLimited <==> Get(r.rateLimited, rule) > 0)
  {
    if events != [] {
      CountersMeaning(upper, events[..|events| - 1], key, pair, rule);
    }
  }

  /** `MetricsRegistry`, without its start time. */
  class MetricsRegistry {
    const upper: string -> string
    var requests: map<RequestKey, nat>
    var durationSum: map<DurationKey, real>
    var durationCount: map<DurationKey, nat>
    var rateLimited: map<string, nat>

    constructor (upper: string -> string)
      ensures this.upper == upper && Current() == Empty
    {
      this.upper := upper;
      requests, durationSum, durationCount, rateLimited := map[], map[], map[], map[];
    }

    ghost function Current(): Registry
      reads this
    {
      Registry(requests, durationSum, durationCount, rateLimited)
    }

    method RecordHttpRequest(name: string, path: string, status: int, duration: real)
      modifies this
      ensures Current() == Recorded(upper, old(Current()), Request(name, path, status, duration))
    {
      var key, pair := (upper(name), path, status), (upper(name), path);
      requests := requests[key := Get(requests, key) + 1];
      if pair in durationSum {
        durationSum := durationSum[pair := durationSum[pair] + duration];
      } else {
        durationSum := durationSum[pair := 0.0 + duration];
      }
      durationCount := durationCount[pair := Get(durationCount, pair) + 1];
    }

    method RecordRateLimited(rule: string)
      modifies this
      ensures Current() == Recorded(upper, old(Current()), RateLimited(rule))
    {
      rateLimited := rateLimited[rule := Get(rateLimited, rule) + 1];
    }
  }
}
