/** Facts about finite sequences that several components share. */
module Sequences {

  datatype Option<+T> = None | Some(value: T)

  /** No element occurs twice. */
  ghost predicate NoDup<T>(s: seq<T>) {
    forall i, j :: 0 <= i < j < |s| ==> s[i] != s[j]
  }

  lemma NoDupSnoc<T>(s: seq<T>, x: T)
    requires NoDup(s + [x])
    ensures NoDup(s) && x !in s
  {
    var t := s + [x];
    assert t[|s|] == x;
    assert forall i :: 0 <= i < |s| ==> s[i] == t[i];
  }

  /** Python's `deque.remove` and `list.remove`: drops the first occurrence. */
  function RemoveFirst<T(==)>(s: seq<T>, x: T): seq<T> {
    if s == [] then [] else if s[0] == x then s[1..] else [s[0]] + RemoveFirst(s[1..], x)
  }

  lemma {:induction false} RemoveFirstMultiset<T>(s: seq<T>, x: T)
    requires x in s
    ensures multiset(RemoveFirst(s, x)) == multiset(s) - multiset{x}
    ensures |RemoveFirst(s, x)| == |s| - 1
  {
    assert s == [s[0]] + s[1..];
    if s[0] != x {
      RemoveFirstMultiset(s[1..], x);
    }
  }

  /** Python's `list.index` for a value that is present: the first position that holds it. */
  function IndexOf<T(==)>(s: seq<T>, x: T): (i: nat)
    requires x in s
    ensures i < |s| && s[i] == x && forall k :: 0 <= k < i ==> s[k] != x
  {
    if s[0] == x then 0 else
      assert s == [s[0]] + s[1..];
      1 + IndexOf(s[1..], x)
  }

  lemma IndexOfUnique<T>(s: seq<T>, i: nat)
    requires NoDup(s) && i < |s|
    ensures IndexOf(s, s[i]) == i
  {
    assert s[IndexOf(s, s[i])] == s[i];
  }

  /** The elements of `s` that are not in `gone`, in order. */
  function Without<T(==)>(s: seq<T>, gone: set<T>): (r: seq<T>)
    ensures |r| <= |s|
  {
    if s == [] then [] else (if s[0] in gone then [] else [s[0]]) + Without(s[1..], gone)
  }

  lemma {:induction false} WithoutMember<T>(s: seq<T>, gone: set<T>, x: T)
    ensures x in Without(s, gone) <==> x in s && x !in gone
  {
    if s != [] {
      WithoutMember(s[1..], gone, x);
      assert s == [s[0]] + s[1..];
    }
  }

  lemma {:induction false} WithoutConcat<T>(s: seq<T>, t: seq<T>, gone: set<T>)
    ensures Without(s + t, gone) == Without(s, gone) + Without(t, gone)
  {
    if s == [] {
      assert s + t == t;
    } else {
      assert (s + t)[1..] == s[1..] + t;
      WithoutConcat(s[1..], t, gone);
    }
  }

  lemma {:induction false} WithoutDisjoint<T>(s: seq<T>, gone: set<T>, more: set<T>)
    requires forall x :: x in s ==> x !in more
    ensures Without(s, gone + more) == Without(s, gone)
  {
    if s != [] {
      assert forall x :: x in s[1..] ==> x in s;
      WithoutDisjoint(s[1..], gone, more);
    }
  }

  /** Dropping one more element of a duplicate-free sequence is one removal. */
  lemma {:induction false} WithoutOneMore<T>(s: seq<T>, gone: set<T>, x: T)
    requires NoDup(s) && x in s && x !in gone
    ensures Without(s, gone + {x}) == RemoveFirst(Without(s, gone), x)
    ensures |Without(s, gone + {x})| == |Without(s, gone)| - 1
  {
    var rest := Without(s[1..], gone);
    assert ([s[0]] + rest)[1..] == rest;
    if s[0] == x {
      assert forall y :: y in s[1..] ==> y != x;
      WithoutDisjoint(s[1..], gone, {x});
    } else {
      assert x in s[1..];
      WithoutOneMore(s[1..], gone, x);
      WithoutMember(s[1..], gone, x);
      assert Without(s, gone) == if s[0] in gone then rest else [s[0]] + rest;
      assert s[0] in gone + {x} <==> s[0] in gone;
      var fewer := Without(s[1..], gone + {x});
      assert Without(s, gone + {x}) == if s[0] in gone then fewer else [s[0]] + fewer;
    }
  }

  lemma WithoutPrefix<T>(s: seq<T>, i: nat, gone: set<T>)
    requires i <= |s|
    ensures Without(s, gone) == Without(s[..i], gone) + Without(s[i..], gone)
  {
    assert s == s[..i] + s[i..];
    WithoutConcat(s[..i], s[i..], gone);
  }

  /** The index of a kept element counts the kept elements before it. */
  lemma IndexInWithout<T>(s: seq<T>, x: T, gone: set<T>)
    requires NoDup(s) && x in s && x !in gone
    ensures x in Without(s, gone)
    ensures IndexOf(Without(s, gone), x) == |Without(s[..IndexOf(s, x)], gone)|
  {
    var i := IndexOf(s, x);
    var before, kept := Without(s[..i], gone), Without(s, gone);
    WithoutPrefix(s, i, gone);
    assert s[i..] == [x] + s[i + 1..];
    assert kept == before + ([x] + Without(s[i + 1..], gone));
    WithoutMember(s[..i], gone, x);
    assert forall k :: 0 <= k < |before| ==> kept[k] == before[k] && kept[k] in before;
    assert kept[|before|] == x;
  }

  lemma {:induction false} WithoutAll<T>(s: seq<T>, gone: set<T>)
    requires forall x :: x in s ==> x in gone
    ensures Without(s, gone) == []
  {
    if s != [] {
      WithoutAll(s[1..], gone);
    }
  }

  lemma {:induction false} WithoutShrinks<T>(s: seq<T>, gone: set<T>, more: set<T>)
    requires gone <= more
    ensures |Without(s, more)| <= |Without(s, gone)|
  {
    if s != [] {
      WithoutShrinks(s[1..], gone, more);
    }
  }

  lemma TakeSnoc<T>(s: seq<T>, i: nat)
    requires i < |s|
    ensures s[..i + 1] == s[..i] + [s[i]]
  {
  }

  lemma TakeAll<T>(s: seq<T>)
    ensures s[..|s|] == s
  {
  }

  lemma Associative<T>(a: seq<T>, b: seq<T>, c: seq<T>)
    ensures a + b + c == a + (b + c)
  {
  }

  /** The elements of a sequence, as a set. */
  ghost function Elements<T(!new)>(s: seq<T>): set<T> {
    set x | x in s
  }

  lemma {:induction false} NoMoreElementsThanPlaces<T(!new)>(s: seq<T>)
    ensures |Elements(s)| <= |s|
  {
    if s == [] {
      assert Elements(s) == {};
    } else {
      NoMoreElementsThanPlaces(s[1..]);
      assert s == [s[0]] + s[1..];
      assert Elements(s) == Elements(s[1..]) + {s[0]};
    }
  }

  lemma {:induction false} DistinctFillPlaces<T(!new)>(s: seq<T>)
    requires NoDup(s)
    ensures |Elements(s)| == |s|
  {
    if s == [] {
      assert Elements(s) == {};
    } else {
      DistinctFillPlaces(s[1..]);
      assert s == [s[0]] + s[1..];
      assert Elements(s) == Elements(s[1..]) + {s[0]};
      assert s[0] !in s[1..];
    }
  }

  lemma SubsetIsNoLarger<T>(a: set<T>, b: set<T>)
    requires a <= b
    ensures |a| <= |b|
  {
    assert b == a + (b - a);
  }

  /** The elements that meet a condition, in order. */
  function Where<T>(s: seq<T>, keep: T -> bool): seq<T> {
    if s == [] then [] else
      var before := Where(s[..|s| - 1], keep);
      if keep(s[|s| - 1]) then before + [s[|s| - 1]] else before
  }

  function CountWhere<T>(s: seq<T>, counts: T -> bool): nat {
    |Where(s, counts)|
  }

  /** The sequences one after the other. */
  function Flatten<T>(parts: seq<seq<T>>): seq<T> {
    if parts == [] then [] else Flatten(parts[..|parts| - 1]) + parts[|parts| - 1]
  }

  /** What is before the first separator, and what is after it, can be read off. */
  lemma SeparatorSplits(a: string, x: string, b: string, y: string, separator: char)
    requires separator !in a && separator !in b && a + [separator] + x == b + [separator] + y
    ensures a == b && x == y
  {
    var s, t := a + [separator] + x, b + [separator] + y;
    assert s[|a|] == separator && t[|b|] == separator;
    assert forall i :: 0 <= i < |a| ==> s[i] == a[i] && a[i] in a;
    assert forall i :: 0 <= i < |b| ==> t[i] == b[i] && b[i] in b;
    assert |a| == |b|;
    assert a == s[..|a|] && b == t[..|b|];
    assert x == s[|a| + 1..] && y == t[|b| + 1..];
  }

  /** The order of Python strings: by code point, a prefix first. */
  predicate Less(a: string, b: string) {
    if b == [] then false
    else if a == [] then true
    else if a[0] != b[0] then a[0] < b[0]
    else Less(a[1..], b[1..])
  }

  lemma {:induction false} LessIsTotal(a: string, b: string)
    ensures Less(a, b) || a == b || Less(b, a)
    ensures !(Less(a, b) && Less(b, a))
    ensures !Less(a, a)
  {
    if a != [] && b != [] && a[0] == b[0] {
      LessIsTotal(a[1..], b[1..]);
      assert a == [a[0]] + a[1..] && b == [b[0]] + b[1..];
    }
    if a != [] {
      LessIsIrreflexive(a);
    }
  }

  lemma {:induction false} LessIsIrreflexive(a: string)
    ensures !Less(a, a)
  {
    if a != [] {
      LessIsIrreflexive(a[1..]);
    }
  }

  lemma {:induction false} LessIsTransitive(a: string, b: string, c: string)
    requires Less(a, b) && Less(b, c)
    ensures Less(a, c)
  {
    if a != [] && a[0] == b[0] == c[0] {
      LessIsTransitive(a[1..], b[1..], c[1..]);
    }
  }
}
