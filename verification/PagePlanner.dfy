/**
 Choosing the page roles of a detail plan: three passes over a template's sequence, the optional roles and
 the default sequence. The template file is not part of this model; its sequence for the wanted count, if
 it has one, is a parameter.
 */
module PagePlanner {
  import opened Sequences

  datatype PageRole =
    | HeroOpening | DryLeafEvidence | TeaSoupEvidence | ParameterAndClosing | LeafBottomProcessEvidence
    | BrandTrust | GiftOpenboxPortable | SceneValueStory | BrewingMethodInfo | PackagingStructureValue
    | PackageCloseupEvidence | BrandClosing
    | OtherRole(name: string)                           // a name only a template knows

  datatype AssetRole = MainResult | Packaging | DryLeaf | LeafBottom | TeaSoup | SceneRef | BgRef

  /** The assets of a job by role; an asset is its id here. */
  type RoleMap = map<AssetRole, seq<nat>>

  const DefaultSequence: seq<PageRole> := [
    HeroOpening, DryLeafEvidence, TeaSoupEvidence, ParameterAndClosing, LeafBottomProcessEvidence, BrandTrust,
    GiftOpenboxPortable, SceneValueStory, BrewingMethodInfo, PackagingStructureValue, PackageCloseupEvidence, BrandClosing]

  const OptionalCandidates: seq<PageRole> := [
    BrandTrust, GiftOpenboxPortable, SceneValueStory, BrewingMethodInfo, PackagingStructureValue,
    PackageCloseupEvidence, BrandClosing]

  predicate Has(m: RoleMap, role: AssetRole) {
    role in m && m[role] != []
  }

  predicate Allowed(role: PageRole, m: RoleMap) {
    match role
    case DryLeafEvidence => Has(m, DryLeaf)
    case LeafBottomProcessEvidence => Has(m, LeafBottom)
    case HeroOpening => Has(m, MainResult) || Has(m, Packaging)
    case _ => true
  }

  // ---------------------------------------------------------------- the passes

  /** The allowed roles among the first `n`. */
  function AllowedOf(s: seq<PageRole>, m: RoleMap, n: nat): seq<PageRole>
    requires n <= |s|
  {
    if n == 0 then [] else
      var before := AllowedOf(s, m, n - 1);
      if Allowed(s[n - 1], m) then before + [s[n - 1]] else before
  }

  function RefusedOf(s: seq<PageRole>, m: RoleMap, n: nat): seq<PageRole>
    requires n <= |s|
  {
    if n == 0 then [] else
      var before := RefusedOf(s, m, n - 1);
      if Allowed(s[n - 1], m) then before else before + [s[n - 1]]
  }

  /** Adds a role that is not there yet, while there are too few. */
  function Extend(selected: seq<PageRole>, role: PageRole, target: nat): seq<PageRole> {
    if |selected| >= target || role in selected then selected else selected + [role]
  }

  function WithOptional(selected: seq<PageRole>, m: RoleMap, target: nat, n: nat): seq<PageRole>
    requires n <= |OptionalCandidates|
  {
    if n == 0 then selected
    else
      var before, role := WithOptional(selected, m, target, n - 1), OptionalCandidates[n - 1];
      if Allowed(role, m) then Extend(before, role, target) else before
  }

  function WithDefaults(selected: seq<PageRole>, target: nat, n: nat): seq<PageRole>
    requires n <= |DefaultSequence|
  {
    if n == 0 then selected else Extend(WithDefaults(selected, target, n - 1), DefaultSequence[n - 1], target)
  }

  function Chosen(s: seq<PageRole>, m: RoleMap, target: nat): seq<PageRole> {
    var first := AllowedOf(s, m, |s|);
    var second := WithOptional(first, m, target, |OptionalCandidates|);
    WithDefaults(second, target, |DefaultSequence|)
  }

  function Take<T>(s: seq<T>, n: nat): seq<T> {
    if |s| <= n then s else s[..n]
  }

  /** `_select_page_roles`; `sequence` is the template's sequence for this count, if any. */
  function SelectPageRoles(sequence: Option<seq<PageRole>>, m: RoleMap, target: nat): seq<PageRole> {
    Take(Chosen(if sequence.Some? then sequence.value else DefaultSequence, m, target), target)
  }

  /** `_select_page_roles` with its three loops. */
  method Select(sequence: Option<seq<PageRole>>, m: RoleMap, target: nat) returns (selected: seq<PageRole>)
    ensures selected == SelectPageRoles(sequence, m, target)
  {
    var s := if sequence.Some? then sequence.value else DefaultSequence;
    selected := [];
    for n := 0 to |s|
      invariant selected == AllowedOf(s, m, n)
    {
      if Allowed(s[n], m) {
        selected := selected + [s[n]];
      }
    }
    selected := AddOptional(selected, m, target);
    if |selected| < target {
      selected := AddDefaults(selected, target);
    } else {
      FullStaysFull(selected, target, |DefaultSequence|);
    }
    if |selected| > target {
      selected := selected[..target];
    }
  }

  method AddOptional(first: seq<PageRole>, m: RoleMap, target: nat) returns (selected: seq<PageRole>)
    ensures selected == WithOptional(first, m, target, |OptionalCandidates|)
  {
    selected := first;
    for n := 0 to |OptionalCandidates|
      invariant selected == WithOptional(first, m, target, n)
    {
      if |selected| >= target {
        EnoughStaysEnough(first, m, target, n, |OptionalCandidates|);
        return;
      }
      if OptionalCandidates[n] !in selected && Allowed(OptionalCandidates[n], m) {
        selected := selected + [OptionalCandidates[n]];
      }
    }
  }

  method AddDefaults(second: seq<PageRole>, target: nat) returns (selected: seq<PageRole>)
    requires |second| < target
    ensures selected == WithDefaults(second, target, |DefaultSequence|)
  {
    selected := second;
    for n := 0 to |DefaultSequence|
      invariant selected == WithDefaults(second, target, n) && |selected| < target
    {
      if DefaultSequence[n] !in selected {
        selected := selected + [DefaultSequence[n]];
        if |selected| >= target {
          DefaultsStop(second, target, n + 1, |DefaultSequence|);
          return;
        }
      }
    }
  }

  lemma {:induction false} EnoughStaysEnough(first: seq<PageRole>, m: RoleMap, target: nat, n: nat, k: nat)
    requires n <= k <= |OptionalCandidates| && |WithOptional(first, m, target, n)| >= target
    ensures WithOptional(first, m, target, k) == WithOptional(first, m, target, n)
  {
    if k > n {
      EnoughStaysEnough(first, m, target, n, k - 1);
    }
  }

  lemma {:induction false} DefaultsStop(second: seq<PageRole>, target: nat, n: nat, k: nat)
    requires n <= k <= |DefaultSequence| && |WithDefaults(second, target, n)| >= target
    ensures WithDefaults(second, target, k) == WithDefaults(second, target, n)
  {
    if k > n {
      DefaultsStop(second, target, n, k - 1);
    }
  }

  lemma FullStaysFull(selected: seq<PageRole>, target: nat, k: nat)
    requires k <= |DefaultSequence| && |selected| >= target
    ensures WithDefaults(selected, target, k) == selected
  {
    DefaultsStop(selected, target, 0, k);
  }

  // ---------------------------------------------------------------- count and distinctness

  lemma {:induction false} OptionalExtends(first: seq<PageRole>, m: RoleMap, target: nat, n: nat)
    requires n <= |OptionalCandidates|
    ensures first <= WithOptional(first, m, target, n)
    ensures NoDup(first) ==> NoDup(WithOptional(first, m, target, n))
  {
    if n > 0 {
      OptionalExtends(first, m, target, n - 1);
    }
  }

  lemma {:induction false} DefaultsExtend(second: seq<PageRole>, target: nat, n: nat)
    requires n <= |DefaultSequence|
    ensures second <= WithDefaults(second, target, n)
    ensures NoDup(second) ==> NoDup(WithDefaults(second, target, n))
    ensures |WithDefaults(second, target, n)| < target ==>
      forall i :: 0 <= i < n ==> DefaultSequence[i] in WithDefaults(second, target, n)
  {
    if n > 0 {
      DefaultsExtend(second, target, n - 1);
    }
  }

  /** A selection that holds all twelve default roles has at least twelve places. */
  lemma AllDefaultsNeedRoom(selected: seq<PageRole>)
    requires forall i :: 0 <= i < |DefaultSequence| ==> DefaultSequence[i] in selected
    ensures |selected| >= |DefaultSequence|
  {
    DistinctFillPlaces(DefaultSequence);
    NoMoreElementsThanPlaces(selected);
    forall x | x in DefaultSequence ensures x in selected {
      var i :| 0 <= i < |DefaultSequence| && DefaultSequence[i] == x;
    }
    SubsetIsNoLarger(Elements(DefaultSequence), Elements(selected));
  }

  /** Whatever the template's sequence and the assets, every allowed count (1 to 12) is met exactly. */
  lemma CountIsMet(sequence: Option<seq<PageRole>>, m: RoleMap, target: nat)
    requires target <= 12
    ensures |SelectPageRoles(sequence, m, target)| == target
  {
    var s := if sequence.Some? then sequence.value else DefaultSequence;
    var second := WithOptional(AllowedOf(s, m, |s|), m, target, |OptionalCandidates|);
    DefaultsExtend(second, target, |DefaultSequence|);
    if |Chosen(s, m, target)| < target {
      AllDefaultsNeedRoom(Chosen(s, m, target));
    }
  }

  lemma OptionalAddsDistinct(first: seq<PageRole>, m: RoleMap, target: nat)
    requires |first| < target
    ensures NoDup(WithOptional(first, m, target, |OptionalCandidates|)) <==> NoDup(first)
  {
    var all := WithOptional(first, m, target, |OptionalCandidates|);
    OptionalExtends(first, m, target, |OptionalCandidates|);
    if NoDup(all) {
      assert forall i :: 0 <= i < |first| ==> first[i] == all[i];
    }
  }

  lemma DefaultsAddDistinct(second: seq<PageRole>, target: nat)
    ensures NoDup(WithDefaults(second, target, |DefaultSequence|)) <==> NoDup(second)
  {
    var all := WithDefaults(second, target, |DefaultSequence|);
    DefaultsExtend(second, target, |DefaultSequence|);
    if NoDup(all) {
      assert forall i :: 0 <= i < |second| ==> second[i] == all[i];
    }
  }

  lemma {:induction false} OptionalBounded(first: seq<PageRole>, m: RoleMap, target: nat, n: nat)
    requires n <= |OptionalCandidates| && |first| <= target
    ensures |WithOptional(first, m, target, n)| <= target
  {
    if n > 0 {
      OptionalBounded(first, m, target, n - 1);
    }
  }

  lemma {:induction false} DefaultsBounded(second: seq<PageRole>, target: nat, n: nat)
    requires n <= |DefaultSequence| && |second| <= target
    ensures |WithDefaults(second, target, n)| <= target
  {
    if n > 0 {
      DefaultsBounded(second, target, n - 1);
    }
  }

  /** The selected roles are distinct exactly when the template does not repeat a role among its first
      `target` allowed ones; a duplicate-free sequence never does. */
  lemma DistinctIff(sequence: seq<PageRole>, m: RoleMap, target: nat)
    ensures NoDup(SelectPageRoles(Some(sequence), m, target)) <==> NoDup(Take(AllowedOf(sequence, m, |sequence|), target))
  {
    var first := AllowedOf(sequence, m, |sequence|);
    if |first| >= target {
      EnoughStaysEnough(first, m, target, 0, |OptionalCandidates|);
      FullStaysFull(first, target, |DefaultSequence|);
    } else {
      var second := WithOptional(first, m, target, |OptionalCandidates|);
      OptionalAddsDistinct(first, m, target);
      DefaultsAddDistinct(second, target);
      OptionalBounded(first, m, target, |OptionalCandidates|);
      DefaultsBounded(second, target, |DefaultSequence|);
    }
  }

  lemma {:induction false} AllowedIsPart(s: seq<PageRole>, m: RoleMap, n: nat)
    requires n <= |s|
    ensures forall x :: x in AllowedOf(s, m, n) <==> x in s[..n] && Allowed(x, m)
    ensures NoDup(s) ==> NoDup(AllowedOf(s, m, n))
  {
    if n > 0 {
      AllowedIsPart(s, m, n - 1);
      TakeSnoc(s, n - 1);
      if NoDup(s) {
        assert s[n - 1] !in s[..n - 1];
      }
    }
  }

  /** An input: a template that repeats a role repeats it in the selection. */
  lemma RepeatedRoleIsSelectedTwice(m: RoleMap)
    ensures SelectPageRoles(Some([BrandTrust, BrandTrust]), m, 2) == [BrandTrust, BrandTrust]
  {
    var s := [BrandTrust, BrandTrust];
    assert AllowedOf(s, m, 1) == [BrandTrust];
    assert AllowedOf(s, m, 2) == s;
    EnoughStaysEnough(s, m, 2, 0, |OptionalCandidates|);
    FullStaysFull(s, 2, |DefaultSequence|);
  }

  lemma DefaultIsDistinct()
    ensures NoDup(DefaultSequence)
  {
  }

  /** A duplicate-free sequence gives exactly `target` distinct roles, and so does the default one. */
  lemma DistinctSelection(sequence: Option<seq<PageRole>>, m: RoleMap, target: nat)
    requires target <= 12 && (sequence.Some? ==> NoDup(sequence.value))
    ensures |SelectPageRoles(sequence, m, target)| == target && NoDup(SelectPageRoles(sequence, m, target))
  {
    var s := if sequence.Some? then sequence.value else DefaultSequence;
    DefaultIsDistinct();
    CountIsMet(sequence, m, target);
    AllowedIsPart(s, m, |s|);
    DistinctIff(s, m, target);
  }

  // ---------------------------------------------------------------- the default sequence

  lemma {:induction false} OptionalAddsNothing(first: seq<PageRole>, m: RoleMap, target: nat, n: nat)
    requires n <= |OptionalCandidates|
    requires forall i :: 0 <= i < n && Allowed(OptionalCandidates[i], m) ==> OptionalCandidates[i] in first
    ensures WithOptional(first, m, target, n) == first
  {
    if n > 0 {
      OptionalAddsNothing(first, m, target, n - 1);
    }
  }

  lemma ExtendAppendsRefused(allowed: seq<PageRole>, refused: seq<PageRole>, role: PageRole, ok: bool, target: nat)
    requires |allowed| <= target && role !in refused && (ok <==> role in allowed)
    ensures Extend(Take(allowed + refused, target), role, target)
      == Take(allowed + (if ok then refused else refused + [role]), target)
  {
    var all := allowed + refused;
    if ok {
      assert forall i :: 0 <= i < |allowed| ==> Take(all, target)[i] == allowed[i];
    } else {
      TakeOneMore(all, role, target);
      Associative(allowed, refused, [role]);
    }
  }

  lemma DefaultRole(m: RoleMap, n: nat)
    requires n < |DefaultSequence|
    ensures DefaultSequence[n] !in RefusedOf(DefaultSequence, m, n)
    ensures Allowed(DefaultSequence[n], m) <==> DefaultSequence[n] in AllowedOf(DefaultSequence, m, |DefaultSequence|)
  {
    RefusedIsPart(DefaultSequence, m, n);
    AllowedIsPart(DefaultSequence, m, |DefaultSequence|);
    TakeAll(DefaultSequence);
    assert DefaultSequence[n] in DefaultSequence;
  }

  /** The third pass appends the refused roles, in order, as far as there is room. */
  lemma {:induction false} DefaultsAppendRefused(allowed: seq<PageRole>, m: RoleMap, target: nat, n: nat)
    requires n <= |DefaultSequence| && |allowed| <= target
    requires allowed == AllowedOf(DefaultSequence, m, |DefaultSequence|)
    ensures WithDefaults(allowed, target, n) == Take(allowed + RefusedOf(DefaultSequence, m, n), target)
  {
    if n == 0 {
      assert allowed + [] == allowed;
    } else {
      var role := DefaultSequence[n - 1];
      DefaultsAppendRefused(allowed, m, target, n - 1);
      DefaultRole(m, n - 1);
      ExtendAppendsRefused(allowed, RefusedOf(DefaultSequence, m, n - 1), role, Allowed(role, m), target);
    }
  }

  lemma TakeOneMore<T>(s: seq<T>, x: T, n: nat)
    ensures Take(s + [x], n) == if |s| >= n then Take(s, n) else s + [x]
  {
  }

  lemma {:induction false} RefusedIsPart(s: seq<PageRole>, m: RoleMap, n: nat)
    requires n <= |s|
    ensures forall x :: x in RefusedOf(s, m, n) <==> x in s[..n] && !Allowed(x, m)
  {
    if n > 0 {
      RefusedIsPart(s, m, n - 1);
      TakeSnoc(s, n - 1);
    }
  }

  /** Without a template sequence the selection is the start of: the allowed default roles in order, then
      the refused ones in order. */
  lemma DefaultIsStablePartition(m: RoleMap, target: nat)
    ensures SelectPageRoles(None, m, target)
      == Take(AllowedOf(DefaultSequence, m, |DefaultSequence|) + RefusedOf(DefaultSequence, m, |DefaultSequence|), target)
  {
    var allowed := AllowedOf(DefaultSequence, m, |DefaultSequence|);
    AllowedIsPart(DefaultSequence, m, |DefaultSequence|);
    TakeAll(DefaultSequence);
    forall i | 0 <= i < |OptionalCandidates| ensures OptionalCandidates[i] in DefaultSequence {
      assert DefaultSequence[i + 5] == OptionalCandidates[i];
    }
    OptionalAddsNothing(allowed, m, target, |OptionalCandidates|);
    if |allowed| <= target {
      DefaultsAppendRefused(allowed, m, target, |DefaultSequence|);
    } else {
      FullStaysFull(allowed, target, |DefaultSequence|);
    }
  }

  lemma PastTheAllowed(allowed: seq<PageRole>, refused: seq<PageRole>, m: RoleMap, target: nat, k: nat, role: PageRole)
    requires k < |Take(allowed + refused, target)| && !Allowed(Take(allowed + refused, target)[k], m)
    requires (forall x :: x in allowed ==> Allowed(x, m)) && role in allowed
    ensures role in Take(allowed + refused, target)[..k]
  {
    var selected := Take(allowed + refused, target);
    assert forall i :: 0 <= i < |allowed| && i < |selected| ==> selected[i] == allowed[i] && allowed[i] in allowed;
    assert |allowed| <= k;
    var i :| 0 <= i < |allowed| && allowed[i] == role;
    assert selected[..k][i] == role;
  }

  /** With the default sequence a role whose assets are missing is selected only when every allowed role
      has been selected before it. */
  lemma RefusedOnlyAfterAllAllowed(m: RoleMap, target: nat, k: nat, role: PageRole)
    requires k < |SelectPageRoles(None, m, target)| && !Allowed(SelectPageRoles(None, m, target)[k], m)
    requires role in DefaultSequence && Allowed(role, m)
    ensures role in SelectPageRoles(None, m, target)[..k]
  {
    var allowed, refused := AllowedOf(DefaultSequence, m, |DefaultSequence|), RefusedOf(DefaultSequence, m, |DefaultSequence|);
    DefaultIsStablePartition(m, target);
    AllowedIsPart(DefaultSequence, m, |DefaultSequence|);
    TakeAll(DefaultSequence);
    PastTheAllowed(allowed, refused, m, target, k, role);
  }

  // ---------------------------------------------------------------- any template

  /** Some asset has this role. */
  ghost predicate SomeAsset(m: RoleMap, role: AssetRole) {
    role in m && exists asset :: asset in m[role]
  }

  /** Three page roles need assets: dry leaf and leaf bottom their own, the opening page a main result or a
      packaging. No other role is ever refused. */
  lemma AllowedIff(role: PageRole, m: RoleMap)
    ensures Allowed(role, m) <==>
      && (role == DryLeafEvidence ==> SomeAsset(m, DryLeaf))
      && (role == LeafBottomProcessEvidence ==> SomeAsset(m, LeafBottom))
      && (role == HeroOpening ==> SomeAsset(m, MainResult) || SomeAsset(m, Packaging))
  {
    HasMeaning(m, DryLeaf);
    HasMeaning(m, LeafBottom);
    HasMeaning(m, MainResult);
    HasMeaning(m, Packaging);
  }

  lemma HasMeaning(m: RoleMap, role: AssetRole)
    ensures Has(m, role) <==> SomeAsset(m, role)
  {
    if role in m && m[role] != [] {
      assert m[role][0] in m[role];
    }
  }

  /** What filling up with the first `n` candidates amounts to. */
  ghost function Filled(first: seq<PageRole>, candidates: seq<PageRole>, n: nat): seq<PageRole>
    requires n <= |candidates|
  {
    first + Without(candidates[..n], Elements(first))
  }

  lemma FilledNext(first: seq<PageRole>, candidates: seq<PageRole>, n: nat)
    requires n < |candidates| && NoDup(candidates)
    ensures var role := candidates[n];
      Filled(first, candidates, n + 1)
      == if role in Filled(first, candidates, n) then Filled(first, candidates, n) else Filled(first, candidates, n) + [role]
  {
    var role, gone := candidates[n], Elements(first);
    TakeSnoc(candidates, n);
    WithoutConcat(candidates[..n], [role], gone);
    WithoutMember(candidates[..n], gone, role);
    WithoutOne(role, gone);
    assert role !in candidates[..n];
    Associative(first, Without(candidates[..n], gone), [role]);
  }

  lemma WithoutOne(role: PageRole, gone: set<PageRole>)
    ensures Without([role], gone) == if role in gone then [] else [role]
  {
    assert [role][1..] == [];
  }

  /** Adding the next candidate to a cut list is cutting the list with it. */
  lemma FillStep(first: seq<PageRole>, candidates: seq<PageRole>, target: nat, n: nat)
    requires n < |candidates| && NoDup(candidates)
    ensures Extend(Take(Filled(first, candidates, n), target), candidates[n], target)
      == Take(Filled(first, candidates, n + 1), target)
  {
    FilledNext(first, candidates, n);
    TakeOneMore(Filled(first, candidates, n), candidates[n], target);
  }

  lemma {:induction false} OptionalFill(first: seq<PageRole>, m: RoleMap, target: nat, n: nat)
    requires n <= |OptionalCandidates| && |first| <= target
    ensures WithOptional(first, m, target, n) == Take(Filled(first, OptionalCandidates, n), target)
  {
    if n > 0 {
      OptionalFill(first, m, target, n - 1);
      OptionalIsDistinct();
      FillStep(first, OptionalCandidates, target, n - 1);
      AllowedIff(OptionalCandidates[n - 1], m);
    } else {
      assert Filled(first, OptionalCandidates, 0) == first;
    }
  }

  lemma OptionalIsDistinct()
    ensures NoDup(OptionalCandidates)
  {
  }

  lemma {:induction false} DefaultsFill(second: seq<PageRole>, target: nat, n: nat)
    requires n <= |DefaultSequence| && |second| <= target
    ensures WithDefaults(second, target, n) == Take(Filled(second, DefaultSequence, n), target)
  {
    if n > 0 {
      DefaultsFill(second, target, n - 1);
      DefaultIsDistinct();
      FillStep(second, DefaultSequence, target, n - 1);
    } else {
      assert Filled(second, DefaultSequence, 0) == second;
    }
  }

  /** For any template sequence and any assets the selection is the start of: the roles of the sequence that are
      allowed, repeats included; then the optional roles that are missing; then the default roles that are
      still missing, whether they are allowed or not; each part in its own order. */
  lemma SelectionMeaning(sequence: seq<PageRole>, m: RoleMap, target: nat)
    ensures var allowed := AllowedOf(sequence, m, |sequence|);
      SelectPageRoles(Some(sequence), m, target)
      == Take(Filled(Filled(allowed, OptionalCandidates, |OptionalCandidates|), DefaultSequence, |DefaultSequence|), target)
  {
    var first := AllowedOf(sequence, m, |sequence|);
    var second := Filled(first, OptionalCandidates, |OptionalCandidates|);
    if |first| <= target {
      OptionalFill(first, m, target, |OptionalCandidates|);
      if |second| <= target {
        DefaultsFill(second, target, |DefaultSequence|);
      } else {
        FullStaysFull(Take(second, target), target, |DefaultSequence|);
      }
    } else {
      EnoughStaysEnough(first, m, target, 0, |OptionalCandidates|);
      FullStaysFull(first, target, |DefaultSequence|);
    }
  }
}
