/**
 Binding reference images to detail pages: one counter per asset role, threaded through all pages, and
 per-page caps. Asset files are opaque ids.
 */
module ReferenceRotation {
  import opened Sequences

  datatype Role = Packaging | MainResult | DryLeaf | TeaSoup | LeafBottom | SceneRef | BgRef

  datatype Ref = Ref(id: nat, role: Role)

  datatype Page = Page(anchors: seq<Role>, supplements: seq<Role>, suggested: seq<seq<Role>>)

  type Counters = map<Role, nat>

  // ---------------------------------------------------------------- assets

  /** The assets by role, and the packaging pool. */
  datatype Supply = Supply(byRole: map<Role, seq<Ref>>, pool: seq<Ref>)

  /** `assets_by_role.get(role, [])`. */
  function RowsIn(byRole: map<Role, seq<Ref>>, role: Role): seq<Ref> {
    if role in byRole then byRole[role] else []
  }

  function Rows(job: Supply, role: Role): seq<Ref> {
    RowsIn(job.byRole, role)
  }

  /** `_group_assets_by_role`, after the first `n` assets. */
  function Grouped(assets: seq<Ref>, n: nat): map<Role, seq<Ref>>
    requires n <= |assets|
  {
    if n == 0 then map[] else
      var before, asset := Grouped(assets, n - 1), assets[n - 1];
      before[asset.role := RowsIn(before, asset.role) + [asset]]
  }

  /** `_build_packaging_pool`. */
  function Pool(byRole: map<Role, seq<Ref>>, mainFirst: bool): seq<Ref> {
    if mainFirst then RowsIn(byRole, MainResult) + RowsIn(byRole, Packaging)
    else RowsIn(byRole, Packaging) + RowsIn(byRole, MainResult)
  }

  function SupplyOf(assets: seq<Ref>, mainFirst: bool): Supply {
    var byRole := Grouped(assets, |assets|);
    Supply(byRole, Pool(byRole, mainFirst))
  }

  /** Every group holds assets of its role only. */
  ghost predicate Sorted(byRole: map<Role, seq<Ref>>) {
    forall role: Role, i :: role in byRole && 0 <= i < |byRole[role]| ==> byRole[role][i].role == role
  }

  /** The assets of one role among the first `n`, in upload order. */
  function OfRole(assets: seq<Ref>, role: Role, n: nat): (r: seq<Ref>)
    requires n <= |assets|
  {
    if n == 0 then [] else
      var before := OfRole(assets, role, n - 1);
      if assets[n - 1].role == role then before + [assets[n - 1]] else before
  }

  lemma {:induction false} GroupIsOfRole(assets: seq<Ref>, role: Role, n: nat)
    requires n <= |assets|
    ensures RowsIn(Grouped(assets, n), role) == OfRole(assets, role, n)
  {
    if n > 0 {
      GroupIsOfRole(assets, role, n - 1);
    }
  }

  lemma {:induction false} OfRoleMeaning(assets: seq<Ref>, role: Role, n: nat)
    requires n <= |assets|
    ensures forall i :: 0 <= i < |OfRole(assets, role, n)| ==> OfRole(assets, role, n)[i].role == role
    ensures OfRole(assets, role, n) != [] <==> exists i :: 0 <= i < n && assets[i].role == role
  {
    if n > 0 {
      OfRoleMeaning(assets, role, n - 1);
    }
  }

  lemma GroupsAreSorted(assets: seq<Ref>)
    ensures Sorted(Grouped(assets, |assets|))
  {
    var byRole: map<Role, seq<Ref>> := Grouped(assets, |assets|);
    forall role: Role | role in byRole ensures forall i :: 0 <= i < |byRole[role]| ==> byRole[role][i].role == role {
      GroupIsOfRole(assets, role, |assets|);
      OfRoleMeaning(assets, role, |assets|);
      assert byRole[role] == OfRole(assets, role, |assets|);
    }
  }

  // ---------------------------------------------------------------- draws

  /** What a page asks for: the next asset of a role, or the next of the packaging pool, which shares the
      counter of the packaging role. */
  datatype Request = Next(role: Role) | FromPool

  function Count(c: Counters, role: Role): nat {
    if role in c then c[role] else 0
  }

  function Source(job: Supply, q: Request): seq<Ref> {
    if q.Next? then Rows(job, q.role) else job.pool
  }

  function CounterOf(q: Request): Role {
    if q.Next? then q.role else Packaging
  }

  /** The remainder of `k` by `n`, by repeated subtraction. */
  function Remainder(k: nat, n: nat): (r: nat)
    requires n > 0
    ensures r < n
  {
    if k < n then k else Remainder(k - n, n)
  }

  lemma {:induction false} RemainderIsModulo(k: nat, n: nat)
    requires n > 0
    ensures Remainder(k, n) == k % n
    decreases k
  {
    if k >= n {
      RemainderIsModulo(k - n, n);
      QuotientIs(k, n, (k - n) / n + 1, (k - n) % n);
    } else {
      QuotientIs(k, n, 0, k);
    }
  }

  lemma QuotientIs(k: nat, n: nat, q: nat, r: nat)
    requires k == q * n + r && r < n
    ensures k / n == q && k % n == r
  {
    var d := k / n - q;
    assert d * n == r - k % n;
    MultiplesApart(d, n);
  }

  lemma MultiplesApart(d: int, n: nat)
    ensures d >= 1 ==> d * n >= n
    ensures d <= -1 ==> d * n <= -1 * n
  {
  }

  /** The row whose turn it is: number `k` modulo their count. */
  function Turn(rows: seq<Ref>, k: nat): Ref
    requires rows != []
  {
    rows[Remainder(k, |rows|)]
  }

  function Drawn(job: Supply, c: Counters, q: Request): Option<Ref> {
    var rows := Source(job, q);
    if rows == [] then None else Some(Turn(rows, Count(c, CounterOf(q))))
  }

  function Advanced(job: Supply, c: Counters, q: Request): Counters {
    if Source(job, q) == [] then c else c[CounterOf(q) := Count(c, CounterOf(q)) + 1]
  }

  function CountersAfter(job: Supply, c: Counters, qs: seq<Request>, n: nat): Counters
    requires n <= |qs|
  {
    if n == 0 then c else Advanced(job, CountersAfter(job, c, qs, n - 1), qs[n - 1])
  }

  datatype Draw = Draw(request: Request, ref: Ref)

  /** The draws so far, followed by those that the first `n` requests lead to. */
  function DrawsOf(job: Supply, c: Counters, qs: seq<Request>, n: nat, draws: seq<Draw>): seq<Draw>
    requires n <= |qs|
  {
    if n == 0 then draws else
      var ref := Drawn(job, CountersAfter(job, c, qs, n - 1), qs[n - 1]);
      if ref.Some? then DrawsOf(job, c, qs, n - 1, draws) + [Draw(qs[n - 1], ref.value)]
      else DrawsOf(job, c, qs, n - 1, draws)
  }

  // ---------------------------------------------------------------- the references of a page

  function Cap(role: Role): nat {
    if role == Packaging then 2 else 1
  }

  function RoleCount(refs: seq<Ref>, role: Role, n: nat): nat
    requires n <= |refs|
  {
    if n == 0 then 0 else RoleCount(refs, role, n - 1) + if refs[n - 1].role == role then 1 else 0
  }

  /** `_append_ref`. */
  function Appended(refs: seq<Ref>, ref: Ref): seq<Ref> {
    if ref in refs || RoleCount(refs, ref.role, |refs|) >= Cap(ref.role) then refs else refs + [ref]
  }

  /** The references so far, after the first `n` requests. */
  function RefsAfter(job: Supply, c: Counters, qs: seq<Request>, n: nat, refs: seq<Ref>): seq<Ref>
    requires n <= |qs|
  {
    if n == 0 then refs else
      var before, ref := RefsAfter(job, c, qs, n - 1, refs), Drawn(job, CountersAfter(job, c, qs, n - 1), qs[n - 1]);
      if ref.Some? then Appended(before, ref.value) else before
  }

  function Nexts(roles: seq<Role>, n: nat): (r: seq<Request>)
    requires n <= |roles|
    ensures |r| == n
  {
    if n == 0 then [] else Nexts(roles, n - 1) + [Next(roles[n - 1])]
  }

  const Supplementary: set<Role> := {TeaSoup, SceneRef, BgRef}

  function SupplementsUpTo(roles: seq<Role>, n: nat): seq<Request>
    requires n <= |roles|
  {
    if n == 0 then [] else var before := SupplementsUpTo(roles, n - 1);
      if roles[n - 1] in Supplementary then before + [Next(roles[n - 1])] else before
  }

  function ScreensUpTo(suggested: seq<seq<Role>>, n: nat): seq<Request>
    requires n <= |suggested|
  {
    if n == 0 then [] else ScreensUpTo(suggested, n - 1) + Nexts(suggested[n - 1], |suggested[n - 1]|)
  }

  /** What a page asks for, in order. */
  function Requests(page: Page): seq<Request> {
    Nexts(page.anchors, |page.anchors|) + SupplementsUpTo(page.supplements, |page.supplements|) + [FromPool]
    + ScreensUpTo(page.suggested, |page.suggested|)
  }

  const MaxReferences: nat := 5

  function FirstFive(refs: seq<Ref>): seq<Ref> {
    if |refs| <= MaxReferences then refs else refs[..MaxReferences]
  }

  /** `_resolve_references`. */
  function References(job: Supply, c: Counters, page: Page): seq<Ref> {
    FirstFive(RefsAfter(job, c, Requests(page), |Requests(page)|, []))
  }

  // ---------------------------------------------------------------- all pages

  /** The counters before batch `k` of requests. */
  function CountersThrough(job: Supply, batches: seq<seq<Request>>, k: nat): Counters
    requires k <= |batches|
  {
    if k == 0 then map[] else CountersAfter(job, CountersThrough(job, batches, k - 1), batches[k - 1], |batches[k - 1]|)
  }

  /** Every draw of the first `k` batches, in order. */
  function DrawsThrough(job: Supply, batches: seq<seq<Request>>, k: nat): seq<Draw>
    requires k <= |batches|
  {
    if k == 0 then [] else
      DrawsOf(job, CountersThrough(job, batches, k - 1), batches[k - 1], |batches[k - 1]|, DrawsThrough(job, batches, k - 1))
  }

  /** What the pages ask for, one batch a page. */
  function Asked(pages: seq<Page>): seq<seq<Request>> {
    seq(|pages|, i requires 0 <= i < |pages| => Requests(pages[i]))
  }

  /** All draws of all pages. */
  function AllDraws(job: Supply, pages: seq<Page>): seq<Draw> {
    DrawsThrough(job, Asked(pages), |pages|)
  }

  /** The references of the first `k` pages. */
  function PromptReferences(job: Supply, pages: seq<Page>, k: nat): seq<seq<Ref>>
    requires k <= |pages|
  {
    if k == 0 then [] else
      PromptReferences(job, pages, k - 1) + [References(job, CountersThrough(job, Asked(pages), k - 1), pages[k - 1])]
  }

  // ---------------------------------------------------------------- rotation

  /** The references drawn for one role, in order. */
  function DrawnFor(draws: seq<Draw>, role: Role): seq<Ref> {
    if draws == [] then [] else
      var before, last := DrawnFor(draws[..|draws| - 1], role), draws[|draws| - 1];
      if last.request == Next(role) then before + [last.ref] else before
  }

  /** The draws take the rows in turn. */
  ghost predicate Rotates(refs: seq<Ref>, rows: seq<Ref>) {
    rows != [] && forall k :: 0 <= k < |refs| ==> refs[k] == Turn(rows, k)
  }

  lemma RotatesSnoc(refs: seq<Ref>, rows: seq<Ref>, ref: Ref)
    requires Rotates(refs, rows) && ref == Turn(rows, |refs|)
    ensures Rotates(refs + [ref], rows)
  {
  }

  /** The draws took the rows in turn, and the counter says how many they were. */
  ghost predicate InTurn(refs: seq<Ref>, rows: seq<Ref>, count: nat) {
    Rotates(refs, rows) && count == |refs|
  }

  lemma OneDraw(job: Supply, c: Counters, q: Request, role: Role, refs: seq<Ref>)
    requires role != Packaging && InTurn(refs, Rows(job, role), Count(c, role))
    ensures var ref := Drawn(job, c, q);
      InTurn(if ref.Some? && q == Next(role) then refs + [ref.value] else refs, Rows(job, role), Count(Advanced(job, c, q), role))
  {
    var ref := Drawn(job, c, q);
    if ref.Some? && q == Next(role) {
      RotatesSnoc(refs, Rows(job, role), ref.value);
    }
  }

  lemma DrawnForSnoc(draws: seq<Draw>, draw: Draw, role: Role)
    ensures DrawnFor(draws + [draw], role)
      == if draw.request == Next(role) then DrawnFor(draws, role) + [draw.ref] else DrawnFor(draws, role)
  {
    assert (draws + [draw])[..|draws|] == draws;
  }

  lemma {:induction false} DrawsRotate(job: Supply, c: Counters, qs: seq<Request>, n: nat, role: Role, draws: seq<Draw>)
    requires n <= |qs| && role != Packaging && InTurn(DrawnFor(draws, role), Rows(job, role), Count(c, role))
    ensures InTurn(DrawnFor(DrawsOf(job, c, qs, n, draws), role), Rows(job, role), Count(CountersAfter(job, c, qs, n), role))
  {
    if n > 0 {
      DrawsRotate(job, c, qs, n - 1, role, draws);
      var before, now := DrawsOf(job, c, qs, n - 1, draws), CountersAfter(job, c, qs, n - 1);
      var ref := Drawn(job, now, qs[n - 1]);
      OneDraw(job, now, qs[n - 1], role, DrawnFor(before, role));
      if ref.Some? {
        DrawnForSnoc(before, Draw(qs[n - 1], ref.value), role);
      }
    }
  }

  lemma {:induction false} EveryRoleRotates(job: Supply, batches: seq<seq<Request>>, k: nat, role: Role)
    requires k <= |batches| && role != Packaging && Rows(job, role) != []
    ensures InTurn(DrawnFor(DrawsThrough(job, batches, k), role), Rows(job, role), Count(CountersThrough(job, batches, k), role))
  {
    if k > 0 {
      EveryRoleRotates(job, batches, k - 1, role);
      DrawsRotate(job, CountersThrough(job, batches, k - 1), batches[k - 1], |batches[k - 1]|, role, DrawsThrough(job, batches, k - 1));
    }
  }

  /** Through all pages, draw number `j` of a role other than packaging returns row `j mod n`. */
  lemma DrawIsModulo(job: Supply, pages: seq<Page>, role: Role)
    requires role != Packaging && Rows(job, role) != []
    ensures var refs, rows := DrawnFor(AllDraws(job, pages), role), Rows(job, role);
      forall j :: 0 <= j < |refs| ==> refs[j] == rows[j % |rows|]
  {
    EveryRoleRotates(job, Asked(pages), |pages|, role);
    var refs, rows := DrawnFor(AllDraws(job, pages), role), Rows(job, role);
    forall j | 0 <= j < |refs| ensures refs[j] == rows[j % |rows|] {
      RemainderIsModulo(j, |rows|);
    }
  }

  /** How often a value occurs. */
  function Occurrences(refs: seq<Ref>, ref: Ref): nat {
    if refs == [] then 0 else
      Occurrences(refs[..|refs| - 1], ref) + if refs[|refs| - 1] == ref then 1 else 0
  }

  lemma QuotientSteps(k: nat, n: nat, i: nat)
    requires i < n
    ensures (k + 1) / n + (if i < (k + 1) % n then 1 else 0) == k / n + (if i < k % n then 1 else 0) + (if k % n == i then 1 else 0)
  {
    var q, r := k / n, k % n;
    assert k == q * n + r;
    if r + 1 < n {
      QuotientIs(k + 1, n, q, r + 1);
    } else {
      assert k + 1 == (q + 1) * n + 0;
      QuotientIs(k + 1, n, q + 1, 0);
    }
  }

  /** In a rotation from the start over distinct rows, row `i` occurs floor or ceiling of `k / n` times. */
  lemma {:induction false} RotationIsFair(refs: seq<Ref>, rows: seq<Ref>, i: nat)
    requires Rotates(refs, rows) && NoDup(rows) && i < |rows|
    ensures Occurrences(refs, rows[i]) == |refs| / |rows| + (if i < |refs| % |rows| then 1 else 0)
  {
    if refs == [] {
      QuotientIs(0, |rows|, 0, 0);
    } else {
      var k := |refs| - 1;
      RotationIsFair(refs[..k], rows, i);
      QuotientSteps(k, |rows|, i);
      assert refs[k] == Turn(rows, k);
      RemainderIsModulo(k, |rows|);
      assert refs[k] == rows[i] <==> k % |rows| == i;
    }
  }

  /** Through all pages each asset of a role other than packaging is drawn floor or ceiling of its fair
      share of the draws of that role. */
  lemma EveryAssetGetsItsShare(job: Supply, pages: seq<Page>, role: Role, i: nat)
    requires role != Packaging && NoDup(Rows(job, role)) && i < |Rows(job, role)|
    ensures var refs, n := DrawnFor(AllDraws(job, pages), role), |Rows(job, role)|;
      Occurrences(refs, Rows(job, role)[i]) == |refs| / n + (if i < |refs| % n then 1 else 0)
  {
    EveryRoleRotates(job, Asked(pages), |pages|, role);
    RotationIsFair(DrawnFor(AllDraws(job, pages), role), Rows(job, role), i);
  }

  // ---------------------------------------------------------------- packaging

  /** How many of the draws answered this request. */
  function Calls(draws: seq<Draw>, q: Request): nat {
    if draws == [] then 0
    else if draws[|draws| - 1].request == q then Calls(draws[..|draws| - 1], q) + 1
    else Calls(draws[..|draws| - 1], q)
  }

  /** The draws that advanced the packaging counter: those of the role and those of the pool. */
  function Shared(draws: seq<Draw>): nat {
    Calls(draws, Next(Packaging)) + Calls(draws, FromPool)
  }

  /** The draw is the one that follows these: a packaging draw and a pool draw take the row whose number is
      the shared count. */
  ghost predicate SharedTurn(job: Supply, draws: seq<Draw>, draw: Draw) {
    draw.request == Next(Packaging) || draw.request == FromPool ==>
      Source(job, draw.request) != [] && draw.ref == Turn(Source(job, draw.request), Shared(draws))
  }

  ghost predicate SharedTurns(job: Supply, draws: seq<Draw>) {
    draws != [] ==>
      SharedTurns(job, draws[..|draws| - 1]) && SharedTurn(job, draws[..|draws| - 1], draws[|draws| - 1])
  }

  lemma SharedTurnsSnoc(job: Supply, draws: seq<Draw>, draw: Draw)
    requires SharedTurns(job, draws) && SharedTurn(job, draws, draw)
    ensures SharedTurns(job, draws + [draw])
    ensures Shared(draws + [draw])
      == Shared(draws) + if draw.request == Next(Packaging) || draw.request == FromPool then 1 else 0
  {
    assert (draws + [draw])[..|draws|] == draws;
  }

  /** The packaging and pool draws so far took their shared turns, and the counter says how many they were. */
  ghost predicate InSharedTurn(job: Supply, draws: seq<Draw>, count: nat) {
    SharedTurns(job, draws) && count == Shared(draws)
  }

  lemma OneSharedDraw(job: Supply, c: Counters, q: Request, draws: seq<Draw>)
    requires InSharedTurn(job, draws, Count(c, Packaging)) && Source(job, q) != []
    ensures InSharedTurn(job, draws + [Draw(q, Drawn(job, c, q).value)], Count(Advanced(job, c, q), Packaging))
  {
    SharedTurnsSnoc(job, draws, Draw(q, Drawn(job, c, q).value));
  }

  lemma DrawsNext(job: Supply, c: Counters, qs: seq<Request>, n: nat, draws: seq<Draw>)
    requires n < |qs|
    ensures var before, now := DrawsOf(job, c, qs, n, draws), CountersAfter(job, c, qs, n);
      && CountersAfter(job, c, qs, n + 1) == Advanced(job, now, qs[n])
      && DrawsOf(job, c, qs, n + 1, draws)
         == if Source(job, qs[n]) == [] then before else before + [Draw(qs[n], Drawn(job, now, qs[n]).value)]
  {
  }

  lemma {:induction false} DrawsShareTurns(job: Supply, c: Counters, qs: seq<Request>, n: nat, draws: seq<Draw>)
    requires n <= |qs| && InSharedTurn(job, draws, Count(c, Packaging))
    ensures InSharedTurn(job, DrawsOf(job, c, qs, n, draws), Count(CountersAfter(job, c, qs, n), Packaging))
  {
    if n > 0 {
      DrawsShareTurns(job, c, qs, n - 1, draws);
      DrawsNext(job, c, qs, n - 1, draws);
      if Source(job, qs[n - 1]) != [] {
        OneSharedDraw(job, CountersAfter(job, c, qs, n - 1), qs[n - 1], DrawsOf(job, c, qs, n - 1, draws));
      }
    }
  }

  lemma {:induction false} AllShareTurns(job: Supply, batches: seq<seq<Request>>, k: nat)
    requires k <= |batches|
    ensures InSharedTurn(job, DrawsThrough(job, batches, k), Count(CountersThrough(job, batches, k), Packaging))
  {
    if k > 0 {
      AllShareTurns(job, batches, k - 1);
      DrawsShareTurns(job, CountersThrough(job, batches, k - 1), batches[k - 1], |batches[k - 1]|, DrawsThrough(job, batches, k - 1));
    }
  }

  lemma {:induction false} SharedTurnsAt(job: Supply, draws: seq<Draw>, i: nat)
    requires SharedTurns(job, draws) && i < |draws|
    ensures SharedTurn(job, draws[..i], draws[i])
    ensures SharedTurns(job, draws[..i])
  {
    var before := draws[..|draws| - 1];
    if i < |before| {
      SharedTurnsAt(job, before, i);
      assert before[..i] == draws[..i];
    }
  }

  /** After `j` packaging draws and `p` pool draws, a packaging draw returns row `j + p` modulo the packaging
      rows, and a pool draw row `j + p` modulo the pool. */
  ghost predicate ModuloDraw(job: Supply, before: seq<Draw>, draw: Draw) {
    var turn := Calls(before, Next(Packaging)) + Calls(before, FromPool);
    && (draw.request == Next(Packaging) ==>
          Rows(job, Packaging) != [] && draw.ref == Rows(job, Packaging)[turn % |Rows(job, Packaging)|])
    && (draw.request == FromPool ==> job.pool != [] && draw.ref == job.pool[turn % |job.pool|])
  }

  lemma SharedTurnIsModulo(job: Supply, draws: seq<Draw>, draw: Draw)
    requires SharedTurn(job, draws, draw)
    ensures ModuloDraw(job, draws, draw)
  {
    var rows := Source(job, draw.request);
    if rows != [] {
      RemainderIsModulo(Shared(draws), |rows|);
    }
  }

  lemma SharedTurnsAreModulo(job: Supply, draws: seq<Draw>)
    requires SharedTurns(job, draws)
    ensures forall i :: 0 <= i < |draws| ==> ModuloDraw(job, draws[..i], draws[i])
  {
    forall i | 0 <= i < |draws| ensures ModuloDraw(job, draws[..i], draws[i]) {
      SharedTurnsAt(job, draws, i);
      SharedTurnIsModulo(job, draws[..i], draws[i]);
    }
  }

  /** Through all pages, for any assets, packaging and pool draws take turns by one shared count. */
  lemma PackagingDrawIsModulo(job: Supply, pages: seq<Page>)
    ensures var draws := AllDraws(job, pages);
      forall i :: 0 <= i < |draws| ==> ModuloDraw(job, draws[..i], draws[i])
  {
    AllShareTurns(job, Asked(pages), |pages|);
    SharedTurnsAreModulo(job, AllDraws(job, pages));
  }

  /** Before each packaging draw, the pool had been drawn a multiple of `n` times. */
  ghost predicate PoolInStep(draws: seq<Draw>, n: nat)
    requires n > 0
  {
    forall i :: 0 <= i < |draws| && draws[i].request == Next(Packaging) ==> Remainder(Calls(draws[..i], FromPool), n) == 0
  }

  lemma PoolInStepSnoc(draws: seq<Draw>, draw: Draw, n: nat)
    requires n > 0
    ensures PoolInStep(draws + [draw], n) <==>
      PoolInStep(draws, n) && (draw.request == Next(Packaging) ==> Remainder(Calls(draws, FromPool), n) == 0)
  {
    var all := draws + [draw];
    assert all[..|draws|] == draws;
    forall i | 0 <= i < |draws| ensures all[..i] == draws[..i] && all[i] == draws[i] {}
    if PoolInStep(all, n) {
      assert all[|draws|] == draw;
    }
  }

  lemma {:induction false} RemainderShift(j: nat, p: nat, n: nat)
    requires n > 0
    ensures Remainder(j + p, n) == Remainder(j, n) <==> Remainder(p, n) == 0
    decreases p
  {
    if p >= n {
      RemainderOnce(j + (p - n), n);
      RemainderShift(j, p - n, n);
    } else {
      RemainderSmall(j, p, n);
    }
  }

  lemma RemainderOnce(k: nat, n: nat)
    requires n > 0
    ensures Remainder(k + n, n) == Remainder(k, n)
  {
  }

  lemma {:induction false} RemainderSmall(j: nat, p: nat, n: nat)
    requires p < n
    ensures Remainder(j + p, n) == Remainder(j, n) <==> p == 0
    decreases j
  {
    if j >= n {
      RemainderOnce(j - n + p, n);
      RemainderSmall(j - n, p, n);
    } else if j + p >= n {
      assert Remainder(j + p, n) == Remainder(j + p - n, n) == j + p - n;
    }
  }

  lemma {:induction false} DrawnForCount(draws: seq<Draw>, role: Role)
    ensures |DrawnFor(draws, role)| == Calls(draws, Next(role))
  {
    if draws != [] {
      DrawnForCount(draws[..|draws| - 1], role);
    }
  }

  lemma RotatesSnocIff(refs: seq<Ref>, rows: seq<Ref>, ref: Ref)
    requires rows != []
    ensures Rotates(refs + [ref], rows) <==> Rotates(refs, rows) && ref == Turn(rows, |refs|)
  {
    var all := refs + [ref];
    if Rotates(all, rows) {
      assert all[|refs|] == ref;
      assert forall k :: 0 <= k < |refs| ==> refs[k] == all[k];
    }
  }

  lemma TurnsDiffer(rows: seq<Ref>, j: nat, p: nat)
    requires rows != [] && NoDup(rows)
    ensures Turn(rows, j + p) == Turn(rows, j) <==> Remainder(p, |rows|) == 0
  {
    RemainderShift(j, p, |rows|);
    var x, y := Remainder(j + p, |rows|), Remainder(j, |rows|);
    if x != y {
      assert rows[x] != rows[y];
    }
  }

  lemma DrawRotatesIff(job: Supply, before: seq<Draw>, last: Draw)
    requires Rows(job, Packaging) != [] && NoDup(Rows(job, Packaging)) && SharedTurn(job, before, last)
    ensures var rows := Rows(job, Packaging);
      Rotates(DrawnFor(before + [last], Packaging), rows) <==>
        && Rotates(DrawnFor(before, Packaging), rows)
        && (last.request == Next(Packaging) ==> Remainder(Calls(before, FromPool), |rows|) == 0)
  {
    DrawnForSnoc(before, last, Packaging);
    if last.request == Next(Packaging) {
      DrawnForCount(before, Packaging);
      RotatesSnocIff(DrawnFor(before, Packaging), Rows(job, Packaging), last.ref);
      TurnsDiffer(Rows(job, Packaging), Calls(before, Next(Packaging)), Calls(before, FromPool));
    }
  }

  lemma {:induction false} DrawsRotateIff(job: Supply, draws: seq<Draw>)
    requires Rows(job, Packaging) != [] && NoDup(Rows(job, Packaging)) && SharedTurns(job, draws)
    ensures Rotates(DrawnFor(draws, Packaging), Rows(job, Packaging)) <==> PoolInStep(draws, |Rows(job, Packaging)|)
  {
    if draws != [] {
      var before, last := draws[..|draws| - 1], draws[|draws| - 1];
      DrawsRotateIff(job, before);
      DrawRotatesIff(job, before, last);
      PoolInStepSnoc(before, last, |Rows(job, Packaging)|);
      assert draws == before + [last];
    }
  }

  /** Over distinct packaging assets, the packaging draws of any pages rotate exactly when before each of
      them the pool had been drawn a multiple of the number of those assets. */
  lemma PackagingRotatesIff(job: Supply, pages: seq<Page>)
    requires Rows(job, Packaging) != [] && NoDup(Rows(job, Packaging))
    ensures var draws, rows := AllDraws(job, pages), Rows(job, Packaging);
      Rotates(DrawnFor(draws, Packaging), rows) <==>
        forall i :: 0 <= i < |draws| && draws[i].request == Next(Packaging) ==> Calls(draws[..i], FromPool) % |rows| == 0
  {
    var draws, rows := AllDraws(job, pages), Rows(job, Packaging);
    AllShareTurns(job, Asked(pages), |pages|);
    DrawsRotateIff(job, draws);
    forall i | 0 <= i < |draws|
      ensures Remainder(Calls(draws[..i], FromPool), |rows|) == Calls(draws[..i], FromPool) % |rows|
    {
      RemainderIsModulo(Calls(draws[..i], FromPool), |rows|);
    }
  }

  /** Pages that anchor on packaging and ask for nothing else. */
  ghost predicate AnchorOnPackaging(pages: seq<Page>) {
    forall i :: 0 <= i < |pages| ==> pages[i] == Page([Packaging], [], [])
  }

  lemma PackagingRequests(page: Page)
    requires page == Page([Packaging], [], [])
    ensures Requests(page) == [Next(Packaging), FromPool]
  {
    assert Nexts(page.anchors, 0) == [];
  }

  /** One such page: the anchor draw, then the pool draw. */
  lemma OnePackagingPage(job: Supply, c: Counters, draws: seq<Draw>)
    requires Rows(job, Packaging) != [] && job.pool != []
    ensures var n := Count(c, Packaging);
      DrawsOf(job, c, [Next(Packaging), FromPool], 2, draws)
      == draws + [Draw(Next(Packaging), Turn(Rows(job, Packaging), n))] + [Draw(FromPool, Turn(job.pool, n + 1))]
  {
    var qs := [Next(Packaging), FromPool];
    assert CountersAfter(job, c, qs, 1) == Advanced(job, c, qs[0]);
    assert DrawsOf(job, c, qs, 1, draws) == draws + [Draw(qs[0], Turn(Rows(job, Packaging), Count(c, Packaging)))];
  }

  lemma CallsSnoc(draws: seq<Draw>, draw: Draw, q: Request)
    ensures Calls(draws + [draw], q) == Calls(draws, q) + if draw.request == q then 1 else 0
  {
    assert (draws + [draw])[..|draws|] == draws;
  }

  /** The supply of two packaging assets and nothing else. */
  lemma TwoPackagings(a: Ref, b: Ref, mainFirst: bool)
    requires a.role == b.role == Packaging
    ensures Rows(SupplyOf([a, b], mainFirst), Packaging) == [a, b] && SupplyOf([a, b], mainFirst).pool == [a, b]
  {
    var assets := [a, b];
    GroupIsOfRole(assets, Packaging, 2);
    GroupIsOfRole(assets, MainResult, 2);
    assert OfRole(assets, Packaging, 1) == [a];
    assert OfRole(assets, Packaging, 2) == [a] + [b];
    assert OfRole(assets, MainResult, 1) == [];
    assert OfRole(assets, MainResult, 2) == [];
  }

  lemma TwoMoreDraws(draws: seq<Draw>, a: Ref, b: Ref, k: nat)
    requires Calls(draws, Next(Packaging)) == Calls(draws, FromPool) == k && DrawnFor(draws, Packaging) == seq(k, i => a)
    ensures var after := draws + [Draw(Next(Packaging), a)] + [Draw(FromPool, b)];
      && Calls(after, Next(Packaging)) == Calls(after, FromPool) == k + 1
      && DrawnFor(after, Packaging) == seq(k + 1, i => a)
  {
    var first, second := Draw(Next(Packaging), a), Draw(FromPool, b);
    CallsSnoc(draws, first, Next(Packaging));
    CallsSnoc(draws, first, FromPool);
    CallsSnoc(draws + [first], second, Next(Packaging));
    CallsSnoc(draws + [first], second, FromPool);
    DrawnForSnoc(draws, first, Packaging);
    DrawnForSnoc(draws + [first], second, Packaging);
    assert seq(k + 1, i => a) == seq(k, i => a) + [a];
  }

  lemma TakesTurns(a: Ref, b: Ref, k: nat)
    ensures Turn([a, b], 2 * k) == a && Turn([a, b], 2 * k + 1) == b
  {
    RemainderIsModulo(2 * k, 2);
    RemainderIsModulo(2 * k + 1, 2);
  }

  ghost predicate OnFirst(draws: seq<Draw>, a: Ref, k: nat) {
    Calls(draws, Next(Packaging)) == Calls(draws, FromPool) == k && DrawnFor(draws, Packaging) == seq(k, i => a)
  }

  lemma PageStaysOnFirst(job: Supply, c: Counters, draws: seq<Draw>, a: Ref, b: Ref, k: nat)
    requires Rows(job, Packaging) == job.pool == [a, b]
    requires OnFirst(draws, a, k) && Count(c, Packaging) == Shared(draws)
    ensures OnFirst(DrawsOf(job, c, [Next(Packaging), FromPool], 2, draws), a, k + 1)
  {
    TakesTurns(a, b, k);
    OnePackagingPage(job, c, draws);
    TwoMoreDraws(draws, a, b, k);
  }

  lemma {:induction false} AnchorsStayOnFirst(job: Supply, batches: seq<seq<Request>>, a: Ref, b: Ref, k: nat)
    requires Rows(job, Packaging) == job.pool == [a, b]
    requires k <= |batches| && forall i :: 0 <= i < |batches| ==> batches[i] == [Next(Packaging), FromPool]
    ensures OnFirst(DrawsThrough(job, batches, k), a, k)
  {
    if k > 0 {
      AnchorsStayOnFirst(job, batches, a, b, k - 1);
      AllShareTurns(job, batches, k - 1);
      PageStaysOnFirst(job, CountersThrough(job, batches, k - 1), DrawsThrough(job, batches, k - 1), a, b, k - 1);
    }
  }

  /** So it can fail to rotate for ever: with two different packaging assets, pages that anchor on packaging
      all get the first of them, the pool's draw taking the other turn each time. */
  lemma PackagingAnchorNeverRotates(a: Ref, b: Ref, mainFirst: bool, pages: seq<Page>)
    requires a != b && a.role == b.role == Packaging && AnchorOnPackaging(pages) && |pages| >= 2
    ensures var job := SupplyOf([a, b], mainFirst);
      var refs := DrawnFor(AllDraws(job, pages), Packaging);
      && refs == seq(|pages|, i => a)
      && !Rotates(refs, Rows(job, Packaging))
  {
    var job := SupplyOf([a, b], mainFirst);
    TwoPackagings(a, b, mainFirst);
    forall i | 0 <= i < |pages| ensures Asked(pages)[i] == [Next(Packaging), FromPool] {
      PackagingRequests(pages[i]);
    }
    AnchorsStayOnFirst(job, Asked(pages), a, b, |pages|);
    var refs := DrawnFor(AllDraws(job, pages), Packaging);
    assert refs[1] == a && Turn([a, b], 1) == b;
  }

  // ---------------------------------------------------------------- one page's references

  /** No reference twice, and no role above its cap. */
  ghost predicate WellBound(refs: seq<Ref>) {
    NoDup(refs) && forall role :: RoleCount(refs, role, |refs|) <= Cap(role)
  }

  lemma {:induction false} RoleCountOfPrefix(refs: seq<Ref>, more: seq<Ref>, role: Role, n: nat)
    requires n <= |refs| <= |more| && refs == more[..|refs|]
    ensures RoleCount(refs, role, n) == RoleCount(more, role, n)
  {
    if n > 0 {
      RoleCountOfPrefix(refs, more, role, n - 1);
    }
  }

  lemma {:induction false} RoleCountGrows(refs: seq<Ref>, role: Role, n: nat, m: nat)
    requires n <= m <= |refs|
    ensures RoleCount(refs, role, n) <= RoleCount(refs, role, m)
  {
    if n < m {
      RoleCountGrows(refs, role, n, m - 1);
    }
  }

  lemma AppendKeepsWellBound(refs: seq<Ref>, ref: Ref)
    requires WellBound(refs)
    ensures WellBound(Appended(refs, ref))
  {
    var after := Appended(refs, ref);
    if after != refs {
      forall role ensures RoleCount(after, role, |after|) <= Cap(role) {
        RoleCountOfPrefix(refs, after, role, |refs|);
        assert RoleCount(refs, role, |refs|) <= Cap(role);
      }
    }
  }

  lemma {:induction false} RefsAreWellBound(job: Supply, c: Counters, qs: seq<Request>, n: nat)
    requires n <= |qs|
    ensures WellBound(RefsAfter(job, c, qs, n, []))
  {
    if n > 0 {
      RefsAreWellBound(job, c, qs, n - 1);
      var ref := Drawn(job, CountersAfter(job, c, qs, n - 1), qs[n - 1]);
      if ref.Some? {
        AppendKeepsWellBound(RefsAfter(job, c, qs, n - 1, []), ref.value);
      }
    }
  }

  lemma PrefixIsWellBound(refs: seq<Ref>)
    requires WellBound(refs)
    ensures WellBound(FirstFive(refs)) && |FirstFive(refs)| <= MaxReferences && FirstFive(refs) <= refs
  {
    var five := FirstFive(refs);
    forall role ensures RoleCount(five, role, |five|) <= Cap(role) {
      RoleCountOfPrefix(five, refs, role, |five|);
      RoleCountGrows(refs, role, |five|, |refs|);
      assert RoleCount(refs, role, |refs|) <= Cap(role);
    }
  }

  /** A page's references, whatever the counters: at most five, no duplicate, at most two of packaging and
      one of any other role. */
  lemma ReferencesAreWellBound(job: Supply, c: Counters, page: Page)
    ensures WellBound(References(job, c, page)) && |References(job, c, page)| <= MaxReferences
  {
    RefsAreWellBound(job, c, Requests(page), |Requests(page)|);
    PrefixIsWellBound(RefsAfter(job, c, Requests(page), |Requests(page)|, []));
  }

  // ---------------------------------------------------------------- anchors

  ghost predicate HasRole(refs: seq<Ref>, role: Role) {
    exists i :: 0 <= i < |refs| && refs[i].role == role
  }

  /** The anchors among the first `n` that have assets. */
  function Held(job: Supply, anchors: seq<Role>, n: nat): seq<Role>
    requires n <= |anchors|
  {
    if n == 0 then [] else
      var before := Held(job, anchors, n - 1);
      if Rows(job, anchors[n - 1]) != [] then before + [anchors[n - 1]] else before
  }

  /** Every anchor role that has assets is represented. */
  ghost predicate Covers(refs: seq<Ref>, held: seq<Role>) {
    forall i :: 0 <= i < |held| ==> HasRole(refs, held[i])
  }

  lemma {:induction false} RoleCountFindsRole(refs: seq<Ref>, role: Role, n: nat)
    requires n <= |refs| && RoleCount(refs, role, n) > 0
    ensures HasRole(refs, role)
  {
    if refs[n - 1].role != role {
      RoleCountFindsRole(refs, role, n - 1);
    }
  }

  lemma AppendedHasRole(refs: seq<Ref>, ref: Ref)
    ensures refs <= Appended(refs, ref) && |Appended(refs, ref)| <= |refs| + 1
    ensures HasRole(Appended(refs, ref), ref.role)
  {
    var after := Appended(refs, ref);
    if ref in refs {
      var i :| 0 <= i < |refs| && refs[i] == ref;
      assert after[i].role == ref.role;
    } else if RoleCount(refs, ref.role, |refs|) >= Cap(ref.role) {
      RoleCountFindsRole(refs, ref.role, |refs|);
    } else {
      assert after[|refs|].role == ref.role;
    }
  }

  lemma CoversMore(refs: seq<Ref>, more: seq<Ref>, held: seq<Role>)
    requires refs <= more && Covers(refs, held)
    ensures Covers(more, held)
  {
    forall i | 0 <= i < |held| ensures HasRole(more, held[i]) {
      assert HasRole(refs, held[i]);
      var j :| 0 <= j < |refs| && refs[j].role == held[i];
      assert more[j].role == held[i];
    }
  }

  lemma CoversSnoc(refs: seq<Ref>, held: seq<Role>, role: Role)
    requires Covers(refs, held) && HasRole(refs, role)
    ensures Covers(refs, held + [role])
  {
  }

  lemma AnchorDrawn(job: Supply, c: Counters, role: Role)
    requires Sorted(job.byRole)
    ensures var ref := Drawn(job, c, Next(role));
      (ref.Some? <==> Rows(job, role) != []) && (ref.Some? ==> ref.value.role == role)
  {
  }

  /** Drawing the anchors adds at most one reference for each that has assets, and represents each. */
  lemma {:induction false} AnchorsAreBound(job: Supply, c: Counters, anchors: seq<Role>, qs: seq<Request>, n: nat)
    requires Sorted(job.byRole) && n <= |anchors| <= |qs| && forall i :: 0 <= i < |anchors| ==> qs[i] == Next(anchors[i])
    ensures Covers(RefsAfter(job, c, qs, n, []), Held(job, anchors, n))
    ensures |RefsAfter(job, c, qs, n, [])| <= |Held(job, anchors, n)|
  {
    if n > 0 {
      AnchorsAreBound(job, c, anchors, qs, n - 1);
      var refs, now, held := RefsAfter(job, c, qs, n - 1, []), CountersAfter(job, c, qs, n - 1), Held(job, anchors, n - 1);
      AnchorDrawn(job, now, anchors[n - 1]);
      var ref := Drawn(job, now, qs[n - 1]);
      if ref.Some? {
        AppendedHasRole(refs, ref.value);
        CoversMore(refs, Appended(refs, ref.value), held);
        CoversSnoc(Appended(refs, ref.value), held, anchors[n - 1]);
      }
    }
  }

  lemma {:induction false} RefsOnlyGrow(job: Supply, c: Counters, qs: seq<Request>, n: nat, m: nat)
    requires n <= m <= |qs|
    ensures RefsAfter(job, c, qs, n, []) <= RefsAfter(job, c, qs, m, [])
  {
    if n < m {
      RefsOnlyGrow(job, c, qs, n, m - 1);
      var ref := Drawn(job, CountersAfter(job, c, qs, m - 1), qs[m - 1]);
      if ref.Some? {
        AppendedHasRole(RefsAfter(job, c, qs, m - 1, []), ref.value);
      }
    }
  }

  lemma {:induction false} NextsAt(roles: seq<Role>, n: nat)
    requires n <= |roles|
    ensures forall i :: 0 <= i < n ==> Nexts(roles, n)[i] == Next(roles[i])
  {
    if n > 0 {
      NextsAt(roles, n - 1);
    }
  }

  lemma AnchorsComeFirst(page: Page)
    ensures |page.anchors| <= |Requests(page)|
    ensures forall i :: 0 <= i < |page.anchors| ==> Requests(page)[i] == Next(page.anchors[i])
  {
    NextsAt(page.anchors, |page.anchors|);
  }

  lemma {:induction false} HeldIsDistinct(job: Supply, anchors: seq<Role>, n: nat)
    requires n <= |anchors| && NoDup(anchors)
    ensures NoDup(Held(job, anchors, n)) && forall x :: x in Held(job, anchors, n) ==> x in anchors[..n]
  {
    if n > 0 {
      HeldIsDistinct(job, anchors, n - 1);
      TakeSnoc(anchors, n - 1);
      assert anchors[n - 1] !in anchors[..n - 1];
    }
  }

  function RolesOf(refs: seq<Ref>): seq<Role> {
    seq(|refs|, i requires 0 <= i < |refs| => refs[i].role)
  }

  lemma DistinctNeedRoom(refs: seq<Ref>, held: seq<Role>)
    requires NoDup(held) && Covers(refs, held)
    ensures |held| <= |refs|
  {
    DistinctFillPlaces(held);
    NoMoreElementsThanPlaces(RolesOf(refs));
    forall x | x in held ensures x in RolesOf(refs) {
      var i :| 0 <= i < |held| && held[i] == x;
      assert HasRole(refs, held[i]);
      var j :| 0 <= j < |refs| && refs[j].role == x;
      assert RolesOf(refs)[j] == x;
    }
    SubsetIsNoLarger(Elements(held), Elements(RolesOf(refs)));
  }

  lemma FewAnchorsAreCovered(job: Supply, c: Counters, page: Page)
    requires Sorted(job.byRole) && |Held(job, page.anchors, |page.anchors|)| <= MaxReferences
    ensures Covers(References(job, c, page), Held(job, page.anchors, |page.anchors|))
  {
    var qs, n := Requests(page), |page.anchors|;
    AnchorsComeFirst(page);
    AnchorsAreBound(job, c, page.anchors, qs, n);
    RefsOnlyGrow(job, c, qs, n, |qs|);
    CoversMore(RefsAfter(job, c, qs, n, []), References(job, c, page), Held(job, page.anchors, n));
  }

  /** With distinct anchors, a page's references represent every anchor role that has assets exactly when
      there are at most five of those. */
  lemma AnchorsAreCoveredIff(job: Supply, c: Counters, page: Page)
    requires Sorted(job.byRole) && NoDup(page.anchors)
    ensures Covers(References(job, c, page), Held(job, page.anchors, |page.anchors|))
      <==> |Held(job, page.anchors, |page.anchors|)| <= MaxReferences
  {
    var held := Held(job, page.anchors, |page.anchors|);
    if |held| <= MaxReferences {
      FewAnchorsAreCovered(job, c, page);
    } else {
      HeldIsDistinct(job, page.anchors, |page.anchors|);
      if Covers(References(job, c, page), held) {
        DistinctNeedRoom(References(job, c, page), held);
      }
    }
  }

  /** So it is for the supply of any job: the anchors that have assets are those of which some asset has the
      role. */
  lemma JobAnchorsAreCoveredIff(assets: seq<Ref>, mainFirst: bool, c: Counters, page: Page)
    requires NoDup(page.anchors)
    ensures var job := SupplyOf(assets, mainFirst);
      var held := Held(job, page.anchors, |page.anchors|);
      && (forall role :: role in held <==> role in page.anchors && exists i :: 0 <= i < |assets| && assets[i].role == role)
      && (Covers(References(job, c, page), held) <==> |held| <= MaxReferences)
  {
    var job := SupplyOf(assets, mainFirst);
    GroupsAreSorted(assets);
    AnchorsAreCoveredIff(job, c, page);
    HeldMeaning(job, page.anchors, |page.anchors|);
    TakeAll(page.anchors);
    forall role: Role ensures Rows(job, role) != [] <==> exists i :: 0 <= i < |assets| && assets[i].role == role {
      GroupIsOfRole(assets, role, |assets|);
      OfRoleMeaning(assets, role, |assets|);
    }
  }

  lemma {:induction false} HeldMeaning(job: Supply, anchors: seq<Role>, n: nat)
    requires n <= |anchors|
    ensures forall role :: role in Held(job, anchors, n) <==> role in anchors[..n] && Rows(job, role) != []
  {
    if n > 0 {
      HeldMeaning(job, anchors, n - 1);
      TakeSnoc(anchors, n - 1);
    }
  }

  /** A page with six anchors, all of which have an asset: one of them is not represented. */
  lemma SixAnchorsAreNotCovered(mainFirst: bool)
    ensures var anchors := [Packaging, MainResult, DryLeaf, TeaSoup, LeafBottom, SceneRef];
      var assets := seq(6, i requires 0 <= i < 6 => Ref(i, anchors[i]));
      var job := SupplyOf(assets, mainFirst);
      && Held(job, anchors, 6) == anchors
      && !Covers(References(job, map[], Page(anchors, [], [])), anchors)
  {
    var anchors := [Packaging, MainResult, DryLeaf, TeaSoup, LeafBottom, SceneRef];
    var assets := seq(6, i requires 0 <= i < 6 => Ref(i, anchors[i]));
    var job := SupplyOf(assets, mainFirst);
    forall i | 0 <= i < 6 ensures Rows(job, anchors[i]) != [] {
      GroupIsOfRole(assets, anchors[i], 6);
      OfRoleMeaning(assets, anchors[i], 6);
      assert assets[i].role == anchors[i];
    }
    AllHeld(job, anchors, 6);
    TakeAll(anchors);
    JobAnchorsAreCoveredIff(assets, mainFirst, map[], Page(anchors, [], []));
  }

  lemma {:induction false} AllHeld(job: Supply, anchors: seq<Role>, n: nat)
    requires n <= |anchors| && forall i :: 0 <= i < n ==> Rows(job, anchors[i]) != []
    ensures Held(job, anchors, n) == anchors[..n]
  {
    if n > 0 {
      AllHeld(job, anchors, n - 1);
      TakeSnoc(anchors, n - 1);
    }
  }

  // ---------------------------------------------------------------- which references a page gets

  /** The packaging pool of a job: main results and packagings in upload order, the preferred kind first. */
  lemma PoolIsPreferredFirst(assets: seq<Ref>, mainFirst: bool)
    ensures var pool, results, packagings :=
              SupplyOf(assets, mainFirst).pool, OfRole(assets, MainResult, |assets|), OfRole(assets, Packaging, |assets|);
      pool == if mainFirst then results + packagings else packagings + results
  {
    GroupIsOfRole(assets, MainResult, |assets|);
    GroupIsOfRole(assets, Packaging, |assets|);
  }

  lemma NextsConcat(a: seq<Role>, b: seq<Role>)
    ensures Nexts(a + b, |a + b|) == Nexts(a, |a|) + Nexts(b, |b|)
  {
    NextsAt(a + b, |a + b|);
    NextsAt(a, |a|);
    NextsAt(b, |b|);
  }

  lemma NextsSnoc(a: seq<Role>, role: Role)
    ensures Nexts(a + [role], |a| + 1) == Nexts(a, |a|) + [Next(role)]
  {
    NextsAt(a, |a|);
    NextsAt(a + [role], |a|);
    assert Nexts(a + [role], |a|) == Nexts(a, |a|);
  }

  lemma {:induction false} SupplementsAre(roles: seq<Role>, n: nat)
    requires n <= |roles|
    ensures var kept := Where(roles[..n], (role: Role) => role == TeaSoup || role == SceneRef || role == BgRef);
      SupplementsUpTo(roles, n) == Nexts(kept, |kept|)
  {
    if n > 0 {
      SupplementsAre(roles, n - 1);
      TakeSnoc(roles, n - 1);
      assert roles[..n][..n - 1] == roles[..n - 1];
      NextsSnoc(Where(roles[..n - 1], (role: Role) => role == TeaSoup || role == SceneRef || role == BgRef), roles[n - 1]);
    }
  }

  lemma {:induction false} ScreensAre(suggested: seq<seq<Role>>, n: nat)
    requires n <= |suggested|
    ensures ScreensUpTo(suggested, n) == Nexts(Flatten(suggested[..n]), |Flatten(suggested[..n])|)
  {
    if n > 0 {
      ScreensAre(suggested, n - 1);
      TakeSnoc(suggested, n - 1);
      assert suggested[..n][..n - 1] == suggested[..n - 1];
      NextsConcat(Flatten(suggested[..n - 1]), suggested[n - 1]);
    }
  }

  /** A page asks for its anchors, then for its tea soup, scene and background supplements, then for one from the
      packaging pool, then for what its screens suggest, each in order. */
  lemma RequestsMeaning(page: Page)
    ensures var supplements := Where(page.supplements, (role: Role) => role == TeaSoup || role == SceneRef || role == BgRef);
      var suggested := Flatten(page.suggested);
      Requests(page) == Nexts(page.anchors, |page.anchors|) + Nexts(supplements, |supplements|) + [FromPool]
                        + Nexts(suggested, |suggested|)
  {
    SupplementsAre(page.supplements, |page.supplements|);
    ScreensAre(page.suggested, |page.suggested|);
    TakeAll(page.supplements);
    TakeAll(page.suggested);
  }

  /** The references drawn, kept or not. */
  function RefsOf(draws: seq<Draw>): seq<Ref> {
    seq(|draws|, i requires 0 <= i < |draws| => draws[i].ref)
  }

  ghost function DistinctOf(drawn: seq<Ref>, role: Role): set<Ref> {
    set ref | ref in drawn && ref.role == role
  }

  /** The reference drawn at position `i` is new, and fewer different ones of its role have been drawn before than
      the page may have: two packagings, or one of any other role. */
  ghost predicate IsKept(drawn: seq<Ref>, i: nat)
    requires i < |drawn|
  {
    && drawn[i] !in drawn[..i]
    && |DistinctOf(drawn[..i], drawn[i].role)| < (if drawn[i].role == Packaging then 2 else 1)
  }

  /** The drawn references that are kept, in order. */
  ghost function KeptOf(drawn: seq<Ref>): seq<Ref> {
    if drawn == [] then [] else
      var n := |drawn| - 1;
      var before := KeptOf(drawn[..n]);
      if IsKept(drawn, n) then before + [drawn[n]] else before
  }

  ghost predicate CountsDistinct(drawn: seq<Ref>, role: Role) {
    var kept, distinct, cap := KeptOf(drawn), |DistinctOf(drawn, role)|, if role == Packaging then 2 else 1;
    && (forall ref :: ref in kept ==> ref in drawn)
    && RoleCount(kept, role, |kept|) == (if distinct < cap then distinct else cap)
    && (distinct <= cap ==> forall ref :: ref in drawn && ref.role == role ==> ref in kept)
  }

  lemma DistinctSnoc(drawn: seq<Ref>, ref: Ref, role: Role)
    ensures DistinctOf(drawn + [ref], role)
      == if ref.role == role then DistinctOf(drawn, role) + {ref} else DistinctOf(drawn, role)
  {
  }

  lemma RoleCountSnoc(refs: seq<Ref>, ref: Ref, role: Role)
    ensures RoleCount(refs + [ref], role, |refs| + 1) == RoleCount(refs, role, |refs|) + if ref.role == role then 1 else 0
  {
    RoleCountOfPrefix(refs, refs + [ref], role, |refs|);
  }

  lemma {:induction false} KeptCountsDistinct(drawn: seq<Ref>, role: Role)
    ensures CountsDistinct(drawn, role)
  {
    if drawn == [] {
      assert DistinctOf(drawn, role) == {};
    } else {
      var n := |drawn| - 1;
      KeptCountsDistinct(drawn[..n], role);
      assert drawn == drawn[..n] + [drawn[n]];
      OneMoreDistinct(drawn[..n], drawn[n], role);
    }
  }

  lemma OneMoreDistinct(drawn: seq<Ref>, ref: Ref, role: Role)
    requires CountsDistinct(drawn, role)
    ensures CountsDistinct(drawn + [ref], role)
  {
    if ref.role != role {
      OtherRoleDrawn(drawn, ref, role);
    } else if ref in drawn {
      OldOneDrawn(drawn, ref);
    } else {
      NewOneDrawn(drawn, ref);
    }
  }

  lemma OtherRoleDrawn(drawn: seq<Ref>, ref: Ref, role: Role)
    requires CountsDistinct(drawn, role) && ref.role != role
    ensures CountsDistinct(drawn + [ref], role)
  {
    assert (drawn + [ref])[..|drawn|] == drawn;
    DistinctSnoc(drawn, ref, role);
    RoleCountSnoc(KeptOf(drawn), ref, role);
  }

  lemma OldOneDrawn(drawn: seq<Ref>, ref: Ref)
    requires CountsDistinct(drawn, ref.role) && ref in drawn
    ensures CountsDistinct(drawn + [ref], ref.role)
  {
    assert (drawn + [ref])[..|drawn|] == drawn;
    DistinctSnoc(drawn, ref, ref.role);
    assert DistinctOf(drawn, ref.role) + {ref} == DistinctOf(drawn, ref.role);
  }

  lemma NewOneDrawn(drawn: seq<Ref>, ref: Ref)
    requires CountsDistinct(drawn, ref.role) && ref !in drawn
    ensures CountsDistinct(drawn + [ref], ref.role)
  {
    assert (drawn + [ref])[..|drawn|] == drawn;
    DistinctSnoc(drawn, ref, ref.role);
    RoleCountSnoc(KeptOf(drawn), ref, ref.role);
    assert ref !in DistinctOf(drawn, ref.role);
    assert |DistinctOf(drawn, ref.role) + {ref}| == |DistinctOf(drawn, ref.role)| + 1;
  }

  /** Appending the next drawn reference is keeping it. */
  lemma AppendIsKeeping(drawn: seq<Ref>, ref: Ref)
    ensures Appended(KeptOf(drawn), ref) == KeptOf(drawn + [ref])
  {
    KeptCountsDistinct(drawn, ref.role);
    assert (drawn + [ref])[..|drawn|] == drawn;
    if ref in drawn && ref !in KeptOf(drawn) {
      assert ref in DistinctOf(drawn, ref.role);
    }
  }

  lemma {:induction false} RefsAreKept(job: Supply, c: Counters, qs: seq<Request>, n: nat)
    requires n <= |qs|
    ensures RefsAfter(job, c, qs, n, []) == KeptOf(RefsOf(DrawsOf(job, c, qs, n, [])))
  {
    if n > 0 {
      RefsAreKept(job, c, qs, n - 1);
      var draws, ref := DrawsOf(job, c, qs, n - 1, []), Drawn(job, CountersAfter(job, c, qs, n - 1), qs[n - 1]);
      if ref.Some? {
        AppendIsKeeping(RefsOf(draws), ref.value);
        assert RefsOf(draws + [Draw(qs[n - 1], ref.value)]) == RefsOf(draws) + [ref.value];
      }
    }
  }

  /** The references of a page are the first five of those it draws, in order, that are new and of whose role it
      has not drawn enough others before. */
  lemma ReferencesMeaning(job: Supply, c: Counters, page: Page)
    ensures var qs := Requests(page);
      var kept := KeptOf(RefsOf(DrawsOf(job, c, qs, |qs|, [])));
      References(job, c, page) == if |kept| <= 5 then kept else kept[..5]
  {
    RefsAreKept(job, c, Requests(page), |Requests(page)|);
  }

  // ---------------------------------------------------------------- the service

  lemma {:induction false} CountersConcat(job: Supply, c: Counters, qs: seq<Request>, more: seq<Request>, k: nat)
    requires k <= |more|
    ensures CountersAfter(job, c, qs + more, |qs| + k) == CountersAfter(job, CountersAfter(job, c, qs, |qs|), more, k)
  {
    if k == 0 {
      CountersOfPrefix(job, c, qs, more, |qs|);
    } else {
      CountersConcat(job, c, qs, more, k - 1);
      assert (qs + more)[|qs| + k - 1] == more[k - 1];
    }
  }

  lemma {:induction false} CountersOfPrefix(job: Supply, c: Counters, qs: seq<Request>, more: seq<Request>, n: nat)
    requires n <= |qs|
    ensures CountersAfter(job, c, qs + more, n) == CountersAfter(job, c, qs, n)
  {
    if n > 0 {
      CountersOfPrefix(job, c, qs, more, n - 1);
    }
  }

  lemma {:induction false} RefsOfPrefix(job: Supply, c: Counters, qs: seq<Request>, more: seq<Request>, n: nat, refs: seq<Ref>)
    requires n <= |qs|
    ensures RefsAfter(job, c, qs + more, n, refs) == RefsAfter(job, c, qs, n, refs)
  {
    if n > 0 {
      RefsOfPrefix(job, c, qs, more, n - 1, refs);
      CountersOfPrefix(job, c, qs, more, n - 1);
    }
  }

  lemma {:induction false} RefsConcat(job: Supply, c: Counters, qs: seq<Request>, more: seq<Request>, k: nat, refs: seq<Ref>)
    requires k <= |more|
    ensures RefsAfter(job, c, qs + more, |qs| + k, refs)
      == RefsAfter(job, CountersAfter(job, c, qs, |qs|), more, k, RefsAfter(job, c, qs, |qs|, refs))
  {
    if k == 0 {
      RefsOfPrefix(job, c, qs, more, |qs|, refs);
    } else {
      RefsConcat(job, c, qs, more, k - 1, refs);
      CountersConcat(job, c, qs, more, k - 1);
      assert (qs + more)[|qs| + k - 1] == more[k - 1];
    }
  }

  /** Counters and references after a list of requests. */
  ghost predicate Bound(job: Supply, c: Counters, refs: seq<Ref>, qs: seq<Request>, after: Counters, afterRefs: seq<Ref>) {
    after == CountersAfter(job, c, qs, |qs|) && afterRefs == RefsAfter(job, c, qs, |qs|, refs)
  }

  lemma BoundConcat(
    job: Supply, c: Counters, refs: seq<Ref>, qs: seq<Request>, mid: Counters, midRefs: seq<Ref>,
    more: seq<Request>, after: Counters, afterRefs: seq<Ref>)
    requires Bound(job, c, refs, qs, mid, midRefs) && Bound(job, mid, midRefs, more, after, afterRefs)
    ensures Bound(job, c, refs, qs + more, after, afterRefs)
  {
    assert |qs + more| == |qs| + |more|;
    CountersConcat(job, c, qs, more, |more|);
    RefsConcat(job, c, qs, more, |more|, refs);
  }

  lemma BoundNothing(job: Supply, c: Counters, refs: seq<Ref>)
    ensures Bound(job, c, refs, [], c, refs)
  {
  }

  lemma BoundOne(job: Supply, c: Counters, refs: seq<Ref>, q: Request)
    ensures var ref := Drawn(job, c, q);
      Bound(job, c, refs, [q], Advanced(job, c, q), if ref.Some? then Appended(refs, ref.value) else refs)
  {
    assert CountersAfter(job, c, [q], 0) == c;
  }

  /** One page: its references, and the counters after it. */
  ghost predicate PageBound(job: Supply, c: Counters, page: Page, after: Counters, refs: seq<Ref>) {
    refs == References(job, c, page) && after == CountersAfter(job, c, Requests(page), |Requests(page)|)
  }

  /** The first `k` pages. */
  ghost predicate PagesBound(job: Supply, pages: seq<Page>, k: nat, c: Counters, bound: seq<seq<Ref>>) {
    k <= |pages| && c == CountersThrough(job, Asked(pages), k) && bound == PromptReferences(job, pages, k)
  }

  lemma NextPageBound(
    job: Supply, pages: seq<Page>, k: nat, c: Counters, bound: seq<seq<Ref>>, after: Counters, refs: seq<Ref>)
    requires k < |pages| && PagesBound(job, pages, k, c, bound) && PageBound(job, c, pages[k], after, refs)
    ensures PagesBound(job, pages, k + 1, after, bound + [refs])
  {
  }

  /** The binding part of `DetailPromptService`: `role_indices` and the loops that advance it. */
  class ReferenceBinder {
    const job: Supply
    var indices: Counters

    constructor (job: Supply)
      ensures this.job == job && indices == map[]
    {
      this.job, indices := job, map[];
    }

    /** `_next_asset`, and the draw from the packaging pool. */
    method DrawNext(q: Request) returns (ref: Option<Ref>)
      modifies this
      ensures ref == Drawn(job, old(indices), q)
      ensures indices == Advanced(job, old(indices), q)
    {
      var rows := Source(job, q);
      if rows == [] {
        return None;
      }
      var role := CounterOf(q);
      var k := Count(indices, role);
      RemainderIsModulo(k, |rows|);
      indices := indices[role := k + 1];
      return Some(rows[k % |rows|]);
    }

    /** `_append_ref`; the count is taken with a loop. */
    method AppendRef(refs: seq<Ref>, candidate: Ref) returns (after: seq<Ref>)
      ensures after == Appended(refs, candidate)
    {
      if candidate in refs {
        return refs;
      }
      var count := 0;
      for i := 0 to |refs|
        invariant count == RoleCount(refs, candidate.role, i)
      {
        if refs[i].role == candidate.role {
          count := count + 1;
        }
      }
      if count >= Cap(candidate.role) {
        return refs;
      }
      return refs + [candidate];
    }

    method Bind(refs: seq<Ref>, q: Request) returns (after: seq<Ref>)
      modifies this
      ensures Bound(job, old(indices), refs, [q], indices, after)
    {
      BoundOne(job, indices, refs, q);
      var ref := DrawNext(q);
      after := refs;
      if ref.Some? {
        after := AppendRef(refs, ref.value);
      }
    }

    method BindRoles(refs: seq<Ref>, roles: seq<Role>) returns (after: seq<Ref>)
      modifies this
      ensures Bound(job, old(indices), refs, Nexts(roles, |roles|), indices, after)
    {
      after := refs;
      BoundNothing(job, indices, refs);
      for i := 0 to |roles|
        invariant Bound(job, old(indices), refs, Nexts(roles, i), indices, after)
      {
        ghost var mid, midRefs := indices, after;
        after := Bind(after, Next(roles[i]));
        BoundConcat(job, old(indices), refs, Nexts(roles, i), mid, midRefs, [Next(roles[i])], indices, after);
      }
    }

    method BindSupplements(refs: seq<Ref>, roles: seq<Role>) returns (after: seq<Ref>)
      modifies this
      ensures Bound(job, old(indices), refs, SupplementsUpTo(roles, |roles|), indices, after)
    {
      after := refs;
      BoundNothing(job, indices, refs);
      for i := 0 to |roles|
        invariant Bound(job, old(indices), refs, SupplementsUpTo(roles, i), indices, after)
      {
        if roles[i] in Supplementary {
          ghost var mid, midRefs := indices, after;
          after := Bind(after, Next(roles[i]));
          BoundConcat(job, old(indices), refs, SupplementsUpTo(roles, i), mid, midRefs, [Next(roles[i])], indices, after);
        }
      }
    }

    method BindScreens(refs: seq<Ref>, suggested: seq<seq<Role>>) returns (after: seq<Ref>)
      modifies this
      ensures Bound(job, old(indices), refs, ScreensUpTo(suggested, |suggested|), indices, after)
    {
      after := refs;
      BoundNothing(job, indices, refs);
      for i := 0 to |suggested|
        invariant Bound(job, old(indices), refs, ScreensUpTo(suggested, i), indices, after)
      {
        ghost var mid, midRefs := indices, after;
        after := BindRoles(after, suggested[i]);
        BoundConcat(job, old(indices), refs, ScreensUpTo(suggested, i), mid, midRefs,
                    Nexts(suggested[i], |suggested[i]|), indices, after);
      }
    }

    /** `_resolve_references`. */
    method ResolveReferences(page: Page) returns (refs: seq<Ref>)
      modifies this
      ensures PageBound(job, old(indices), page, indices, refs)
    {
      ghost var c := indices;
      var anchored := BindRoles([], page.anchors);
      ghost var anchorsDone := indices;
      ghost var asked := Nexts(page.anchors, |page.anchors|);
      var supplemented := BindSupplements(anchored, page.supplements);
      ghost var more := SupplementsUpTo(page.supplements, |page.supplements|);
      BoundConcat(job, c, [], asked, anchorsDone, anchored, more, indices, supplemented);
      ghost var supplementsDone := indices;
      var packaged := Bind(supplemented, FromPool);
      BoundConcat(job, c, [], asked + more, supplementsDone, supplemented, [FromPool], indices, packaged);
      ghost var packagingDone := indices;
      var all := BindScreens(packaged, page.suggested);
      BoundConcat(job, c, [], asked + more + [FromPool], packagingDone, packaged,
                  ScreensUpTo(page.suggested, |page.suggested|), indices, all);
      refs := if |all| > MaxReferences then all[..MaxReferences] else all;
    }

    /** The page loop of `build_prompt_plan`. */
    method BindPages(pages: seq<Page>) returns (bound: seq<seq<Ref>>)
      requires indices == map[]
      modifies this
      ensures PagesBound(job, pages, |pages|, indices, bound)
    {
      bound := [];
      for k := 0 to |pages|
        invariant PagesBound(job, pages, k, indices, bound)
      {
        ghost var c, before := indices, bound;
        var refs := ResolveReferences(pages[k]);
        NextPageBound(job, pages, k, c, before, indices, refs);
        bound := bound + [refs];
      }
    }
  }

  /** `_group_assets_by_role` and `_build_packaging_pool`. */
  method GroupAssets(assets: seq<Ref>, mainFirst: bool) returns (job: Supply)
    ensures job == SupplyOf(assets, mainFirst)
  {
    var byRole: map<Role, seq<Ref>> := map[];
    for n := 0 to |assets|
      invariant byRole == Grouped(assets, n)
    {
      byRole := byRole[assets[n].role := RowsIn(byRole, assets[n].role) + [assets[n]]];
    }
    var pool: seq<Ref> := [];
    if mainFirst {
      pool := pool + RowsIn(byRole, MainResult);
      pool := pool + RowsIn(byRole, Packaging);
    } else {
      pool := pool + RowsIn(byRole, Packaging);
      pool := pool + RowsIn(byRole, MainResult);
    }
    return Supply(byRole, pool);
  }
}
