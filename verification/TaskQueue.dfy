/**
 The single-worker task queue: a `Queue`, a deque of pending ids and an active id, which the
 enqueueing calls and the worker threads update in separate critical sections.

 `State` and `Apply` are the protocol: one constructor of `Step` per critical section, so a run is
 any interleaving of any number of enqueue calls with the worker threads. The class `Queue` holds
 the mutable fields, one method per critical section, each proved to perform its step.
 */
module TaskQueue {
  import opened Sequences

  /** A task id is a UUID, the hex form of a number; the queue only compares ids. */
  type TaskId = nat

  /** Where a worker thread stands in its loop. */
  datatype Worker =
    | Waiting                // blocked on Queue.get
    | Holding(id: TaskId)    // has the item, has not entered the critical section
    | Executing(id: TaskId)  // the executor is running
    | Unwinding              // the executor raised, `finally` is done, the thread is still alive
    | Dead

  datatype State = State(
    queue: seq<TaskId>,
    pending: seq<TaskId>,
    active: Option<TaskId>,
    threads: seq<Worker>,          // every thread ever started; `_worker` is the last one
    ready: multiset<TaskId>,       // enqueue calls that ensured a worker and have not appended yet
    inFlight: multiset<TaskId>,    // enqueue calls between the append and the put
    announced: seq<TaskId>,        // history: ids in append order
    put: seq<TaskId>,              // history: ids in put order
    started: seq<TaskId>,          // history: ids in activation order
    finished: seq<TaskId>)         // history: ids whose `finally` block has run

  const Initial: State :=
    State([], [], None, [], multiset{}, multiset{}, [], [], [], [])

  datatype Step =
    | Ensure(id: TaskId)
    | Append(id: TaskId)
    | Put(id: TaskId)
    | Get(w: nat)
    | Activate(w: nat)
    | Finish(w: nat, raised: bool)
    | Die(w: nat)

  /** `self._worker is not None and self._worker.is_alive()`. */
  predicate WorkerAlive(threads: seq<Worker>) {
    |threads| > 0 && threads[|threads| - 1] != Dead
  }

  predicate Enabled(s: State, step: Step) {
    match step
    case Ensure(id) => true
    case Append(id) => id in s.ready
    case Put(id) => id in s.inFlight
    case Get(w) => w < |s.threads| && s.threads[w] == Waiting && s.queue != []
    case Activate(w) => w < |s.threads| && s.threads[w].Holding?
    case Finish(w, raised) => w < |s.threads| && s.threads[w].Executing?
    case Die(w) => w < |s.threads| && s.threads[w] == Unwinding
  }

  function Apply(s: State, step: Step): State
    requires Enabled(s, step)
  {
    match step
    case Ensure(id) =>
      s.(threads := if WorkerAlive(s.threads) then s.threads else s.threads + [Waiting],
         ready := s.ready + multiset{id})
    case Append(id) =>
      s.(pending := s.pending + [id],
         ready := s.ready - multiset{id},
         inFlight := s.inFlight + multiset{id},
         announced := s.announced + [id])
    case Put(id) =>
      s.(queue := s.queue + [id], inFlight := s.inFlight - multiset{id}, put := s.put + [id])
    case Get(w) =>
      s.(queue := s.queue[1..], threads := s.threads[w := Holding(s.queue[0])])
    case Activate(w) =>
      var id := s.threads[w].id;
      s.(pending := if id in s.pending then RemoveFirst(s.pending, id) else s.pending,
         active := Some(id),
         threads := s.threads[w := Executing(id)],
         started := s.started + [id])
    case Finish(w, raised) =>
      var id := s.threads[w].id;
      s.(active := if s.active == Some(id) then None else s.active,
         threads := s.threads[w := if raised then Unwinding else Waiting],
         finished := s.finished + [id])
    case Die(w) => s.(threads := s.threads[w := Dead])
  }

  /** A run: every step is enabled where it is taken. */
  predicate Legal(s: State, steps: seq<Step>)
    decreases |steps|
  {
    steps == [] || (Enabled(s, steps[0]) && Legal(Apply(s, steps[0]), steps[1..]))
  }

  function Run(s: State, steps: seq<Step>): State
    requires Legal(s, steps)
    decreases |steps|
  {
    if steps == [] then s else Run(Apply(s, steps[0]), steps[1..])
  }

  /** Enqueue calls do not overlap between the append and the put. */
  predicate Serialised(s: State, steps: seq<Step>)
    requires Legal(s, steps)
    decreases |steps|
  {
    steps == [] ||
    ((steps[0].Append? ==> s.inFlight == multiset{}) && Serialised(Apply(s, steps[0]), steps[1..]))
  }

  // ---------------------------------------------------------------- what a caller observes

  datatype Snapshot = Snapshot(active: Option<TaskId>, position: Option<nat>, size: nat)

  /** `get_snapshot`: one read of the pending deque and the active id under the lock. */
  function SnapshotOf(s: State, id: TaskId): Snapshot {
    var busy := if s.active.Some? then 1 else 0;
    Snapshot(
      s.active,
      if s.active == Some(id) then Some(0)
      else if id in s.pending then Some(IndexOf(s.pending, id) + busy)
      else None,
      |s.pending| + busy)
  }

  // ---------------------------------------------------------------- the invariant

  /** The items taken from the queue and not yet activated. */
  function Held(s: State): seq<TaskId> {
    if |s.threads| > 0 && s.threads[|s.threads| - 1].Holding? then [s.threads[|s.threads| - 1].id] else []
  }

  /** The items being executed. */
  function Running(s: State): seq<TaskId> {
    if |s.threads| > 0 && s.threads[|s.threads| - 1].Executing? then [s.threads[|s.threads| - 1].id] else []
  }

  /** Only the last thread can be alive. */
  ghost predicate OneWorker(s: State) {
    forall w :: 0 <= w < |s.threads| - 1 ==> s.threads[w] == Dead
  }

  /** Every in-flight item is accounted for: in the queue, between append and put, or held. */
  ghost predicate Accounted(s: State) {
    && multiset(s.pending) == multiset(s.queue) + s.inFlight + multiset(Held(s))
    && multiset(s.announced) == multiset(s.put) + s.inFlight
  }

  /** Items leave in the order of the puts, one at a time. */
  ghost predicate FirstInFirstOut(s: State) {
    && s.put == s.started + Held(s) + s.queue
    && s.started == s.finished + Running(s)
    && s.active == (if Running(s) == [] then None else Some(Running(s)[0]))
  }

  ghost predicate Inv(s: State) {
    OneWorker(s) && Accounted(s) && FirstInFirstOut(s)
  }

  lemma PutKeepsOrder(s: State, id: TaskId)
    requires FirstInFirstOut(s) && Enabled(s, Put(id))
    ensures FirstInFirstOut(Apply(s, Put(id)))
  {
    Associative(s.started + Held(s), s.queue, [id]);
  }

  lemma GetKeepsOrder(s: State, w: nat)
    requires OneWorker(s) && FirstInFirstOut(s) && Enabled(s, Get(w))
    ensures OneWorker(Apply(s, Get(w))) && FirstInFirstOut(Apply(s, Get(w)))
  {
    assert w == |s.threads| - 1;
    assert s.queue == [s.queue[0]] + s.queue[1..];
    assert s.started + [] + s.queue == s.started + [s.queue[0]] + s.queue[1..];
  }

  lemma ActivateKeepsOrder(s: State, w: nat)
    requires OneWorker(s) && FirstInFirstOut(s) && Enabled(s, Activate(w))
    ensures OneWorker(Apply(s, Activate(w))) && FirstInFirstOut(Apply(s, Activate(w)))
  {
    assert w == |s.threads| - 1;
    assert s.started + Held(s) + s.queue == (s.started + Held(s)) + [] + s.queue;
  }

  lemma FinishKeepsOrder(s: State, w: nat, raised: bool)
    requires OneWorker(s) && FirstInFirstOut(s) && Enabled(s, Finish(w, raised))
    ensures OneWorker(Apply(s, Finish(w, raised))) && FirstInFirstOut(Apply(s, Finish(w, raised)))
  {
    assert w == |s.threads| - 1;
  }

  lemma StepKeepsOrder(s: State, step: Step)
    requires OneWorker(s) && FirstInFirstOut(s) && Enabled(s, step)
    ensures OneWorker(Apply(s, step)) && FirstInFirstOut(Apply(s, step))
  {
    match step
    case Put(id) => PutKeepsOrder(s, id);
    case Get(w) => GetKeepsOrder(s, w);
    case Activate(w) => ActivateKeepsOrder(s, w);
    case Finish(w, raised) => FinishKeepsOrder(s, w, raised);
    case _ =>
  }

  lemma GetKeepsAccounts(s: State, w: nat)
    requires Inv(s) && Enabled(s, Get(w))
    ensures Accounted(Apply(s, Get(w)))
  {
    var t := Apply(s, Get(w));
    assert w == |s.threads| - 1;
    assert s.queue == [s.queue[0]] + s.queue[1..];
    assert Held(s) == [] && Held(t) == [s.queue[0]];
  }

  lemma ActivateKeepsAccounts(s: State, w: nat)
    requires Inv(s) && Enabled(s, Activate(w))
    ensures Accounted(Apply(s, Activate(w)))
  {
    var t := Apply(s, Activate(w));
    assert w == |s.threads| - 1;
    HeldIsPending(s);
    RemoveFirstMultiset(s.pending, s.threads[w].id);
    assert Held(s) == [s.threads[w].id] && Held(t) == [];
  }

  lemma AppendKeepsAccounts(s: State, id: TaskId)
    requires Accounted(s) && Enabled(s, Append(id))
    ensures Accounted(Apply(s, Append(id)))
  {
  }

  /** An item that moves from the calls in flight into a list stays accounted for. */
  lemma MoveIntoList(list: seq<TaskId>, inFlight: multiset<TaskId>, id: TaskId)
    requires id in inFlight
    ensures multiset(list + [id]) + (inFlight - multiset{id}) == multiset(list) + inFlight
  {
    assert inFlight == (inFlight - multiset{id}) + multiset{id};
    assert multiset(list + [id]) == multiset(list) + multiset{id};
  }

  lemma PutKeepsAccounts(s: State, id: TaskId)
    requires Accounted(s) && Enabled(s, Put(id))
    ensures Accounted(Apply(s, Put(id)))
  {
    MoveIntoList(s.queue, s.inFlight, id);
    MoveIntoList(s.put, s.inFlight, id);
  }

  lemma SameAccounts(s: State, t: State)
    requires Accounted(s) && Held(t) == Held(s)
    requires t.pending == s.pending && t.queue == s.queue && t.inFlight == s.inFlight
    requires t.announced == s.announced && t.put == s.put
    ensures Accounted(t)
  {
  }

  lemma QuietStep(s: State, step: Step)
    requires OneWorker(s) && Enabled(s, step) && (step.Ensure? || step.Finish? || step.Die?)
    ensures var t := Apply(s, step);
      && Held(t) == Held(s) && t.pending == s.pending && t.queue == s.queue && t.inFlight == s.inFlight
      && t.announced == s.announced && t.put == s.put
  {
  }

  lemma StepKeepsAccounts(s: State, step: Step)
    requires Inv(s) && Enabled(s, step)
    ensures Accounted(Apply(s, step))
  {
    match step
    case Append(id) => AppendKeepsAccounts(s, id);
    case Put(id) => PutKeepsAccounts(s, id);
    case Get(w) => GetKeepsAccounts(s, w);
    case Activate(w) => ActivateKeepsAccounts(s, w);
    case _ =>
      QuietStep(s, step);
      SameAccounts(s, Apply(s, step));
  }

  lemma StepKeepsInv(s: State, step: Step)
    requires Inv(s) && Enabled(s, step)
    ensures Inv(Apply(s, step))
  {
    StepKeepsOrder(s, step);
    StepKeepsAccounts(s, step);
  }

  /** The worker's `remove` always finds the id it holds. */
  lemma HeldIsPending(s: State)
    requires Inv(s) && Held(s) != []
    ensures Held(s)[0] in s.pending
  {
    assert Held(s)[0] in multiset(Held(s));
    assert Held(s)[0] in multiset(s.pending);
  }

  lemma {:induction false} RunKeepsInv(s: State, steps: seq<Step>)
    requires Inv(s) && Legal(s, steps)
    ensures Inv(Run(s, steps))
    decreases |steps|
  {
    if steps != [] {
      StepKeepsInv(s, steps[0]);
      RunKeepsInv(Apply(s, steps[0]), steps[1..]);
    }
  }

  // ---------------------------------------------------------------- safety over whole runs

  /** In every reachable state the reported size is the announced enqueues minus the finished tasks,
      and nothing is lost or duplicated on the way: what is announced is finished, running or pending. */
  lemma SizeCountsUnfinished(steps: seq<Step>, id: TaskId)
    requires Legal(Initial, steps)
    ensures var s := Run(Initial, steps);
      && SnapshotOf(s, id).size == |s.announced| - |s.finished|
      && multiset(s.announced) == multiset(s.finished) + multiset(Running(s)) + multiset(s.pending)
  {
    RunKeepsInv(Initial, steps);
    var s := Run(Initial, steps);
    assert multiset(s.put) == multiset(s.finished) + multiset(Running(s)) + multiset(Held(s)) + multiset(s.queue);
    assert |multiset(s.announced)| == |s.announced|;
    assert |multiset(s.finished) + multiset(Running(s)) + multiset(s.pending)|
        == |s.finished| + |Running(s)| + |s.pending|;
  }

  /** What a snapshot says of any id, repeated or not, in every reachable state: its position is absent exactly
      when every announcement of it has finished, or there was none. Otherwise it is the first place of the
      id in the line of the started but unfinished task, if any, followed by the pending ones. */
  lemma PositionIsAbsentIff(steps: seq<Step>, id: TaskId)
    requires Legal(Initial, steps)
    ensures var s := Run(Initial, steps);
      var line, position := Running(s) + s.pending, SnapshotOf(s, id).position;
      && (position.None? <==> multiset(s.announced)[id] == multiset(s.finished)[id])
      && (position.Some? ==> id in line && position.value == IndexOf(line, id))
  {
    RunKeepsInv(Initial, steps);
    SizeCountsUnfinished(steps, id);
    PlaceInLine(Run(Initial, steps), id);
  }

  lemma PlaceInLine(s: State, id: TaskId)
    requires FirstInFirstOut(s)
    ensures var line, position := Running(s) + s.pending, SnapshotOf(s, id).position;
      && (position.Some? <==> id in line)
      && (position.Some? ==> position.value == IndexOf(line, id))
      && (id in line <==> multiset(Running(s))[id] + multiset(s.pending)[id] > 0)
  {
    var line := Running(s) + s.pending;
    assert id in line <==> id in multiset(line);
    if Running(s) != [] {
      assert line[0] == s.active.value && line[1..] == s.pending;
    } else {
      assert line == s.pending;
    }
  }

  /** The snapshot names a task as active exactly when it is the one that was started and has not finished. */
  lemma ActiveIsStartedUnfinished(steps: seq<Step>, id: TaskId, x: TaskId)
    requires Legal(Initial, steps)
    ensures var s := Run(Initial, steps);
      && (SnapshotOf(s, id).active == Some(x) <==> s.started == s.finished + [x])
      && (SnapshotOf(s, id).active.None? <==> s.started == s.finished)
  {
    RunKeepsInv(Initial, steps);
    var s := Run(Initial, steps);
    if s.started == s.finished + [x] {
      assert s.started[|s.finished|] == x;
    }
  }

  /** In every reachable state at most one worker thread is alive, tasks were started in put order,
      and all of them but the active one have finished. */
  lemma OneAtATimeInPutOrder(steps: seq<Step>)
    requires Legal(Initial, steps)
    ensures var s := Run(Initial, steps);
      && (forall w :: 0 <= w < |s.threads| - 1 ==> s.threads[w] == Dead)
      && s.started <= s.put
      && s.started == s.finished + (if s.active.Some? then [s.active.value] else [])
  {
    RunKeepsInv(Initial, steps);
    StartedPrefix(Run(Initial, steps));
  }

  lemma StartedPrefix(s: State)
    requires FirstInFirstOut(s)
    ensures s.started <= s.put
  {
    assert s.put == s.started + (Held(s) + s.queue);
  }

  /** In every reachable state the id a worker is about to remove is in the pending deque, no task is
      active then, and the executor that finishes is the one of the active task. */
  lemma WorkerFindsItsTask(steps: seq<Step>, w: nat)
    requires Legal(Initial, steps) && w < |Run(Initial, steps).threads|
    ensures var s := Run(Initial, steps);
      && (s.threads[w].Holding? ==> s.threads[w].id in s.pending && s.active == None)
      && (s.threads[w].Executing? ==> s.active == Some(s.threads[w].id))
  {
    RunKeepsInv(Initial, steps);
    var s := Run(Initial, steps);
    if s.threads[w].Holding? {
      assert w == |s.threads| - 1;
      HeldIsPending(s);
    }
  }

  /** With distinct ids, no task is ever started twice. */
  lemma RunsAtMostOnce(steps: seq<Step>)
    requires Legal(Initial, steps) && NoDup(Run(Initial, steps).announced)
    ensures NoDup(Run(Initial, steps).started)
  {
    RunKeepsInv(Initial, steps);
    InvNoDup(Run(Initial, steps));
  }

  lemma PutParts(s: State)
    requires FirstInFirstOut(s)
    ensures multiset(s.put) == multiset(s.started) + multiset(Held(s)) + multiset(s.queue)
  {
  }

  lemma InvNoDup(s: State)
    requires Inv(s) && NoDup(s.announced)
    ensures NoDup(s.put) && NoDup(s.started) && NoDup(s.pending)
  {
    PutParts(s);
    SubBag(s.put, s.announced);
    SubBag(s.pending, s.announced);
    SubBag(s.started, s.put);
  }

  lemma SubBag(s: seq<TaskId>, t: seq<TaskId>)
    requires multiset(s) <= multiset(t) && NoDup(t)
    ensures NoDup(s)
  {
    NoDupMultiset(t);
    MultisetNoDup(s);
  }

  lemma {:induction false} NoDupMultiset(s: seq<TaskId>)
    requires NoDup(s)
    ensures forall x :: multiset(s)[x] <= 1
  {
    if s != [] {
      NoDupMultiset(s[1..]);
      assert s == [s[0]] + s[1..];
      assert s[0] !in s[1..];
    }
  }

  lemma {:induction false} MultisetNoDup(s: seq<TaskId>)
    requires forall x :: multiset(s)[x] <= 1
    ensures NoDup(s)
  {
    if s != [] {
      assert s == [s[0]] + s[1..];
      forall x ensures multiset(s[1..])[x] <= 1 {
        assert multiset(s)[x] == multiset([s[0]])[x] + multiset(s[1..])[x];
      }
      MultisetNoDup(s[1..]);
      assert multiset(s)[s[0]] == 1 + multiset(s[1..])[s[0]];
      assert s[0] !in s[1..];
    }
  }

  // ---------------------------------------------------------------- queue positions

  ghost predicate Unfinished(s: State, id: TaskId) {
    id in s.announced && id !in s.finished
  }

  /** The number of unfinished tasks announced before `id`. */
  ghost function Ahead(s: State, id: TaskId): nat
    requires id in s.announced
  {
    |Without(s.announced[..IndexOf(s.announced, id)], Elements(s.finished))|
  }

  /** The active task was announced after `id`: its put overtook the put of `id`. */
  ghost predicate Overtaken(s: State, id: TaskId)
    requires id in s.announced
  {
    s.active.Some? && s.active.value !in s.announced[..IndexOf(s.announced, id) + 1]
  }

  /** The pending deque is what has been announced and not started, in announcement order. */
  ghost predicate PendingOrder(s: State) {
    s.pending == Without(s.announced, Elements(s.started))
  }

  /** What the position lemmas need of a reachable state with distinct ids. */
  ghost predicate Orderly(s: State) {
    && OneWorker(s) && FirstInFirstOut(s)
    && NoDup(s.announced) && NoDup(s.started) && NoDup(s.pending)
    && (forall id :: id in s.started ==> id in s.announced)
    && (Held(s) != [] ==> Held(s)[0] in s.pending)
  }

  lemma InvIsOrderly(s: State)
    requires Inv(s) && NoDup(s.announced)
    ensures Orderly(s)
  {
    InvNoDup(s);
    if Held(s) != [] {
      HeldIsPending(s);
    }
    forall id | id in s.started ensures id in s.announced {
      StartedWasAnnounced(s, id);
    }
  }

  lemma StartedWasAnnounced(s: State, id: TaskId)
    requires Inv(s) && id in s.started
    ensures id in s.announced
  {
    assert id in multiset(s.put);
    assert id in multiset(s.announced);
  }

  lemma AppendKeepsPendingOrder(s: State, id: TaskId)
    requires Orderly(s) && PendingOrder(s) && NoDup(s.announced + [id])
    ensures s.pending + [id] == Without(s.announced + [id], Elements(s.started))
  {
    WithoutConcat(s.announced, [id], Elements(s.started));
    NoDupSnoc(s.announced, id);
    assert Without([id], Elements(s.started)) == [id] + Without([id][1..], Elements(s.started));
  }

  lemma ActivateKeepsPendingOrder(s: State, id: TaskId)
    requires Orderly(s) && PendingOrder(s) && id in s.pending
    ensures RemoveFirst(s.pending, id) == Without(s.announced, Elements(s.started + [id]))
  {
    WithoutMember(s.announced, Elements(s.started), id);
    WithoutOneMore(s.announced, Elements(s.started), id);
    assert Elements(s.started + [id]) == Elements(s.started) + {id};
  }

  lemma StepKeepsPendingOrder(s: State, step: Step)
    requires Orderly(s) && PendingOrder(s) && Enabled(s, step) && NoDup(Apply(s, step).announced)
    ensures PendingOrder(Apply(s, step))
  {
    match step
    case Append(id) =>
      AppendKeepsPendingOrder(s, id);
    case Activate(w) =>
      assert w == |s.threads| - 1;
      ActivateKeepsPendingOrder(s, s.threads[w].id);
    case _ =>
  }

  lemma {:induction false} AnnouncedGrows(s: State, steps: seq<Step>)
    requires Legal(s, steps)
    ensures s.announced <= Run(s, steps).announced
    ensures s.finished <= Run(s, steps).finished
    decreases |steps|
  {
    if steps != [] {
      AnnouncedGrows(Apply(s, steps[0]), steps[1..]);
    }
  }

  lemma NoDupPrefix(s: seq<TaskId>, t: seq<TaskId>)
    requires s <= t && NoDup(t)
    ensures NoDup(s)
  {
  }

  lemma StepKeepsBoth(s: State, step: Step)
    requires Inv(s) && PendingOrder(s) && Enabled(s, step) && NoDup(Apply(s, step).announced)
    ensures Inv(Apply(s, step)) && PendingOrder(Apply(s, step))
  {
    StepKeepsInv(s, step);
    AnnouncedGrows(s, [step]);
    NoDupPrefix(s.announced, Apply(s, step).announced);
    InvIsOrderly(s);
    StepKeepsPendingOrder(s, step);
  }

  lemma {:induction false} RunKeepsPendingOrder(s: State, steps: seq<Step>)
    requires Inv(s) && PendingOrder(s) && Legal(s, steps) && NoDup(Run(s, steps).announced)
    ensures PendingOrder(Run(s, steps))
    decreases |steps|
  {
    if steps != [] {
      AnnouncedGrows(Apply(s, steps[0]), steps[1..]);
      NoDupPrefix(Apply(s, steps[0]).announced, Run(s, steps).announced);
      StepKeepsBoth(s, steps[0]);
      RunKeepsPendingOrder(Apply(s, steps[0]), steps[1..]);
    }
  }

  /** The unfinished tasks announced earlier are the unstarted ones and, unless it overtook, the
      active one. */
  lemma AheadOfPending(s: State, id: TaskId)
    requires Orderly(s) && Unfinished(s, id) && s.active != Some(id)
    ensures |Without(s.announced[..IndexOf(s.announced, id)], Elements(s.started))| + (if s.active.Some? then 1 else 0)
         == Ahead(s, id) + (if Overtaken(s, id) then 1 else 0)
  {
    var before := s.announced[..IndexOf(s.announced, id)];
    assert s.announced[..IndexOf(s.announced, id) + 1] == before + [id];
    if s.active.Some? {
      var busy := s.active.value;
      ActiveIsUnfinished(s);
      assert Elements(s.started) == Elements(s.finished) + {busy} by {
        assert s.started == s.finished + [busy];
      }
      assert NoDup(before);
      if busy in before {
        WithoutOneMore(before, Elements(s.finished), busy);
      } else {
        WithoutDisjoint(before, Elements(s.finished), {busy});
      }
    } else {
      assert s.started == s.finished;
    }
  }

  lemma PositionInState(s: State, id: TaskId)
    requires Orderly(s) && PendingOrder(s) && Unfinished(s, id)
    ensures SnapshotOf(s, id).position ==
      Some(if s.active == Some(id) then 0 else Ahead(s, id) + if Overtaken(s, id) then 1 else 0)
  {
    if s.active != Some(id) {
      assert id !in s.started by {
        assert s.started == s.finished + Running(s);
      }
      IndexInWithout(s.announced, id, Elements(s.started));
      AheadOfPending(s, id);
    }
  }

  /** What `get_snapshot` reports, in every state reached with distinct ids: zero for the active
      task; otherwise the unfinished tasks announced earlier, plus one if the active task overtook. */
  lemma PositionFormula(steps: seq<Step>, id: TaskId)
    requires Legal(Initial, steps) && NoDup(Run(Initial, steps).announced)
    ensures Unfinished(Run(Initial, steps), id) ==> ReportsFormula(Run(Initial, steps), id)
  {
    RunKeepsInv(Initial, steps);
    RunKeepsPendingOrder(Initial, steps);
    OrderedReportsFormula(Run(Initial, steps), id);
  }

  /** The snapshot's position is 0 for the active task, else what is ahead plus one if overtaken. */
  ghost predicate ReportsFormula(s: State, id: TaskId)
    requires NoDup(s.announced) && Unfinished(s, id)
  {
    SnapshotOf(s, id).position == Some(if s.active == Some(id) then 0 else Ahead(s, id) + if Overtaken(s, id) then 1 else 0)
  }

  lemma OrderedReportsFormula(s: State, id: TaskId)
    requires Inv(s) && PendingOrder(s) && NoDup(s.announced)
    ensures Unfinished(s, id) ==> ReportsFormula(s, id)
  {
    InvIsOrderly(s);
    if Unfinished(s, id) {
      PositionInState(s, id);
    }
  }

  /** With distinct ids, the reported positions count the unfinished tasks announced earlier exactly
      in the states whose active task, if any, is the earliest announced of the unfinished ones. */
  lemma PositionIsAheadIffNoOvertaking(steps: seq<Step>)
    requires Legal(Initial, steps) && NoDup(Run(Initial, steps).announced)
    ensures var s := Run(Initial, steps);
      (forall id :: Unfinished(s, id) ==> SnapshotOf(s, id).position == Some(Ahead(s, id)))
      <==> (s.active.Some? ==> s.active.value in s.announced && Ahead(s, s.active.value) == 0)
  {
    RunKeepsInv(Initial, steps);
    RunKeepsPendingOrder(Initial, steps);
    var s := Run(Initial, steps);
    InvIsOrderly(s);
    if s.active.Some? {
      ActiveIsUnfinished(s);
      PositionInState(s, s.active.value);
      if Ahead(s, s.active.value) == 0 {
        forall id | Unfinished(s, id) ensures SnapshotOf(s, id).position == Some(Ahead(s, id)) {
          PositionInState(s, id);
          FirstIsNotOvertaking(s, id);
        }
      }
    } else {
      forall id | Unfinished(s, id) ensures SnapshotOf(s, id).position == Some(Ahead(s, id)) {
        PositionInState(s, id);
      }
    }
  }

  lemma ActiveIsUnfinished(s: State)
    requires Orderly(s) && s.active.Some?
    ensures Unfinished(s, s.active.value)
  {
    assert s.started == s.finished + [s.active.value];
    assert s.started[|s.finished|] == s.active.value;
    assert forall i :: 0 <= i < |s.finished| ==> s.finished[i] == s.started[i];
  }

  /** If nothing unfinished was announced before the active task, no unfinished task is overtaken. */
  lemma FirstIsNotOvertaking(s: State, id: TaskId)
    requires NoDup(s.announced) && Unfinished(s, id)
    requires s.active.Some? && s.active.value in s.announced && Ahead(s, s.active.value) == 0
    ensures !Overtaken(s, id)
  {
    var i, j := IndexOf(s.announced, id), IndexOf(s.announced, s.active.value);
    if i < j {
      assert s.announced[..j][i] == id;
      WithoutMember(s.announced[..j], Elements(s.finished), id);
    } else {
      assert s.announced[..i + 1][j] == s.active.value;
    }
  }

  /** Later announcements do not disturb what is ahead of `id`. */
  lemma AheadIsStable(s: State, t: State, id: TaskId)
    requires s.announced <= t.announced && NoDup(t.announced) && id in s.announced
    ensures IndexOf(t.announced, id) == IndexOf(s.announced, id)
    ensures t.announced[..IndexOf(t.announced, id)] == s.announced[..IndexOf(s.announced, id)]
    ensures t.announced[..IndexOf(t.announced, id) + 1] == s.announced[..IndexOf(s.announced, id) + 1]
    ensures t.finished == s.finished ==> Ahead(t, id) == Ahead(s, id)
    ensures t.active == s.active ==> (Overtaken(t, id) <==> Overtaken(s, id))
  {
    var i := IndexOf(s.announced, id);
    assert t.announced[i] == id;
    IndexOfUnique(t.announced, i);
    assert t.announced[..i] == s.announced[..i];
  }

  /** A step raises the reported position of an unfinished task exactly when it activates a task
      announced later, and then by one. */
  lemma PositionRisesOnlyByOvertaking(steps: seq<Step>, step: Step, id: TaskId)
    requires Legal(Initial, steps) && Enabled(Run(Initial, steps), step)
    requires NoDup(Apply(Run(Initial, steps), step).announced)
    requires Unfinished(Run(Initial, steps), id) && Unfinished(Apply(Run(Initial, steps), step), id)
    ensures var s := Run(Initial, steps);
      var t := Apply(s, step);
      var p, q := SnapshotOf(s, id).position, SnapshotOf(t, id).position;
      p.Some? && q.Some? && q.value <= p.value + 1 &&
      (q.value > p.value <==> step.Activate? && t.active != Some(id) && Overtaken(t, id))
  {
    var s := Run(Initial, steps);
    AnnouncedGrows(s, [step]);
    NoDupPrefix(s.announced, Apply(s, step).announced);
    RunKeepsInv(Initial, steps);
    RunKeepsPendingOrder(Initial, steps);
    StepKeepsBoth(s, step);
    InvIsOrderly(s);
    InvIsOrderly(Apply(s, step));
    StepPosition(s, step, id);
  }

  lemma StepPosition(s: State, step: Step, id: TaskId)
    requires Orderly(s) && PendingOrder(s) && Enabled(s, step)
    requires Orderly(Apply(s, step)) && PendingOrder(Apply(s, step))
    requires Unfinished(s, id) && Unfinished(Apply(s, step), id)
    ensures var t := Apply(s, step);
      var p, q := SnapshotOf(s, id).position, SnapshotOf(t, id).position;
      p.Some? && q.Some? && q.value <= p.value + 1 &&
      (q.value > p.value <==> step.Activate? && t.active != Some(id) && Overtaken(t, id))
  {
    var t := Apply(s, step);
    PositionInState(s, id);
    PositionInState(t, id);
    AheadIsStable(s, t, id);
    StepActive(s, step);
    if step.Finish? {
      AheadAfterFinish(s, t, id);
    }
  }

  lemma StepActive(s: State, step: Step)
    requires OneWorker(s) && FirstInFirstOut(s) && Enabled(s, step)
    ensures var t := Apply(s, step);
      if step.Activate? then s.active == None && t.active.Some? && t.finished == s.finished
      else if step.Finish? then s.active.Some? && t.active == None && t.finished == s.finished + [s.active.value]
      else t.active == s.active && t.finished == s.finished
    ensures s.announced <= Apply(s, step).announced
  {
    match step
    case Activate(w) => assert w == |s.threads| - 1;
    case Finish(w, _) => assert w == |s.threads| - 1;
    case _ =>
  }

  lemma AheadAfterFinish(s: State, t: State, id: TaskId)
    requires Orderly(s) && Unfinished(s, id) && s.active.Some? && s.active != Some(id)
    requires t.finished == s.finished + [s.active.value] && id in t.announced
    requires t.announced[..IndexOf(t.announced, id)] == s.announced[..IndexOf(s.announced, id)]
    ensures Ahead(s, id) == Ahead(t, id) + (if Overtaken(s, id) then 0 else 1)
  {
    ActiveIsUnfinished(s);
    var busy := s.active.value;
    var before := s.announced[..IndexOf(s.announced, id)];
    assert s.announced[..IndexOf(s.announced, id) + 1] == before + [id];
    assert Elements(t.finished) == Elements(s.finished) + {busy};
    if busy in before {
      WithoutOneMore(before, Elements(s.finished), busy);
    } else {
      WithoutDisjoint(before, Elements(s.finished), {busy});
    }
  }

  // ---------------------------------------------------------------- serialised enqueue calls

  /** The put order is the announcement order, but for at most one call between append and put. */
  ghost predicate SameOrder(s: State) {
    && s.put <= s.announced
    && |s.announced| <= |s.put| + 1
    && s.inFlight == multiset(s.announced[|s.put|..])
  }

  lemma SerialisedPut(s: State, id: TaskId)
    requires SameOrder(s) && id in s.inFlight
    ensures SameOrder(Apply(s, Put(id)))
  {
    var rest := s.announced[|s.put|..];
    assert rest == [rest[0]] && id in multiset(rest);
    assert s.announced == s.put + rest;
    assert s.put + [id] == s.announced;
  }

  lemma {:induction false} SerialisedKeepsOrder(s: State, steps: seq<Step>)
    requires SameOrder(s) && Legal(s, steps) && Serialised(s, steps)
    ensures SameOrder(Run(s, steps))
    decreases |steps|
  {
    if steps != [] {
      var t := Apply(s, steps[0]);
      assert |s.inFlight| == |s.announced| - |s.put|;
      if steps[0].Append? {
        assert t.announced[|t.put|..] == [steps[0].id];
      } else if steps[0].Put? {
        SerialisedPut(s, steps[0].id);
      }
      SerialisedKeepsOrder(t, steps[1..]);
    }
  }

  /** Then the active task is the earliest announced of the unfinished ones. */
  lemma SerialisedActiveIsFirst(s: State)
    requires FirstInFirstOut(s) && SameOrder(s) && NoDup(s.announced) && s.active.Some?
    ensures s.active.value in s.announced && Ahead(s, s.active.value) == 0
  {
    var k := |s.finished|;
    assert s.started == s.finished + [s.active.value];
    StartedPrefix(s);
    assert forall i :: 0 <= i < |s.started| ==> s.announced[i] == s.put[i] == s.started[i];
    IndexOfUnique(s.announced, k);
    assert s.announced[..k] == s.finished;
    WithoutAll(s.finished, Elements(s.finished));
  }

  /** When enqueue calls do not overlap and ids are distinct, every reported position is the number
      of unfinished tasks enqueued earlier, in every reachable state. */
  lemma SerialisedPosition(steps: seq<Step>, id: TaskId)
    requires Legal(Initial, steps) && Serialised(Initial, steps) && NoDup(Run(Initial, steps).announced)
    requires Unfinished(Run(Initial, steps), id)
    ensures SnapshotOf(Run(Initial, steps), id).position == Some(Ahead(Run(Initial, steps), id))
  {
    SerialisedKeepsOrder(Initial, steps);
    RunKeepsInv(Initial, steps);
    PositionIsAheadIffNoOvertaking(steps);
    if Run(Initial, steps).active.Some? {
      SerialisedActiveIsFirst(Run(Initial, steps));
    }
  }

  lemma {:induction false} SerialisedPrefix(s: State, steps: seq<Step>, more: seq<Step>)
    requires Legal(s, steps + more) && Serialised(s, steps + more)
    ensures Legal(s, steps) && Serialised(s, steps)
    ensures Legal(Run(s, steps), more) && Run(s, steps + more) == Run(Run(s, steps), more)
    decreases |steps|
  {
    if steps == [] {
      assert steps + more == more;
    } else {
      assert (steps + more)[1..] == steps[1..] + more;
      SerialisedPrefix(Apply(s, steps[0]), steps[1..], more);
    }
  }

  /** In such a run a position never rises between the enqueue of a task and its end. */
  lemma SerialisedPositionNeverRises(steps: seq<Step>, more: seq<Step>, id: TaskId)
    requires Legal(Initial, steps + more) && Serialised(Initial, steps + more)
    requires NoDup(Run(Initial, steps + more).announced)
    requires Unfinished(Run(Initial, steps + more), id)
    requires Legal(Initial, steps) && id in Run(Initial, steps).announced
    ensures var p := SnapshotOf(Run(Initial, steps), id).position;
      var q := SnapshotOf(Run(Initial, steps + more), id).position;
      p.Some? && q.Some? && q.value <= p.value
  {
    SerialisedPrefix(Initial, steps, more);
    var s, t := Run(Initial, steps), Run(Initial, steps + more);
    AnnouncedGrows(s, more);
    assert NoDup(s.announced);
    SerialisedPosition(steps, id);
    SerialisedPosition(steps + more, id);
    var i := IndexOf(s.announced, id);
    assert t.announced[i] == id;
    IndexOfUnique(t.announced, i);
    assert t.announced[..i] == s.announced[..i];
    WithoutShrinks(s.announced[..i], Elements(s.finished), Elements(t.finished));
  }

  lemma RunCons(s: State, step: Step, steps: seq<Step>)
    requires Enabled(s, step) && Legal(Apply(s, step), steps)
    ensures Legal(s, [step] + steps) && Run(s, [step] + steps) == Run(Apply(s, step), steps)
  {
    assert ([step] + steps)[1..] == steps;
  }

  /** 1 and 2 are both between append and put. */
  const BothInFlight: State :=
    State([], [1, 2], None, [Waiting], multiset{}, multiset{1, 2}, [1, 2], [], [], [])

  /** The put of 2 has overtaken that of 1. */
  const Overtaking: State :=
    State([], [1], Some(2), [Executing(2)], multiset{}, multiset{1}, [1, 2], [2], [2], [])

  lemma TwoAppends()
    ensures Enabled(Apply(Apply(Initial, Ensure(1)), Ensure(2)), Append(1))
    ensures Enabled(Apply(Apply(Apply(Initial, Ensure(1)), Ensure(2)), Append(1)), Append(2))
    ensures Apply(Apply(Apply(Apply(Initial, Ensure(1)), Ensure(2)), Append(1)), Append(2)) == BothInFlight
  {
  }

  lemma ToBothInFlight(steps: seq<Step>)
    requires Legal(BothInFlight, steps)
    ensures var all := [Ensure(1)] + ([Ensure(2)] + ([Append(1)] + ([Append(2)] + steps)));
      Legal(Initial, all) && Run(Initial, all) == Run(BothInFlight, steps)
  {
    var s1 := Apply(Initial, Ensure(1));
    var s2 := Apply(s1, Ensure(2));
    var s3 := Apply(s2, Append(1));
    TwoAppends();
    RunCons(s3, Append(2), steps);
    RunCons(s2, Append(1), [Append(2)] + steps);
    RunCons(s1, Ensure(2), [Append(1)] + ([Append(2)] + steps));
    RunCons(Initial, Ensure(1), [Ensure(2)] + ([Append(1)] + ([Append(2)] + steps)));
  }

  lemma ToOvertaking()
    ensures var steps := [Put(2)] + ([Get(0)] + ([Activate(0)] + []));
      Legal(BothInFlight, steps) && Run(BothInFlight, steps) == Overtaking
  {
    var s5 := Apply(BothInFlight, Put(2));
    var s6 := Apply(s5, Get(0));
    assert Apply(s6, Activate(0)) == Overtaking;
    RunCons(s6, Activate(0), []);
    RunCons(s5, Get(0), [Activate(0)] + []);
    RunCons(BothInFlight, Put(2), [Get(0)] + ([Activate(0)] + []));
  }

  /** Without that assumption the count is wrong: 2 is announced after 1 but put, and so started,
      first; the waiting 1 is then told that one task is ahead although none was enqueued earlier. */
  lemma OvertakingRun()
    ensures exists steps :: Legal(Initial, steps) && Run(Initial, steps) == Overtaking
    ensures NoDup(Overtaking.announced) && Unfinished(Overtaking, 1)
    ensures Ahead(Overtaking, 1) == 0 && SnapshotOf(Overtaking, 1).position == Some(1)
  {
    ToOvertaking();
    ToBothInFlight([Put(2)] + ([Get(0)] + ([Activate(0)] + [])));
    assert Overtaking.announced == [1, 2];
  }

  // ---------------------------------------------------------------- the end of a worker

  /** The worker's thread has died, or will take nothing more. */
  ghost predicate WorkerLost(s: State) {
    |s.threads| > 0 && (s.threads[|s.threads| - 1] == Unwinding || s.threads[|s.threads| - 1] == Dead)
  }

  ghost predicate NoNewCall(steps: seq<Step>) {
    forall i :: 0 <= i < |steps| ==> !steps[i].Ensure?
  }

  lemma {:induction false} LostWorkerStartsNothing(s: State, steps: seq<Step>)
    requires OneWorker(s) && WorkerLost(s) && Legal(s, steps) && NoNewCall(steps)
    ensures WorkerLost(Run(s, steps)) && Run(s, steps).started == s.started
    decreases |steps|
  {
    if steps != [] {
      var t := Apply(s, steps[0]);
      assert !steps[0].Get? && !steps[0].Activate? && !steps[0].Finish?;
      assert NoNewCall(steps[1..]);
      LostWorkerStartsNothing(t, steps[1..]);
    }
  }

  /** After an executor that raised, nothing is started until another enqueue call begins, whatever the calls
      under way still put; after one that returned, the worker can take the next task at once. */
  lemma RaisingStopsTheQueue(steps: seq<Step>, w: nat, raised: bool, more: seq<Step>)
    requires Legal(Initial, steps) && Enabled(Run(Initial, steps), Finish(w, raised))
    requires Legal(Apply(Run(Initial, steps), Finish(w, raised)), more) && NoNewCall(more)
    ensures var t := Apply(Run(Initial, steps), Finish(w, raised));
      && (raised ==> Run(t, more).started == t.started)
      && (!raised && t.queue != [] ==> Enabled(t, Get(w)))
  {
    RunKeepsInv(Initial, steps);
    var s := Run(Initial, steps);
    StepKeepsInv(s, Finish(w, raised));
    assert w == |s.threads| - 1;
    if raised {
      LostWorkerStartsNothing(Apply(s, Finish(w, raised)), more);
    }
  }

  /** No step is possible but the beginning of another enqueue call. */
  ghost predicate Resting(s: State) {
    forall step :: Enabled(s, step) ==> step.Ensure?
  }

  /** The last thread, if there is one, has ended. */
  ghost predicate NoThread(s: State) {
    s.threads == [] || s.threads[|s.threads| - 1] == Dead
  }

  /** All calls have returned, and there is no thread or it waits in vain. */
  ghost predicate NothingToDo(s: State) {
    && s.ready == s.inFlight == multiset{}
    && (NoThread(s) || (s.threads[|s.threads| - 1] == Waiting && s.queue == []))
  }

  lemma CallsCanGoOn(s: State)
    requires s.ready != multiset{} || s.inFlight != multiset{}
    ensures !Resting(s)
  {
    if s.ready != multiset{} {
      var id :| id in s.ready;
      assert Enabled(s, Append(id));
    } else {
      var id :| id in s.inFlight;
      assert Enabled(s, Put(id));
    }
  }

  lemma WorkerCanGoOn(s: State)
    requires !NoThread(s) && !(s.threads[|s.threads| - 1] == Waiting && s.queue == [])
    ensures !Resting(s)
  {
    var w := |s.threads| - 1;
    var step := if s.threads[w].Holding? then Activate(w)
                else if s.threads[w].Executing? then Finish(w, false)
                else if s.threads[w].Unwinding? then Die(w) else Get(w);
    assert Enabled(s, step);
  }

  lemma IdleRests(s: State)
    requires OneWorker(s) && NothingToDo(s)
    ensures Resting(s)
  {
    assert forall w :: 0 <= w < |s.threads| ==> s.threads[w] == Dead || (s.threads[w] == Waiting && s.queue == []);
  }

  lemma RestingMeaning(s: State)
    requires OneWorker(s)
    ensures Resting(s) <==> NothingToDo(s)
  {
    if NothingToDo(s) {
      IdleRests(s);
    } else if s.ready != multiset{} || s.inFlight != multiset{} {
      CallsCanGoOn(s);
    } else {
      WorkerCanGoOn(s);
    }
  }

  lemma NothingPending(s: State)
    requires Accounted(s) && s.queue == [] && s.inFlight == multiset{} && Held(s) == []
    ensures s.pending == []
  {
    assert |s.pending| == |multiset(s.pending)|;
  }

  /** A reachable state is stranded, with tasks pending that nothing but another enqueue call will ever start,
      exactly when all enqueue calls have returned, some task is pending and no thread is left. */
  lemma StrandedIff(steps: seq<Step>)
    requires Legal(Initial, steps)
    ensures var s := Run(Initial, steps);
      Resting(s) && s.pending != [] <==> s.ready == s.inFlight == multiset{} && s.pending != [] && NoThread(s)
  {
    RunKeepsInv(Initial, steps);
    StrandedStateIff(Run(Initial, steps));
  }

  lemma StrandedStateIff(s: State)
    requires Inv(s)
    ensures Resting(s) && s.pending != [] <==> s.ready == s.inFlight == multiset{} && s.pending != [] && NoThread(s)
  {
    RestingMeaning(s);
    if NothingToDo(s) && !NoThread(s) {
      NothingPending(s);
    }
  }

  /** 1 has been put and is being executed. */
  const FirstRunning: State :=
    State([], [], Some(1), [Executing(1)], multiset{}, multiset{}, [1], [1], [1], [])

  /** 2 is pending, every call has returned and no thread is left. */
  const Stranded: State :=
    State([2], [2], None, [Dead], multiset{}, multiset{}, [1, 2], [1, 2], [1], [1])

  lemma ToFirstRunning(steps: seq<Step>) returns (all: seq<Step>)
    requires Legal(FirstRunning, steps)
    ensures Legal(Initial, all) && Run(Initial, all) == Run(FirstRunning, steps)
  {
    all := [Ensure(1)] + ([Append(1)] + ([Put(1)] + ([Get(0)] + ([Activate(0)] + steps))));
    var s1 := Apply(Initial, Ensure(1));
    var s2 := Apply(s1, Append(1));
    var s3 := Apply(s2, Put(1));
    var s4 := Apply(s3, Get(0));
    assert s1 == State([], [], None, [Waiting], multiset{1}, multiset{}, [], [], [], []);
    assert s2 == State([], [1], None, [Waiting], multiset{}, multiset{1}, [1], [], [], []);
    assert s3 == State([1], [1], None, [Waiting], multiset{}, multiset{}, [1], [1], [], []);
    assert s4 == State([], [1], None, [Holding(1)], multiset{}, multiset{}, [1], [1], [], []);
    assert Apply(s4, Activate(0)) == FirstRunning;
    RunCons(s4, Activate(0), steps);
    RunCons(s3, Get(0), [Activate(0)] + steps);
    RunCons(s2, Put(1), [Get(0)] + ([Activate(0)] + steps));
    RunCons(s1, Append(1), [Put(1)] + ([Get(0)] + ([Activate(0)] + steps)));
    RunCons(Initial, Ensure(1), [Append(1)] + ([Put(1)] + ([Get(0)] + ([Activate(0)] + steps))));
  }

  lemma ToStranded() returns (steps: seq<Step>)
    ensures Legal(FirstRunning, steps) && Run(FirstRunning, steps) == Stranded
  {
    steps := [Finish(0, true)] + ([Ensure(2)] + ([Append(2)] + ([Put(2)] + ([Die(0)] + []))));
    var s1 := Apply(FirstRunning, Finish(0, true));
    var s2 := Apply(s1, Ensure(2));
    var s3 := Apply(s2, Append(2));
    var s4 := Apply(s3, Put(2));
    assert s1 == State([], [], None, [Unwinding], multiset{}, multiset{}, [1], [1], [1], [1]);
    assert s2 == State([], [], None, [Unwinding], multiset{2}, multiset{}, [1], [1], [1], [1]);
    assert s3 == State([], [2], None, [Unwinding], multiset{}, multiset{2}, [1, 2], [1], [1], [1]);
    assert s4 == State([2], [2], None, [Unwinding], multiset{}, multiset{}, [1, 2], [1, 2], [1], [1]);
    assert Apply(s4, Die(0)) == Stranded;
    RunCons(s4, Die(0), []);
    RunCons(s3, Put(2), [Die(0)] + []);
    RunCons(s2, Append(2), [Put(2)] + ([Die(0)] + []));
    RunCons(s1, Ensure(2), [Append(2)] + ([Put(2)] + ([Die(0)] + [])));
    RunCons(FirstRunning, Finish(0, true), [Ensure(2)] + ([Append(2)] + ([Put(2)] + ([Die(0)] + []))));
  }

  /** An input that strands a task: 2 is enqueued while the thread of the raising executor of 1 is still alive,
      so no thread is started for it. It is told that nothing is ahead, and waits for ever. */
  lemma StrandedRun()
    ensures exists steps :: Legal(Initial, steps) && Run(Initial, steps) == Stranded
    ensures Resting(Stranded) && SnapshotOf(Stranded, 2).position == Some(0)
  {
    var steps := ToStranded();
    var all := ToFirstRunning(steps);
    IdleRests(Stranded);
  }

  // ---------------------------------------------------------------- the queue object

  /** `MainImageTaskQueue` and `_DetailTaskQueue`: each method is one critical section, or one
      operation of the thread-safe `Queue`. */
  class Queue {
    var queue: seq<TaskId>
    var pendingTaskIds: seq<TaskId>
    var activeTaskId: Option<TaskId>
    var threads: seq<Worker>
    ghost var ready: multiset<TaskId>
    ghost var inFlight: multiset<TaskId>
    ghost var announced: seq<TaskId>
    ghost var put: seq<TaskId>
    ghost var started: seq<TaskId>
    ghost var finished: seq<TaskId>

    ghost function View(): State
      reads this
    {
      State(queue, pendingTaskIds, activeTaskId, threads, ready, inFlight, announced, put, started, finished)
    }

    constructor ()
      ensures View() == Initial
    {
      queue, pendingTaskIds, activeTaskId, threads := [], [], None, [];
      ready, inFlight := multiset{}, multiset{};
      announced, put, started, finished := [], [], [], [];
    }

    /** `_ensure_worker_started`, on behalf of the enqueue call for `id`. */
    method EnsureWorkerStarted(ghost id: TaskId)
      modifies this
      ensures View() == Apply(old(View()), Ensure(id))
      ensures WorkerAlive(threads)
    {
      if !(|threads| > 0 && threads[|threads| - 1] != Dead) {
        threads := threads + [Waiting];
      }
      ready := ready + multiset{id};
    }

    /** The locked half of `enqueue`. */
    method AppendPending(id: TaskId)
      requires id in ready
      modifies this
      ensures View() == Apply(old(View()), Append(id))
    {
      assert Enabled(View(), Append(id));
      pendingTaskIds := pendingTaskIds + [id];
      ready, inFlight, announced := ready - multiset{id}, inFlight + multiset{id}, announced + [id];
    }

    /** The `put` half of `enqueue`. */
    method PutItem(id: TaskId)
      requires id in inFlight
      modifies this
      ensures View() == Apply(old(View()), Put(id))
    {
      queue := queue + [id];
      inFlight, put := inFlight - multiset{id}, put + [id];
    }

    /** The worker's `Queue.get`, which blocks while the queue is empty. */
    method GetItem(w: nat) returns (id: TaskId)
      requires Enabled(View(), Get(w))
      modifies this
      ensures View() == Apply(old(View()), Get(w))
      ensures old(queue) == [id] + queue
    {
      id := queue[0];
      queue := queue[1..];
      threads := threads[w := Holding(id)];
    }

    /** The worker's first critical section. */
    method ActivateItem(w: nat)
      requires Enabled(View(), Activate(w))
      modifies this
      ensures View() == Apply(old(View()), Activate(w))
    {
      var id := threads[w].id;
      if id in pendingTaskIds {
        pendingTaskIds := RemoveFirst(pendingTaskIds, id);
      }
      activeTaskId := Some(id);
      threads := threads[w := Executing(id)];
      started := started + [id];
    }

    /** The worker's `finally` block; an executor that raised ends its thread afterwards. */
    method FinishItem(w: nat, raised: bool)
      requires Enabled(View(), Finish(w, raised))
      modifies this
      ensures View() == Apply(old(View()), Finish(w, raised))
    {
      var id := threads[w].id;
      if activeTaskId == Some(id) {
        activeTaskId := None;
      }
      threads := threads[w := if raised then Unwinding else Waiting];
      finished := finished + [id];
    }

    /** The thread of a raising executor ends. */
    method EndThread(w: nat)
      requires Enabled(View(), Die(w))
      modifies this
      ensures View() == Apply(old(View()), Die(w))
    {
      threads := threads[w := Dead];
    }

    method GetSnapshot(id: TaskId) returns (snapshot: Snapshot)
      ensures snapshot == SnapshotOf(View(), id)
    {
      var busy := if activeTaskId.Some? then 1 else 0;
      var position := None;
      if activeTaskId == Some(id) {
        position := Some(0);
      } else if id in pendingTaskIds {
        position := Some(IndexOf(pendingTaskIds, id) + busy);
      }
      snapshot := Snapshot(activeTaskId, position, |pendingTaskIds| + busy);
    }
  }
}
