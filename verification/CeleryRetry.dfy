/**
 The retry protocol of the detail-page and main-image Celery tasks, over the mirrored task row.

 One delivered message makes attempts until one succeeds or its retries are used up. Each attempt marks
 the row running, does its work, which syncs the mirror any number of times, and records a retry or the
 final failure. What happens outside the database, including a state write that fails, is a parameter.
 */
module CeleryRetry {
  import opened Sequences
  import opened DbMirror

  datatype SyncInput = SyncInput(kind: Option<Kind>, local: Option<Local>, now: Time)

  /** One attempt: whether marking the row running succeeds, what the work syncs, what it raises, and
      whether recording its failure succeeds. */
  datatype Attempt = Attempt(
    runningSaved: bool, saveError: string, syncs: seq<SyncInput>, error: Option<string>, recordSaved: bool,
    startTime: Time, endTime: Time)

  /** The transactions an attempt commits. */
  datatype Write =
    | MarkRunning(now: Time)
    | MarkRetrying(error: string, count: nat)
    | MarkFailed(error: string, count: nat, now: Time)
    | MirrorSync(input: SyncInput)

  datatype End =
    | Finished
    | Exhausted(error: string)                          // the last attempt failed and no retry was left
    | Unrecorded(error: string)                         // recording a failure failed: no retry is sent

  datatype Delivery = Delivery(end: End, attempts: nat)

  predicate Counts(w: Write) {
    w.MarkRetrying? || w.MarkFailed?
  }

  // ---------------------------------------------------------------- writes on the row

  /** `mark_running`, `mark_retrying` and `mark_failed`; a missing row is left missing. */
  function Written(c: Config, db: Db, task: Id, step: string, w: Write): Db {
    if w.MirrorSync? then Synced(c, db, task, w.input.kind, w.input.local, w.input.now)
    else if task !in db.tasks then db
    else
      var row := db.tasks[task];
      var columns := row.columns;
      var updated := match w
        case MarkRunning(now) =>
          row.(columns := columns.(status := Running, step := Some(step)),
               startedAt := if row.startedAt.Some? then row.startedAt else Some(now))
        case MarkRetrying(error, count) =>
          row.(columns := columns.(status := Queued, step := Some("celery_retry"), error := Some(error)), retryCount := count)
        case MarkFailed(error, count, now) =>
          row.(columns := columns.(
                 status := Failed, error := Some(error),
                 step := if columns.step.Some? && columns.step != Some("") then columns.step else Some("celery_worker")),
               retryCount := count, finishedAt := Some(now));
      db.(tasks := db.tasks[task := updated])
  }

  function RunWrites(c: Config, db: Db, task: Id, step: string, writes: seq<Write>): Db {
    if writes == [] then db
    else Written(c, RunWrites(c, db, task, step, writes[..|writes| - 1]), task, step, writes[|writes| - 1])
  }

  // ---------------------------------------------------------------- the protocol

  function ErrorOf(a: Attempt): Option<string> {
    if a.runningSaved then a.error else Some(a.saveError)
  }

  function SyncWrites(inputs: seq<SyncInput>, n: nat): seq<Write>
    requires n <= |inputs|
  {
    if n == 0 then [] else SyncWrites(inputs, n - 1) + [MirrorSync(inputs[n - 1])]
  }

  function WorkWrites(a: Attempt): seq<Write> {
    if a.runningSaved then [MarkRunning(a.startTime)] + SyncWrites(a.syncs, |a.syncs|) else []
  }

  /** The write that records how an attempt failed, if it failed and that could be saved. */
  function RecordWrite(a: Attempt, retries: nat, maxRetries: nat): Option<Write> {
    if ErrorOf(a).None? || !a.recordSaved then None
    else if retries < maxRetries then Some(MarkRetrying(ErrorOf(a).value, retries + 1))
    else Some(MarkFailed(ErrorOf(a).value, retries, a.endTime))
  }

  predicate Retries(a: Attempt, retries: nat, maxRetries: nat) {
    ErrorOf(a).Some? && retries < maxRetries && a.recordSaved
  }

  function AttemptWrites(a: Attempt, retries: nat, maxRetries: nat): seq<Write> {
    var record := RecordWrite(a, retries, maxRetries);
    if record.Some? then WorkWrites(a) + [record.value] else WorkWrites(a)
  }

  /** Everything one message writes, from retry number `retries` on. */
  function Writes(world: nat -> Attempt, retries: nat, maxRetries: nat): seq<Write>
    decreases maxRetries - retries
  {
    var part := AttemptWrites(world(retries), retries, maxRetries);
    if Retries(world(retries), retries, maxRetries) then part + Writes(world, retries + 1, maxRetries) else part
  }

  /** How a message ends with an attempt that is not retried. */
  function EndOf(a: Attempt): End {
    if ErrorOf(a).None? then Finished
    else if a.recordSaved then Exhausted(ErrorOf(a).value)
    else Unrecorded(ErrorOf(a).value)
  }

  function Delivered(world: nat -> Attempt, retries: nat, maxRetries: nat): Delivery
    decreases maxRetries - retries
  {
    if Retries(world(retries), retries, maxRetries) then
      var rest := Delivered(world, retries + 1, maxRetries);
      Delivery(rest.end, rest.attempts + 1)
    else Delivery(EndOf(world(retries)), 1)
  }

  /** A message makes at most `maxRetries + 1` attempts; exhaustion takes all of them. It finishes exactly
      when the last attempt raised nothing, every earlier one having failed and been recorded. */
  lemma {:induction false} AttemptsBounded(world: nat -> Attempt, retries: nat, maxRetries: nat)
    requires retries <= maxRetries
    ensures var d := Delivered(world, retries, maxRetries);
      && 1 <= d.attempts <= maxRetries - retries + 1
      && (d.end.Exhausted? ==> d.attempts == maxRetries - retries + 1)
      && (forall k :: retries <= k < retries + d.attempts - 1 ==> ErrorOf(world(k)).Some? && world(k).recordSaved)
      && (d.end.Finished? <==> ErrorOf(world(retries + d.attempts - 1)).None?)
    decreases maxRetries - retries
  {
    if Retries(world(retries), retries, maxRetries) {
      AttemptsBounded(world, retries + 1, maxRetries);
    }
  }

  /** The tables after the first `n` syncs of an attempt's work. */
  function SyncedAll(c: Config, db: Db, task: Id, inputs: seq<SyncInput>, n: nat): Db
    requires n <= |inputs|
  {
    if n == 0 then db else
      var i := inputs[n - 1];
      Synced(c, SyncedAll(c, db, task, inputs, n - 1), task, i.kind, i.local, i.now)
  }

  function AfterWork(c: Config, db: Db, task: Id, step: string, a: Attempt): Db {
    if a.runningSaved
    then SyncedAll(c, Written(c, db, task, step, MarkRunning(a.startTime)), task, a.syncs, |a.syncs|)
    else db
  }

  /** The tables after one attempt. */
  function AfterAttempt(c: Config, db: Db, task: Id, step: string, a: Attempt, retries: nat, maxRetries: nat): Db {
    var worked, record := AfterWork(c, db, task, step, a), RecordWrite(a, retries, maxRetries);
    if record.Some? then Written(c, worked, task, step, record.value) else worked
  }

  /** The tables after a message, from retry number `retries` on. */
  function AfterMessage(c: Config, db: Db, task: Id, step: string, world: nat -> Attempt, retries: nat, maxRetries: nat): Db
    decreases maxRetries - retries
  {
    var after := AfterAttempt(c, db, task, step, world(retries), retries, maxRetries);
    if Retries(world(retries), retries, maxRetries) then AfterMessage(c, after, task, step, world, retries + 1, maxRetries)
    else after
  }

  // ---------------------------------------------------------------- writes in a row

  lemma WriteOnRow(c: Config, db: Db, task: Id, step: string, w: Write)
    requires task in db.tasks
    ensures var row, after := db.tasks[task], Written(c, db, task, step, w);
      && task in after.tasks
      && (row.startedAt.Some? ==> after.tasks[task].startedAt == row.startedAt)
      && (row.finishedAt.Some? ==> after.tasks[task].finishedAt.Some?)
  {
    if w.MirrorSync? {
      StepKeepsStart(c, db, Sync(task, w.input.kind, w.input.local, w.input.now), task);
    }
  }

  /** Retries clear neither start nor finish: once started or finished, a row stays so through any writes,
      with the same start. */
  lemma {:induction false} RowThroughWrites(c: Config, db: Db, task: Id, step: string, writes: seq<Write>)
    requires task in db.tasks
    ensures var row, after := db.tasks[task], RunWrites(c, db, task, step, writes);
      && task in after.tasks
      && (row.startedAt.Some? ==> after.tasks[task].startedAt == row.startedAt)
      && (row.finishedAt.Some? ==> after.tasks[task].finishedAt.Some?)
  {
    if writes != [] {
      var before := writes[..|writes| - 1];
      RowThroughWrites(c, db, task, step, before);
      WriteOnRow(c, RunWrites(c, db, task, step, before), task, step, writes[|writes| - 1]);
    }
  }

  lemma {:induction false} WritesOfConcat(c: Config, db: Db, task: Id, step: string, writes: seq<Write>, more: seq<Write>)
    ensures RunWrites(c, db, task, step, writes + more) == RunWrites(c, RunWrites(c, db, task, step, writes), task, step, more)
  {
    if more == [] {
      assert writes + more == writes;
    } else {
      assert (writes + more)[..|writes + more| - 1] == writes + more[..|more| - 1];
      WritesOfConcat(c, db, task, step, writes, more[..|more| - 1]);
    }
  }

  lemma SnocWrite(c: Config, db: Db, task: Id, step: string, writes: seq<Write>, w: Write)
    ensures RunWrites(c, db, task, step, writes + [w]) == Written(c, RunWrites(c, db, task, step, writes), task, step, w)
  {
    assert (writes + [w])[..|writes|] == writes;
  }

  lemma {:induction false} SyncWritesApplied(c: Config, db: Db, task: Id, step: string, inputs: seq<SyncInput>, n: nat)
    requires n <= |inputs|
    ensures RunWrites(c, db, task, step, SyncWrites(inputs, n)) == SyncedAll(c, db, task, inputs, n)
  {
    if n > 0 {
      SyncWritesApplied(c, db, task, step, inputs, n - 1);
      SnocWrite(c, db, task, step, SyncWrites(inputs, n - 1), MirrorSync(inputs[n - 1]));
    }
  }

  lemma OneWrite(c: Config, db: Db, task: Id, step: string, w: Write)
    ensures RunWrites(c, db, task, step, [w]) == Written(c, db, task, step, w)
  {
    assert [w][..0] == [];
  }

  lemma WorkWritesApplied(c: Config, db: Db, task: Id, step: string, a: Attempt)
    ensures RunWrites(c, db, task, step, WorkWrites(a)) == AfterWork(c, db, task, step, a)
  {
    if a.runningSaved {
      OneWrite(c, db, task, step, MarkRunning(a.startTime));
      WritesOfConcat(c, db, task, step, [MarkRunning(a.startTime)], SyncWrites(a.syncs, |a.syncs|));
      SyncWritesApplied(c, Written(c, db, task, step, MarkRunning(a.startTime)), task, step, a.syncs, |a.syncs|);
    }
  }

  lemma AttemptWritesApplied(c: Config, db: Db, task: Id, step: string, a: Attempt, retries: nat, maxRetries: nat)
    ensures RunWrites(c, db, task, step, AttemptWrites(a, retries, maxRetries)) == AfterAttempt(c, db, task, step, a, retries, maxRetries)
  {
    WorkWritesApplied(c, db, task, step, a);
    var record := RecordWrite(a, retries, maxRetries);
    if record.Some? {
      SnocWrite(c, db, task, step, WorkWrites(a), record.value);
    }
  }

  /** The single writes of a message, in order, add up to the message. */
  lemma {:induction false} WritesApplied(c: Config, db: Db, task: Id, step: string, world: nat -> Attempt, retries: nat, maxRetries: nat)
    ensures RunWrites(c, db, task, step, Writes(world, retries, maxRetries)) == AfterMessage(c, db, task, step, world, retries, maxRetries)
    decreases maxRetries - retries
  {
    AttemptWritesApplied(c, db, task, step, world(retries), retries, maxRetries);
    if Retries(world(retries), retries, maxRetries) {
      WritesOfConcat(c, db, task, step, AttemptWrites(world(retries), retries, maxRetries), Writes(world, retries + 1, maxRetries));
      WritesApplied(c, AfterAttempt(c, db, task, step, world(retries), retries, maxRetries), task, step, world, retries + 1, maxRetries);
    }
  }

  // ---------------------------------------------------------------- the retry count

  /** The retry count of the row, if there is one. */
  function RetryCountIn(db: Db, task: Id): Option<nat> {
    if task in db.tasks then Some(db.tasks[task].retryCount) else None
  }

  /** One write on the count: a sync that finds a manifest creates a missing row. */
  function NextCount(count: Option<nat>, w: Write): Option<nat> {
    if count.None? then (if w.MirrorSync? && w.input.local.Some? then Some(0) else None)
    else if Counts(w) then Some(w.count)
    else count
  }

  function CountAfter(count: Option<nat>, writes: seq<Write>): Option<nat> {
    if writes == [] then count else NextCount(CountAfter(count, writes[..|writes| - 1]), writes[|writes| - 1])
  }

  lemma WriteOnCount(c: Config, db: Db, task: Id, step: string, w: Write)
    ensures RetryCountIn(Written(c, db, task, step, w), task) == NextCount(RetryCountIn(db, task), w)
  {
  }

  lemma {:induction false} CountThroughWrites(c: Config, db: Db, task: Id, step: string, writes: seq<Write>)
    ensures RetryCountIn(RunWrites(c, db, task, step, writes), task) == CountAfter(RetryCountIn(db, task), writes)
  {
    if writes != [] {
      var before := writes[..|writes| - 1];
      CountThroughWrites(c, db, task, step, before);
      WriteOnCount(c, RunWrites(c, db, task, step, before), task, step, writes[|writes| - 1]);
    }
  }

  lemma {:induction false} CountOfConcat(count: Option<nat>, writes: seq<Write>, more: seq<Write>)
    ensures CountAfter(count, writes + more) == CountAfter(CountAfter(count, writes), more)
  {
    if more == [] {
      assert writes + more == writes;
    } else {
      assert (writes + more)[..|writes + more| - 1] == writes + more[..|more| - 1];
      CountOfConcat(count, writes, more[..|more| - 1]);
    }
  }

  /** No row counts as less than any row. */
  predicate AtMost(a: Option<nat>, b: Option<nat>) {
    a.None? || (b.Some? && a.value <= b.value)
  }

  /** No write lowers the count. */
  predicate NeverFalls(count: Option<nat>, writes: seq<Write>) {
    writes != [] ==>
      && NeverFalls(count, writes[..|writes| - 1])
      && AtMost(CountAfter(count, writes[..|writes| - 1]), CountAfter(count, writes))
  }

  lemma {:induction false} NeverFallsConcat(count: Option<nat>, writes: seq<Write>, more: seq<Write>)
    ensures NeverFalls(count, writes + more) <==> NeverFalls(count, writes) && NeverFalls(CountAfter(count, writes), more)
  {
    if more == [] {
      assert writes + more == writes;
    } else {
      assert (writes + more)[..|writes + more| - 1] == writes + more[..|more| - 1];
      NeverFallsConcat(count, writes, more[..|more| - 1]);
      CountOfConcat(count, writes, more[..|more| - 1]);
      CountOfConcat(count, writes, more);
    }
  }

  lemma CountSnoc(count: Option<nat>, writes: seq<Write>, w: Write)
    ensures CountAfter(count, writes + [w]) == NextCount(CountAfter(count, writes), w)
    ensures NeverFalls(count, writes + [w])
      <==> NeverFalls(count, writes) && AtMost(CountAfter(count, writes), NextCount(CountAfter(count, writes), w))
  {
    assert (writes + [w])[..|writes|] == writes;
  }

  /** What a count is after work: unchanged, or 0 on a row that the work created. */
  predicate CountWorked(before: Option<nat>, after: Option<nat>) {
    after == before || (before == None && after == Some(0))
  }

  lemma {:induction false} SyncsKeepCount(count: Option<nat>, inputs: seq<SyncInput>, n: nat)
    requires n <= |inputs|
    ensures CountWorked(count, CountAfter(count, SyncWrites(inputs, n))) && NeverFalls(count, SyncWrites(inputs, n))
  {
    if n > 0 {
      SyncsKeepCount(count, inputs, n - 1);
      CountSnoc(count, SyncWrites(inputs, n - 1), MirrorSync(inputs[n - 1]));
    }
  }

  lemma WorkKeepsCount(count: Option<nat>, a: Attempt)
    ensures CountWorked(count, CountAfter(count, WorkWrites(a))) && NeverFalls(count, WorkWrites(a))
  {
    if a.runningSaved {
      var mark := [MarkRunning(a.startTime)];
      assert mark[..0] == [];
      assert CountAfter(count, mark) == count && NeverFalls(count, mark);
      SyncsKeepCount(count, a.syncs, |a.syncs|);
      CountOfConcat(count, mark, SyncWrites(a.syncs, |a.syncs|));
      NeverFallsConcat(count, mark, SyncWrites(a.syncs, |a.syncs|));
    }
  }

  /** The first count a message records, if its first attempt fails and that is saved. */
  function FirstCount(a: Attempt, retries: nat, maxRetries: nat): Option<nat> {
    var record := RecordWrite(a, retries, maxRetries);
    if record.Some? then Some(record.value.count) else None
  }

  /** An attempt's effect on the count. */
  lemma AttemptCount(count: Option<nat>, a: Attempt, retries: nat, maxRetries: nat)
    ensures var writes, first := AttemptWrites(a, retries, maxRetries), FirstCount(a, retries, maxRetries);
      && (first.None? ==> CountWorked(count, CountAfter(count, writes)) && NeverFalls(count, writes))
      && (first.Some? ==> CountAfter(count, writes) == first || (count == None && CountAfter(count, writes) == None))
      && (first.Some? ==> (NeverFalls(count, writes) <==> count.None? || count.value <= first.value))
  {
    WorkKeepsCount(count, a);
    var record := RecordWrite(a, retries, maxRetries);
    if record.Some? {
      CountSnoc(count, WorkWrites(a), record.value);
    }
  }

  /** A message never lowers the count of its row, exactly when there is no row yet, or its first attempt
      records nothing, or what that records is not below the count already there. */
  lemma {:induction false} NeverFallsIff(count: Option<nat>, world: nat -> Attempt, retries: nat, maxRetries: nat)
    requires retries <= maxRetries
    ensures var first := FirstCount(world(retries), retries, maxRetries);
      NeverFalls(count, Writes(world, retries, maxRetries)) <==> count.None? || first.None? || count.value <= first.value
    decreases maxRetries - retries
  {
    AttemptCount(count, world(retries), retries, maxRetries);
    if Retries(world(retries), retries, maxRetries) {
      var part := AttemptWrites(world(retries), retries, maxRetries);
      NeverFallsConcat(count, part, Writes(world, retries + 1, maxRetries));
      NeverFallsIff(CountAfter(count, part), world, retries + 1, maxRetries);
    }
  }

  lemma {:induction false} PrefixNeverAbove(count: Option<nat>, writes: seq<Write>, i: nat)
    requires i <= |writes| && NeverFalls(count, writes)
    ensures NeverFalls(count, writes[..i]) && AtMost(CountAfter(count, writes[..i]), CountAfter(count, writes))
    decreases |writes|
  {
    if i == |writes| {
      TakeAll(writes);
    } else {
      var before := writes[..|writes| - 1];
      assert before[..i] == writes[..i];
      PrefixNeverAbove(count, before, i);
    }
  }

  lemma TwoPrefixes(count: Option<nat>, writes: seq<Write>, i: nat, j: nat)
    requires i <= j <= |writes| && NeverFalls(count, writes)
    ensures AtMost(CountAfter(count, writes[..i]), CountAfter(count, writes[..j]))
    ensures AtMost(CountAfter(count, writes[..j]), CountAfter(count, writes))
  {
    PrefixNeverAbove(count, writes, j);
    PrefixNeverAbove(count, writes[..j], i);
    assert writes[..j][..i] == writes[..i];
  }

  lemma {:induction false} SyncsRowCount(c: Config, db: Db, task: Id, inputs: seq<SyncInput>, n: nat)
    requires n <= |inputs|
    ensures CountWorked(RetryCountIn(db, task), RetryCountIn(SyncedAll(c, db, task, inputs, n), task))
  {
    if n > 0 {
      SyncsRowCount(c, db, task, inputs, n - 1);
      WriteOnCount(c, SyncedAll(c, db, task, inputs, n - 1), task, "", MirrorSync(inputs[n - 1]));
    }
  }

  lemma WorkRowCount(c: Config, db: Db, task: Id, step: string, a: Attempt)
    ensures CountWorked(RetryCountIn(db, task), RetryCountIn(AfterWork(c, db, task, step, a), task))
  {
    if a.runningSaved {
      WriteOnCount(c, db, task, step, MarkRunning(a.startTime));
      SyncsRowCount(c, Written(c, db, task, step, MarkRunning(a.startTime)), task, a.syncs, |a.syncs|);
    }
  }

  lemma AttemptRowCount(c: Config, db: Db, task: Id, step: string, a: Attempt, retries: nat, maxRetries: nat)
    ensures var before, after := RetryCountIn(db, task), RetryCountIn(AfterAttempt(c, db, task, step, a, retries, maxRetries), task);
      var first := FirstCount(a, retries, maxRetries);
      && (first.None? ==> CountWorked(before, after))
      && (first.Some? ==> after == first || (before == None && after == None))
  {
    var record := RecordWrite(a, retries, maxRetries);
    WorkRowCount(c, db, task, step, a);
    if record.Some? {
      WriteOnCount(c, AfterWork(c, db, task, step, a), task, step, record.value);
    }
  }

  /** In the end a row that was there shows the failed attempts before the last, counted from the retry
      number the message came with, or its old count if the first attempt recorded nothing. */
  lemma {:induction false} FinalRowCount(
    c: Config, db: Db, task: Id, step: string, world: nat -> Attempt, retries: nat, maxRetries: nat)
    requires task in db.tasks && retries <= maxRetries
    ensures RetryCountIn(AfterMessage(c, db, task, step, world, retries, maxRetries), task)
      == Some(if FirstCount(world(retries), retries, maxRetries).None? then db.tasks[task].retryCount
              else retries + Delivered(world, retries, maxRetries).attempts - 1)
    decreases maxRetries - retries
  {
    AttemptRowCount(c, db, task, step, world(retries), retries, maxRetries);
    if Retries(world(retries), retries, maxRetries) {
      FinalRowCount(c, AfterAttempt(c, db, task, step, world(retries), retries, maxRetries), task, step, world, retries + 1, maxRetries);
    }
  }

  lemma {:induction false} CountStaysWithin(
    c: Config, db: Db, task: Id, step: string, world: nat -> Attempt, retries: nat, maxRetries: nat)
    requires retries <= maxRetries && AtMost(RetryCountIn(db, task), Some(maxRetries))
    ensures AtMost(RetryCountIn(AfterMessage(c, db, task, step, world, retries, maxRetries), task), Some(maxRetries))
    decreases maxRetries - retries
  {
    AttemptRowCount(c, db, task, step, world(retries), retries, maxRetries);
    if Retries(world(retries), retries, maxRetries) {
      CountStaysWithin(c, AfterAttempt(c, db, task, step, world(retries), retries, maxRetries), task, step, world, retries + 1, maxRetries);
    }
  }

  /** For a message that starts afresh, on a row with count 0 or on no row yet: at every point of its life
      the count is at most `maxRetries` and not below its value at any earlier point. In the end a row that
      was there shows the number of failed attempts before the last. */
  lemma RetryCountThroughout(
    c: Config, db: Db, task: Id, step: string, world: nat -> Attempt, maxRetries: nat, i: nat, j: nat)
    requires AtMost(RetryCountIn(db, task), Some(0)) && i <= j <= |Writes(world, 0, maxRetries)|
    ensures var writes := Writes(world, 0, maxRetries);
      var early, late := RetryCountIn(RunWrites(c, db, task, step, writes[..i]), task), RetryCountIn(RunWrites(c, db, task, step, writes[..j]), task);
      AtMost(early, late) && AtMost(late, Some(maxRetries))
    ensures task in db.tasks ==>
      RetryCountIn(AfterMessage(c, db, task, step, world, 0, maxRetries), task) == Some(Delivered(world, 0, maxRetries).attempts - 1)
  {
    var writes, count := Writes(world, 0, maxRetries), RetryCountIn(db, task);
    CountThroughWrites(c, db, task, step, writes[..i]);
    CountThroughWrites(c, db, task, step, writes[..j]);
    CountThroughWrites(c, db, task, step, writes);
    WritesApplied(c, db, task, step, world, 0, maxRetries);
    NeverFallsIff(count, world, 0, maxRetries);
    TwoPrefixes(count, writes, i, j);
    CountStaysWithin(c, db, task, step, world, 0, maxRetries);
    FreshRowCount(c, db, task, step, world, maxRetries);
  }

  lemma FreshRowCount(c: Config, db: Db, task: Id, step: string, world: nat -> Attempt, maxRetries: nat)
    requires AtMost(RetryCountIn(db, task), Some(0))
    ensures task in db.tasks ==>
      RetryCountIn(AfterMessage(c, db, task, step, world, 0, maxRetries), task) == Some(Delivered(world, 0, maxRetries).attempts - 1)
  {
    if task in db.tasks {
      FinalRowCount(c, db, task, step, world, 0, maxRetries);
    }
  }

  /** A message delivered again starts counting at its own retry number. It never lowers the count of its
      row, at any point, exactly when its first attempt records nothing or no less than is there. */
  lemma RedeliveryNeverLowersIff(
    c: Config, db: Db, task: Id, step: string, world: nat -> Attempt, retries: nat, maxRetries: nat)
    requires task in db.tasks && retries <= maxRetries
    ensures var writes, first := Writes(world, retries, maxRetries), FirstCount(world(retries), retries, maxRetries);
      (forall i, j :: 0 <= i <= j <= |writes| ==>
         AtMost(RetryCountIn(RunWrites(c, db, task, step, writes[..i]), task),
                RetryCountIn(RunWrites(c, db, task, step, writes[..j]), task)))
      <==> first.None? || db.tasks[task].retryCount <= first.value
  {
    var writes, count := Writes(world, retries, maxRetries), RetryCountIn(db, task);
    forall i | 0 <= i <= |writes|
      ensures RetryCountIn(RunWrites(c, db, task, step, writes[..i]), task) == CountAfter(count, writes[..i])
    {
      CountThroughWrites(c, db, task, step, writes[..i]);
    }
    NeverFallsIff(count, world, retries, maxRetries);
    NeverFallsMeaning(count, writes);
  }

  lemma {:induction false} NeverFallsMeaning(count: Option<nat>, writes: seq<Write>)
    ensures NeverFalls(count, writes)
      <==> forall i, j :: 0 <= i <= j <= |writes| ==> AtMost(CountAfter(count, writes[..i]), CountAfter(count, writes[..j]))
  {
    if NeverFalls(count, writes) {
      forall i, j | 0 <= i <= j <= |writes| ensures AtMost(CountAfter(count, writes[..i]), CountAfter(count, writes[..j])) {
        TwoPrefixes(count, writes, i, j);
      }
    } else {
      var i := FirstFall(count, writes);
    }
  }

  lemma {:induction false} FirstFall(count: Option<nat>, writes: seq<Write>) returns (i: nat)
    requires !NeverFalls(count, writes)
    ensures i < |writes| && !AtMost(CountAfter(count, writes[..i]), CountAfter(count, writes[..i + 1]))
  {
    var last := |writes| - 1;
    if NeverFalls(count, writes[..last]) {
      i := last;
      TakeAll(writes);
    } else {
      i := FirstFall(count, writes[..last]);
      assert writes[..last][..i] == writes[..i] && writes[..last][..i + 1] == writes[..i + 1];
    }
  }

  // ---------------------------------------------------------------- how a message ends

  lemma FailedWrite(c: Config, db: Db, task: Id, step: string, error: string, count: nat, now: Time)
    requires task in db.tasks
    ensures var after := Written(c, db, task, step, MarkFailed(error, count, now));
      && task in after.tasks && after.tasks[task].columns.status == Failed && after.tasks[task].retryCount == count
      && after.tasks[task].finishedAt == Some(now) && after.tasks[task].columns.error == Some(error)
  {
  }

  lemma {:induction false} SyncsKeepRow(c: Config, db: Db, task: Id, inputs: seq<SyncInput>, n: nat)
    requires n <= |inputs| && task in db.tasks
    ensures task in SyncedAll(c, db, task, inputs, n).tasks
  {
    if n > 0 {
      SyncsKeepRow(c, db, task, inputs, n - 1);
    }
  }

  lemma WorkKeepsRow(c: Config, db: Db, task: Id, step: string, a: Attempt)
    requires task in db.tasks
    ensures task in AfterWork(c, db, task, step, a).tasks
  {
    if a.runningSaved {
      SyncsKeepRow(c, Written(c, db, task, step, MarkRunning(a.startTime)), task, a.syncs, |a.syncs|);
    }
  }

  lemma AttemptKeepsRow(c: Config, db: Db, task: Id, step: string, a: Attempt, retries: nat, maxRetries: nat)
    requires task in db.tasks
    ensures task in AfterAttempt(c, db, task, step, a, retries, maxRetries).tasks
  {
    WorkKeepsRow(c, db, task, step, a);
  }

  /** Exhaustion ends with the row failed, its retry count at the maximum and its finish time set. */
  lemma {:induction false} ExhaustedRow(
    c: Config, db: Db, task: Id, step: string, world: nat -> Attempt, retries: nat, maxRetries: nat)
    requires task in db.tasks && retries <= maxRetries && Delivered(world, retries, maxRetries).end.Exhausted?
    ensures var after := AfterMessage(c, db, task, step, world, retries, maxRetries);
      && task in after.tasks
      && after.tasks[task].columns.status == Failed
      && after.tasks[task].retryCount == maxRetries
      && after.tasks[task].finishedAt == Some(world(maxRetries).endTime)
      && after.tasks[task].columns.error == Some(Delivered(world, retries, maxRetries).end.error)
    decreases maxRetries - retries
  {
    var a := world(retries);
    if Retries(a, retries, maxRetries) {
      AttemptKeepsRow(c, db, task, step, a, retries, maxRetries);
      ExhaustedRow(c, AfterAttempt(c, db, task, step, a, retries, maxRetries), task, step, world, retries + 1, maxRetries);
    } else {
      WorkKeepsRow(c, db, task, step, a);
      FailedWrite(c, AfterWork(c, db, task, step, a), task, step, ErrorOf(a).value, retries, a.endTime);
    }
  }

  /** The last sync that found a manifest. */
  function LastLocal(inputs: seq<SyncInput>, n: nat): (r: Option<SyncInput>)
    requires n <= |inputs|
    ensures r.Some? ==> r.value.local.Some?
  {
    if n == 0 then None else if inputs[n - 1].local.Some? then Some(inputs[n - 1]) else LastLocal(inputs, n - 1)
  }

  /** The row shows what the last sync found, and its finish time if that was terminal. */
  ghost predicate ShowsSync(c: Config, row: TaskRow, task: Id, input: SyncInput)
    requires input.local.Some?
  {
    var l := input.local.value;
    && row.columns == ColumnsOf(c, row.user, task, EffectiveKind(input.kind, l), l)
    && (Terminal(row.columns.status) ==> row.finishedAt == Some(FinishTime(l, input.now)))
  }

  lemma {:induction false} SyncsMeaning(c: Config, db: Db, task: Id, inputs: seq<SyncInput>, n: nat)
    requires n <= |inputs| && task in db.tasks
    ensures var after, last := SyncedAll(c, db, task, inputs, n), LastLocal(inputs, n);
      task in after.tasks && if last.Some? then ShowsSync(c, after.tasks[task], task, last.value) else after == db
  {
    if n > 0 {
      SyncsMeaning(c, db, task, inputs, n - 1);
    }
  }

  /** The row shows the last sync of the attempt, or that it is running. */
  ghost predicate ShowsWork(c: Config, db: Db, task: Id, step: string, a: Attempt) {
    && task in db.tasks
    && var last := LastLocal(a.syncs, |a.syncs|);
       if last.Some? then ShowsSync(c, db.tasks[task], task, last.value)
       else db.tasks[task].columns.status == Running && db.tasks[task].columns.step == Some(step)
  }

  /** After its work, an attempt's row shows the last sync, or that it is running. */
  lemma WorkMeaning(c: Config, db: Db, task: Id, step: string, a: Attempt)
    requires task in db.tasks && a.runningSaved
    ensures ShowsWork(c, AfterWork(c, db, task, step, a), task, step, a)
  {
    SyncsMeaning(c, Written(c, db, task, step, MarkRunning(a.startTime)), task, a.syncs, |a.syncs|);
  }

  /** The last attempt of a message that has reached retry number `retries`. */
  function LastAttempt(world: nat -> Attempt, retries: nat, maxRetries: nat): Attempt
    decreases maxRetries - retries
  {
    if Retries(world(retries), retries, maxRetries) then LastAttempt(world, retries + 1, maxRetries) else world(retries)
  }

  lemma {:induction false} LastAttemptByNumber(world: nat -> Attempt, retries: nat, maxRetries: nat)
    requires retries <= maxRetries
    ensures LastAttempt(world, retries, maxRetries) == world(retries + Delivered(world, retries, maxRetries).attempts - 1)
    ensures EndOf(LastAttempt(world, retries, maxRetries)) == Delivered(world, retries, maxRetries).end
    decreases maxRetries - retries
  {
    if Retries(world(retries), retries, maxRetries) {
      LastAttemptByNumber(world, retries + 1, maxRetries);
    }
  }

  /** A message whose last attempt succeeds leaves the row as that attempt's last sync found the task,
      whatever the attempts before it wrote. */
  lemma {:induction false} FinishedRow(
    c: Config, db: Db, task: Id, step: string, world: nat -> Attempt, retries: nat, maxRetries: nat)
    requires task in db.tasks && retries <= maxRetries && ErrorOf(LastAttempt(world, retries, maxRetries)).None?
    ensures ShowsWork(c, AfterMessage(c, db, task, step, world, retries, maxRetries), task, step,
                      LastAttempt(world, retries, maxRetries))
    decreases maxRetries - retries
  {
    var a := world(retries);
    if Retries(a, retries, maxRetries) {
      AttemptKeepsRow(c, db, task, step, a, retries, maxRetries);
      FinishedRow(c, AfterAttempt(c, db, task, step, a, retries, maxRetries), task, step, world, retries + 1, maxRetries);
    } else {
      WorkMeaning(c, db, task, step, a);
    }
  }

  // ---------------------------------------------------------------- the finish time

  /** The sync finds a manifest in a terminal state. */
  predicate Finishes(input: SyncInput) {
    input.local.Some? && Terminal(MapStatus(input.local.value.manifest.status))
  }

  /** The attempt's work syncs a terminal state, at whatever point. */
  predicate WorkFinishes(a: Attempt) {
    a.runningSaved && exists i :: 0 <= i < |a.syncs| && Finishes(a.syncs[i])
  }

  ghost predicate IsFinished(db: Db, task: Id) {
    task in db.tasks && db.tasks[task].finishedAt.Some?
  }

  lemma WriteFinishesIff(c: Config, db: Db, task: Id, step: string, w: Write)
    requires task in db.tasks
    ensures task in Written(c, db, task, step, w).tasks
    ensures IsFinished(Written(c, db, task, step, w), task)
      <==> IsFinished(db, task) || w.MarkFailed? || (w.MirrorSync? && Finishes(w.input))
  {
  }

  lemma {:induction false} SyncsFinishIff(c: Config, db: Db, task: Id, inputs: seq<SyncInput>, n: nat)
    requires n <= |inputs| && task in db.tasks
    ensures var after := SyncedAll(c, db, task, inputs, n);
      && task in after.tasks
      && (IsFinished(after, task) <==> IsFinished(db, task) || exists i :: 0 <= i < n && Finishes(inputs[i]))
  {
    if n > 0 {
      SyncsFinishIff(c, db, task, inputs, n - 1);
      WriteFinishesIff(c, SyncedAll(c, db, task, inputs, n - 1), task, "", MirrorSync(inputs[n - 1]));
    }
  }

  lemma WorkFinishesIff(c: Config, db: Db, task: Id, step: string, a: Attempt)
    requires task in db.tasks
    ensures var after := AfterWork(c, db, task, step, a);
      task in after.tasks && (IsFinished(after, task) <==> IsFinished(db, task) || WorkFinishes(a))
  {
    if a.runningSaved {
      WriteFinishesIff(c, db, task, step, MarkRunning(a.startTime));
      SyncsFinishIff(c, Written(c, db, task, step, MarkRunning(a.startTime)), task, a.syncs, |a.syncs|);
    }
  }

  lemma RecordedStatus(c: Config, db: Db, task: Id, step: string, w: Write)
    requires task in db.tasks && Counts(w)
    ensures var after := Written(c, db, task, step, w);
      task in after.tasks && after.tasks[task].columns.status == if w.MarkFailed? then Failed else Queued
  {
  }

  lemma AttemptFinishesIff(c: Config, db: Db, task: Id, step: string, a: Attempt, retries: nat, maxRetries: nat)
    requires task in db.tasks
    ensures var after, record := AfterAttempt(c, db, task, step, a, retries, maxRetries), RecordWrite(a, retries, maxRetries);
      && task in after.tasks
      && (record.Some? ==> after.tasks[task].columns.status == if record.value.MarkFailed? then Failed else Queued)
      && (IsFinished(after, task)
          <==> IsFinished(db, task) || WorkFinishes(a) || (record.Some? && record.value.MarkFailed?))
  {
    var record := RecordWrite(a, retries, maxRetries);
    WorkFinishesIff(c, db, task, step, a);
    if record.Some? {
      WriteFinishesIff(c, AfterWork(c, db, task, step, a), task, step, record.value);
      RecordedStatus(c, AfterWork(c, db, task, step, a), task, step, record.value);
    }
  }

  /** An attempt whose retry is recorded leaves the row queued; its finish time is set nevertheless, exactly
      when it was set before the attempt or the work synced a terminal state at some point. */
  lemma QueuedAgainButFinishedIff(c: Config, db: Db, task: Id, step: string, a: Attempt, retries: nat, maxRetries: nat)
    requires task in db.tasks && Retries(a, retries, maxRetries)
    ensures var after := AfterAttempt(c, db, task, step, a, retries, maxRetries);
      && task in after.tasks && after.tasks[task].columns.status == Queued
      && (after.tasks[task].finishedAt.Some? <==> db.tasks[task].finishedAt.Some? || WorkFinishes(a))
  {
    AttemptFinishesIff(c, db, task, step, a, retries, maxRetries);
  }

  /** The tables after the first `n` attempts of a message. */
  function AfterAttempts(
    c: Config, db: Db, task: Id, step: string, world: nat -> Attempt, retries: nat, n: nat, maxRetries: nat): Db
    decreases n
  {
    if n == 0 then db else
      var after := AfterAttempt(c, db, task, step, world(retries), retries, maxRetries);
      AfterAttempts(c, after, task, step, world, retries + 1, n - 1, maxRetries)
  }

  /** When they are all retried, the message goes on from there. */
  lemma {:induction false} MessageAfterAttempts(
    c: Config, db: Db, task: Id, step: string, world: nat -> Attempt, retries: nat, n: nat, maxRetries: nat)
    requires forall k :: retries <= k < retries + n ==> Retries(world(k), k, maxRetries)
    ensures AfterMessage(c, db, task, step, world, retries, maxRetries)
      == AfterMessage(c, AfterAttempts(c, db, task, step, world, retries, n, maxRetries), task, step, world, retries + n, maxRetries)
    decreases n
  {
    if n > 0 {
      var after := AfterAttempt(c, db, task, step, world(retries), retries, maxRetries);
      MessageAfterAttempts(c, after, task, step, world, retries + 1, n - 1, maxRetries);
    }
  }

  /** One of these attempts synced a terminal state. */
  ghost predicate SomeWorkFinishes(world: nat -> Attempt, from: nat, to: nat) {
    exists k :: from <= k < to && WorkFinishes(world(k))
  }

  lemma OneEarlierWork(world: nat -> Attempt, from: nat, to: nat)
    requires from < to
    ensures SomeWorkFinishes(world, from, to) <==> WorkFinishes(world(from)) || SomeWorkFinishes(world, from + 1, to)
  {
  }

  /** The same after any number of retried attempts: the row waits in the queue, and looks finished exactly
      when it did at first or any of them synced a terminal state. */
  lemma {:induction false} QueuedAfterAttemptsIff(
    c: Config, db: Db, task: Id, step: string, world: nat -> Attempt, retries: nat, n: nat, maxRetries: nat)
    requires task in db.tasks && forall k :: retries <= k < retries + n ==> Retries(world(k), k, maxRetries)
    ensures var after := AfterAttempts(c, db, task, step, world, retries, n, maxRetries);
      && task in after.tasks
      && (n > 0 ==> after.tasks[task].columns.status == Queued)
      && (IsFinished(after, task) <==> IsFinished(db, task) || SomeWorkFinishes(world, retries, retries + n))
    decreases n
  {
    if n > 0 {
      var after := AfterAttempt(c, db, task, step, world(retries), retries, maxRetries);
      QueuedAgainButFinishedIff(c, db, task, step, world(retries), retries, maxRetries);
      QueuedAfterAttemptsIff(c, after, task, step, world, retries + 1, n - 1, maxRetries);
      OneEarlierWork(world, retries, retries + n);
    }
  }

  lemma LastAttemptFinishesIff(
    c: Config, db: Db, task: Id, step: string, world: nat -> Attempt, retries: nat, maxRetries: nat)
    requires task in db.tasks && retries <= maxRetries && !Retries(world(retries), retries, maxRetries)
    ensures var a := world(retries);
      IsFinished(AfterAttempt(c, db, task, step, a, retries, maxRetries), task)
      <==> IsFinished(db, task) || EndOf(a).Exhausted? || SomeWorkFinishes(world, retries, retries + 1)
  {
    AttemptFinishesIff(c, db, task, step, world(retries), retries, maxRetries);
    OneEarlierWork(world, retries, retries + 1);
  }

  lemma RetriedAttemptFinishesIff(
    c: Config, db: Db, task: Id, step: string, a: Attempt, retries: nat, maxRetries: nat)
    requires task in db.tasks && Retries(a, retries, maxRetries)
    ensures var after := AfterAttempt(c, db, task, step, a, retries, maxRetries);
      task in after.tasks && (IsFinished(after, task) <==> IsFinished(db, task) || WorkFinishes(a))
  {
    AttemptFinishesIff(c, db, task, step, a, retries, maxRetries);
  }

  /** After the whole message the finish time is set exactly when it was at first, or some attempt it made
      synced a terminal state, or it was exhausted. */
  lemma {:induction false} DeliveryFinishesIff(
    c: Config, db: Db, task: Id, step: string, world: nat -> Attempt, retries: nat, maxRetries: nat)
    requires task in db.tasks && retries <= maxRetries
    ensures var d := Delivered(world, retries, maxRetries);
      IsFinished(AfterMessage(c, db, task, step, world, retries, maxRetries), task)
      <==> IsFinished(db, task) || d.end.Exhausted? || SomeWorkFinishes(world, retries, retries + d.attempts)
    decreases maxRetries - retries
  {
    var a := world(retries);
    if Retries(a, retries, maxRetries) {
      var after := AfterAttempt(c, db, task, step, a, retries, maxRetries);
      RetriedAttemptFinishesIff(c, db, task, step, a, retries, maxRetries);
      DeliveryFinishesIff(c, after, task, step, world, retries + 1, maxRetries);
      OneEarlierWork(world, retries, retries + Delivered(world, retries, maxRetries).attempts);
    } else {
      LastAttemptFinishesIff(c, db, task, step, world, retries, maxRetries);
    }
  }

  /** An input: a row that counts two retries, and a message delivered again whose first attempt fails. */
  lemma RedeliveredCountFalls(c: Config, db: Db, task: Id, step: string, maxRetries: nat)
    requires task in db.tasks && db.tasks[task].retryCount == 2 && maxRetries > 0
    ensures var a := Attempt(true, "", [], Some("boom"), true, 1, 6);
      RetryCountIn(AfterAttempt(c, db, task, step, a, 0, maxRetries), task) == Some(1)
  {
  }

  /** An input: one sync of a failed manifest with its summary, then an error with a retry left. */
  lemma RetriedRowLooksFinished(c: Config, task: Id, step: string)
    ensures var l := Local(Manifest(Broken, "render", "", 40, "boom", "tea", "tmall", 8, 0),
                           Some(Summary("main_image", "tea", "tmall", 0, 8, "", 0, 7)), None, []);
      var a := Attempt(true, "", [SyncInput(None, Some(l), 5)], Some("boom"), true, 1, 6);
      var db := Db(map[task := TaskRow(0, ColumnsOf(c, 0, task, MainImage, l), NoInputs, 0, 0, None, None, None)], map[], map[], map[]);
      var after := AfterAttempt(c, db, task, step, a, 0, 1);
      task in after.tasks && after.tasks[task].columns.status == Queued && after.tasks[task].finishedAt.Some?
  {
    var l := Local(Manifest(Broken, "render", "", 40, "boom", "tea", "tmall", 8, 0),
                   Some(Summary("main_image", "tea", "tmall", 0, 8, "", 0, 7)), None, []);
    var a := Attempt(true, "", [SyncInput(None, Some(l), 5)], Some("boom"), true, 1, 6);
    var db := Db(map[task := TaskRow(0, ColumnsOf(c, 0, task, MainImage, l), NoInputs, 0, 0, None, None, None)], map[], map[], map[]);
    assert Finishes(a.syncs[0]);
    QueuedAgainButFinishedIff(c, db, task, step, a, 0, 1);
  }

  // ---------------------------------------------------------------- what the writes leave

  ghost function StartOf(db: Db, task: Id): Option<Time>
    requires task in db.tasks
  {
    db.tasks[task].startedAt
  }

  lemma {:induction false} SyncsKeepStart(c: Config, db: Db, task: Id, inputs: seq<SyncInput>, n: nat)
    requires n <= |inputs| && task in db.tasks
    ensures var after := SyncedAll(c, db, task, inputs, n);
      task in after.tasks && (StartOf(db, task).Some? ==> StartOf(after, task) == StartOf(db, task))
  {
    if n > 0 {
      SyncsKeepStart(c, db, task, inputs, n - 1);
      StepKeepsStart(c, SyncedAll(c, db, task, inputs, n - 1), Sync(task, inputs[n - 1].kind, inputs[n - 1].local, inputs[n - 1].now), task);
    }
  }

  /** An attempt that marks its row running gives it a start time, unless it has one; no other attempt does. */
  lemma AttemptStarts(c: Config, db: Db, task: Id, step: string, a: Attempt, retries: nat, maxRetries: nat)
    requires task in db.tasks
    ensures var after := AfterAttempt(c, db, task, step, a, retries, maxRetries);
      && task in after.tasks
      && StartOf(after, task) == if StartOf(db, task).None? && a.runningSaved then Some(a.startTime) else StartOf(db, task)
  {
    if a.runningSaved {
      SyncsKeepStart(c, Written(c, db, task, step, MarkRunning(a.startTime)), task, a.syncs, |a.syncs|);
    }
  }

  /** Attempt `k` is the first from number `retries` on that marks its row running. */
  ghost predicate FirstStarted(world: nat -> Attempt, retries: nat, k: nat) {
    retries <= k && world(k).runningSaved && forall j :: retries <= j < k ==> !world(j).runningSaved
  }

  /** After a message a row that had no start time has that of the first attempt that marked it running, and
      none if no attempt did; one that had a start time keeps it. */
  lemma {:induction false} MessageStarts(
    c: Config, db: Db, task: Id, step: string, world: nat -> Attempt, retries: nat, maxRetries: nat, k: nat)
    requires task in db.tasks && retries <= maxRetries
    ensures var after, n := AfterMessage(c, db, task, step, world, retries, maxRetries), Delivered(world, retries, maxRetries).attempts;
      && task in after.tasks
      && (StartOf(db, task).Some? ==> StartOf(after, task) == StartOf(db, task))
      && (StartOf(db, task).None? && k < retries + n && FirstStarted(world, retries, k) ==> StartOf(after, task) == Some(world(k).startTime))
      && (StartOf(db, task).None? && (forall j :: retries <= j < retries + n ==> !world(j).runningSaved) ==> StartOf(after, task).None?)
    decreases maxRetries - retries
  {
    var a := world(retries);
    AttemptStarts(c, db, task, step, a, retries, maxRetries);
    if Retries(a, retries, maxRetries) {
      MessageStarts(c, AfterAttempt(c, db, task, step, a, retries, maxRetries), task, step, world, retries + 1, maxRetries, k);
    }
  }

  /** Recording how an attempt failed leaves everything else as the work left it. */
  ghost predicate OthersKept(worked: TaskRow, row: TaskRow) {
    && row.user == worked.user && row.inputs == worked.inputs && row.createdAt == worked.createdAt
    && row.queuedAt == worked.queuedAt && row.startedAt == worked.startedAt
    && row.columns.kind == worked.columns.kind && row.columns.title == worked.columns.title
    && row.columns.platform == worked.columns.platform && row.columns.progress == worked.columns.progress
    && row.columns.snapshot == worked.columns.snapshot && row.columns.resultSummary == worked.columns.resultSummary
  }

  /** A recorded failure leaves its error and, when it is retried, the retry step and the number of the retry;
      when it is not, the step the work had reached, a finish time and the number of the last retry. */
  lemma RecordedFailure(c: Config, db: Db, task: Id, step: string, a: Attempt, retries: nat, maxRetries: nat)
    requires task in db.tasks && ErrorOf(a).Some? && a.recordSaved
    ensures var worked, after := AfterWork(c, db, task, step, a), AfterAttempt(c, db, task, step, a, retries, maxRetries);
      && task in worked.tasks && task in after.tasks
      && OthersKept(worked.tasks[task], after.tasks[task])
      && var reached, row := worked.tasks[task].columns.step, after.tasks[task];
      && row.columns.error == (if a.runningSaved then a.error else Some(a.saveError))
      && (retries < maxRetries ==>
            && row.columns.status == Queued && row.columns.step == Some("celery_retry")
            && row.retryCount == retries + 1 && row.finishedAt == worked.tasks[task].finishedAt)
      && (retries >= maxRetries ==>
            && row.columns.status == Failed && row.retryCount == retries && row.finishedAt == Some(a.endTime)
            && row.columns.step == if reached == None || reached == Some("") then Some("celery_worker") else reached)
  {
    WorkKeepsRow(c, db, task, step, a);
  }

  /** An attempt that syncs nothing shows that it is running, at the step of its function. */
  lemma RunningIsShown(c: Config, db: Db, task: Id, step: string, a: Attempt)
    requires task in db.tasks && a.runningSaved && forall i :: 0 <= i < |a.syncs| ==> a.syncs[i].local.None?
    ensures var after, was := AfterWork(c, db, task, step, a), db.tasks[task];
      && task in after.tasks
      && after.tasks[task].columns == was.columns.(status := Running, step := Some(step))
  {
    EmptySyncs(c, Written(c, db, task, step, MarkRunning(a.startTime)), task, a.syncs, |a.syncs|);
  }

  lemma {:induction false} EmptySyncs(c: Config, db: Db, task: Id, inputs: seq<SyncInput>, n: nat)
    requires n <= |inputs| && forall i :: 0 <= i < n ==> inputs[i].local.None?
    ensures SyncedAll(c, db, task, inputs, n) == db
  {
    if n > 0 {
      EmptySyncs(c, db, task, inputs, n - 1);
    }
  }

  // ---------------------------------------------------------------- the service and the task

  /** `TaskExecutionStateService` and the Celery task that uses it, over the mirror's tables. */
  class Worker {
    const config: Config
    var db: Db

    constructor (config: Config, db: Db)
      ensures this.config == config && this.db == db
    {
      this.config, this.db := config, db;
    }

    method MarkRunning(task: Id, step: string, now: Time)
      modifies this
      ensures db == Written(config, old(db), task, step, Write.MarkRunning(now))
    {
      if task !in db.tasks {
        return;
      }
      var row := db.tasks[task];
      row := row.(columns := row.columns.(status := Running, step := Some(step)));
      if row.startedAt.None? {
        row := row.(startedAt := Some(now));
      }
      db := db.(tasks := db.tasks[task := row]);
    }

    method MarkRetrying(task: Id, step: string, error: string, count: nat)
      modifies this
      ensures db == Written(config, old(db), task, step, Write.MarkRetrying(error, count))
    {
      if task !in db.tasks {
        return;
      }
      var row := db.tasks[task];
      row := row.(columns := row.columns.(status := Queued, step := Some("celery_retry"), error := Some(error)));
      row := row.(retryCount := count);
      db := db.(tasks := db.tasks[task := row]);
    }

    method MarkFailed(task: Id, step: string, error: string, count: nat, now: Time)
      modifies this
      ensures db == Written(config, old(db), task, step, Write.MarkFailed(error, count, now))
    {
      if task !in db.tasks {
        return;
      }
      var row := db.tasks[task];
      row := row.(columns := row.columns.(status := Failed, error := Some(error)));
      if row.columns.step.None? || row.columns.step == Some("") {
        row := row.(columns := row.columns.(step := Some("celery_worker")));
      }
      row := row.(retryCount := count, finishedAt := Some(now));
      db := db.(tasks := db.tasks[task := row]);
    }

    /** The work of one attempt, as far as the row is concerned. */
    method Work(task: Id, inputs: seq<SyncInput>)
      modifies this
      ensures db == SyncedAll(config, old(db), task, inputs, |inputs|)
    {
      for n := 0 to |inputs|
        invariant db == SyncedAll(config, old(db), task, inputs, n)
      {
        db := Synced(config, db, task, inputs[n].kind, inputs[n].local, inputs[n].now);
      }
    }

    /** One call of `run_detail_page_task`: what the exception handler decides. */
    method RunAttempt(task: Id, step: string, a: Attempt, retries: nat, maxRetries: nat) returns (again: bool, end: End)
      modifies this
      ensures db == AfterAttempt(config, old(db), task, step, a, retries, maxRetries)
      ensures again == Retries(a, retries, maxRetries)
      ensures again || end == EndOf(a)
    {
      var error := Some(a.saveError);
      if a.runningSaved {
        MarkRunning(task, step, a.startTime);
        Work(task, a.syncs);
        error := a.error;
      }
      again, end := false, Finished;
      if error.Some? {
        if !a.recordSaved {
          end := Unrecorded(error.value);
        } else if retries < maxRetries {
          MarkRetrying(task, step, error.value, retries + 1);
          again := true;
        } else {
          MarkFailed(task, step, error.value, retries, a.endTime);
          end := Exhausted(error.value);
        }
      }
    }

    /** A message with the retries that the broker sends back. */
    method RunMessage(task: Id, step: string, world: nat -> Attempt, maxRetries: nat) returns (d: Delivery)
      modifies this
      ensures db == AfterMessage(config, old(db), task, step, world, 0, maxRetries)
      ensures d == Delivered(world, 0, maxRetries)
    {
      var retries := 0;
      while true
        invariant retries <= maxRetries
        invariant AfterMessage(config, db, task, step, world, retries, maxRetries)
          == AfterMessage(config, old(db), task, step, world, 0, maxRetries)
        invariant Later(Delivered(world, retries, maxRetries), retries) == Delivered(world, 0, maxRetries)
        decreases maxRetries - retries
      {
        var again, end := RunAttempt(task, step, world(retries), retries, maxRetries);
        if !again {
          return Delivery(end, retries + 1);
        }
        retries := retries + 1;
      }
    }
  }

  /** A delivery that began `earlier` attempts before. */
  function Later(d: Delivery, earlier: nat): Delivery {
    Delivery(d.end, d.attempts + earlier)
  }
}
