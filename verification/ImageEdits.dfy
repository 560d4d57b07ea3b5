/**
 Image edits: the tasks, image_edits and task_results tables under creation and execution of edits.

 Every step is one database transaction, so the executions of different edits (and of one edit
 delivered twice) interleave freely between transactions. Ids and clocks are parameters; a generated id
 that is already taken makes the commit fail. File lookup, image generation and upload are parameters
 that may fail.
 */
module ImageEdits {
  import opened Sequences

  type Id = nat
  type Time = int

  /** An exception, by its code (0 when it is not one of the application's own). */
  datatype Error = Error(code: nat, message: string)

  datatype Result<T> = Ok(value: T) | Err(error: Error)

  datatype Kind = MainImage | DetailPage | ImageEdit

  datatype Status = Pending | Queued | Running | Succeeded | Failed | Cancelled

  datatype TaskRow = TaskRow(
    user: Id, kind: Kind, status: Status, step: string, progress: nat,
    startedAt: Option<Time>, finishedAt: Option<Time>, error: Option<Error>)

  datatype EditRow = EditRow(
    id: Id, source: Id, task: Id, user: Id, status: Status, edited: Option<Id>,
    startedAt: Option<Time>, finishedAt: Option<Time>, error: Option<Error>)

  datatype ResultRow = ResultRow(id: Id, task: Id, user: Id, version: nat, parent: Option<Id>, image: bool)

  /** Edit and result rows are kept in the order in which they were added. */
  datatype State = State(tasks: map<Id, TaskRow>, edits: seq<EditRow>, results: seq<ResultRow>)

  datatype Prepared = Prepared(edit: Id, task: Id, user: Id, source: Id)

  // ---------------------------------------------------------------- queries

  function FindEdit(edits: seq<EditRow>, task: Id): (r: Option<nat>)
    ensures r.Some? ==> r.value < |edits| && edits[r.value].task == task
    ensures r.None? ==> forall i :: 0 <= i < |edits| ==> edits[i].task != task
  {
    if edits == [] then None
    else if edits[|edits| - 1].task == task then Some(|edits| - 1)
    else FindEdit(edits[..|edits| - 1], task)
  }

  function FindEditById(edits: seq<EditRow>, id: Id): (r: Option<nat>)
    ensures r.Some? ==> r.value < |edits| && edits[r.value].id == id
    ensures r.None? ==> forall i :: 0 <= i < |edits| ==> edits[i].id != id
  {
    if edits == [] then None
    else if edits[|edits| - 1].id == id then Some(|edits| - 1)
    else FindEditById(edits[..|edits| - 1], id)
  }

  function FindResult(results: seq<ResultRow>, id: Id): (r: Option<nat>)
    ensures r.Some? ==> r.value < |results| && results[r.value].id == id
    ensures r.None? ==> forall i :: 0 <= i < |results| ==> results[i].id != id
  {
    if results == [] then None
    else if results[|results| - 1].id == id then Some(|results| - 1)
    else FindResult(results[..|results| - 1], id)
  }

  /** `get_by_id_for_user` of the result table. */
  function ResultFor(results: seq<ResultRow>, id: Id, user: Id): Option<ResultRow> {
    var found := FindResult(results, id);
    if found.Some? && results[found.value].user == user then Some(results[found.value]) else None
  }

  predicate TaskFor(tasks: map<Id, TaskRow>, id: Id, user: Id) {
    id in tasks && tasks[id].user == user
  }

  predicate InFamily(row: ResultRow, source: Id) {
    row.id == source || row.parent == Some(source)
  }

  /** The largest version among the source and the results edited from it: SQL's `max`. */
  function MaxVersion(results: seq<ResultRow>, source: Id): Option<nat> {
    if results == [] then None else
      var rest, last := MaxVersion(results[..|results| - 1], source), results[|results| - 1];
      if !InFamily(last, source) then rest
      else if rest.Some? && rest.value > last.version then rest
      else Some(last.version)
  }

  lemma {:induction false} MaxVersionMeaning(results: seq<ResultRow>, source: Id)
    ensures MaxVersion(results, source).None? <==> forall i :: 0 <= i < |results| ==> !InFamily(results[i], source)
    ensures MaxVersion(results, source).Some? ==>
      (exists i :: 0 <= i < |results| && InFamily(results[i], source) && results[i].version == MaxVersion(results, source).value)
    ensures forall i :: 0 <= i < |results| && InFamily(results[i], source) ==>
      MaxVersion(results, source).Some? && results[i].version <= MaxVersion(results, source).value
  {
    if results != [] {
      var rest, last := results[..|results| - 1], |results| - 1;
      MaxVersionMeaning(rest, source);
      assert forall i :: 0 <= i < last ==> rest[i] == results[i];
      if MaxVersion(results, source) != MaxVersion(rest, source) {
        assert InFamily(results[last], source) && results[last].version == MaxVersion(results, source).value;
      }
    }
  }

  /** `next_version_no_for_source`: `int(max or 1) + 1`. */
  function NextVersion(results: seq<ResultRow>, source: Id): nat {
    var m := MaxVersion(results, source);
    (if m.None? || m.value == 0 then 1 else m.value) + 1
  }

  lemma NextVersionIsNewest(results: seq<ResultRow>, source: Id)
    ensures NextVersion(results, source) >= 2
    ensures NextVersion(results, source) == 2
      || exists i :: 0 <= i < |results| && InFamily(results[i], source) && NextVersion(results, source) == results[i].version + 1
    ensures forall i :: 0 <= i < |results| && InFamily(results[i], source) ==> results[i].version < NextVersion(results, source)
  {
    MaxVersionMeaning(results, source);
  }

  // ---------------------------------------------------------------- transactions

  datatype Step =
    | StoreTask(id: Id, row: TaskRow)                    // another service adds or updates one of its tasks
    | AddResult(produced: ResultRow)                     // another service stores a first-hand result
    | CreateEdit(user: Id, result: Id, edit: Id, task: Id)
    | Prepare(task: Id, located: Option<Error>, now: Time)
    | Complete(prepared: Prepared, newId: Id, stored: Option<Error>, now: Time)
    | MarkFailed(task: Id, error: Error, now: Time)

  const NoResult := Error(4045, "result not found")
  const NotAnImage := Error(4008, "not an image")
  const NoTask := Error(4044, "task not found")
  const Duplicate := Error(0, "duplicate key")

  function OrNow(t: Option<Time>, now: Time): Option<Time> {
    if t.Some? then t else Some(now)
  }

  /** `create_edit`. */
  function Created(s: State, user: Id, result: Id, edit: Id, task: Id): (State, Result<Id>) {
    var source := ResultFor(s.results, result, user);
    if source.None? then (s, Err(NoResult))
    else if !source.value.image then (s, Err(NotAnImage))
    else if !TaskFor(s.tasks, source.value.task, user) then (s, Err(NoResult))
    else if task in s.tasks || FindEditById(s.edits, edit).Some? then (s, Err(Duplicate))
    else
      (s.(tasks := s.tasks[task := TaskRow(user, ImageEdit, Queued, "queued", 0, None, None, None)],
          edits := s.edits + [EditRow(edit, result, task, user, Queued, None, None, None, None)]),
       Ok(edit))
  }

  /** `_prepare_execution`; `located` is the error of locating the source file, if any. */
  function Started(s: State, task: Id, located: Option<Error>, now: Time): (State, Result<Prepared>) {
    if task !in s.tasks || s.tasks[task].kind != ImageEdit then (s, Err(NoTask)) else
    var found := FindEdit(s.edits, task);
    if found.None? then (s, Err(NoTask)) else
    var edit := s.edits[found.value];
    var source := ResultFor(s.results, edit.source, edit.user);
    if source.None? then (s, Err(NoResult))
    else if !TaskFor(s.tasks, source.value.task, edit.user) then (s, Err(NoTask))
    else if located.Some? then (s, Err(located.value))
    else
      var row := s.tasks[task];
      var running := row.(status := Running, step := "image_edit_generate", progress := 20, startedAt := OrNow(row.startedAt, now));
      (s.(tasks := s.tasks[task := running],
          edits := s.edits[found.value := edit.(status := Running, startedAt := OrNow(edit.startedAt, now))]),
       Ok(Prepared(edit.id, task, row.user, source.value.id)))
  }

  /** `_complete_execution`; `stored` is the error of storing the file, if any. */
  function Completed(s: State, p: Prepared, newId: Id, stored: Option<Error>, now: Time): (State, Result<nat>) {
    var found := FindEditById(s.edits, p.edit);
    if p.task !in s.tasks || found.None? then (s, Err(NoTask))
    else if stored.Some? then (s, Err(stored.value))
    else if FindResult(s.results, newId).Some? then (s, Err(Duplicate))
    else
      var version := NextVersion(s.results, p.source);
      var row, edit := s.tasks[p.task], s.edits[found.value];
      (State(
         s.tasks[p.task := row.(status := Succeeded, step := "completed", progress := 100, finishedAt := Some(now))],
         s.edits[found.value := edit.(status := Succeeded, edited := Some(newId), finishedAt := Some(now), error := None)],
         s.results + [ResultRow(newId, p.task, p.user, version, Some(p.source), true)]),
       Ok(version))
  }

  /** `_mark_failed`: the kind of the task is not looked at. */
  function MarkedFailed(s: State, task: Id, error: Error, now: Time): State {
    if task !in s.tasks then s else
    var row, found := s.tasks[task], FindEdit(s.edits, task);
    var failed := row.(
      status := Failed, step := if row.step == "" then "image_edit_generate" else row.step,
      error := Some(error), finishedAt := Some(now));
    s.(tasks := s.tasks[task := failed],
       edits := if found.None? then s.edits
                else s.edits[found.value := s.edits[found.value].(status := Failed, error := Some(error), finishedAt := Some(now))])
  }

  function Apply(s: State, step: Step): State {
    match step
    case StoreTask(id, row) => s.(tasks := s.tasks[id := row])
    case AddResult(row) => s.(results := s.results + [row])
    case CreateEdit(user, result, edit, task) => Created(s, user, result, edit, task).0
    case Prepare(task, located, now) => Started(s, task, located, now).0
    case Complete(p, newId, stored, now) => Completed(s, p, newId, stored, now).0
    case MarkFailed(task, error, now) => MarkedFailed(s, task, error, now)
  }

  /** The prepared execution is of an edit in the table. Edits keep their id, task and source, so this
      holds of every execution from its preparation on. */
  ghost predicate Fits(s: State, p: Prepared) {
    var found := FindEditById(s.edits, p.edit);
    found.Some? && s.edits[found.value].task == p.task && s.edits[found.value].source == p.source
  }

  /** Steps that can happen: other services write their own tasks, and add results (with a version of at
      least one and no parent) under unused ids; only prepared executions complete. */
  ghost predicate Legal(s: State, step: Step) {
    match step
    case StoreTask(id, row) => row.kind != ImageEdit && (id in s.tasks ==> s.tasks[id].kind != ImageEdit)
    case AddResult(row) => FindResult(s.results, row.id).None? && row.version >= 1 && row.parent.None?
    case Complete(p, _, _, _) => Fits(s, p)
    case _ => true
  }

  function Run(s: State, steps: seq<Step>): State {
    if steps == [] then s else Apply(Run(s, steps[..|steps| - 1]), steps[|steps| - 1])
  }

  ghost predicate LegalRun(s: State, steps: seq<Step>) {
    forall k :: 0 <= k < |steps| ==> Legal(Run(s, steps[..k]), steps[k])
  }

  const Empty := State(map[], [], [])

  // ---------------------------------------------------------------- the two rows of an edit

  /** The edit row and its task row tell the same story. */
  ghost predicate Lockstep(edit: EditRow, row: TaskRow) {
    && row.kind == ImageEdit && row.user == edit.user && row.status == edit.status
    && row.startedAt == edit.startedAt && row.finishedAt == edit.finishedAt
  }

  ghost predicate Paired(s: State) {
    && (forall i :: 0 <= i < |s.edits| ==> s.edits[i].task in s.tasks && Lockstep(s.edits[i], s.tasks[s.edits[i].task]))
    && (forall i, j :: 0 <= i < j < |s.edits| ==> s.edits[i].id != s.edits[j].id)
    && (forall i, j :: 0 <= i < j < |s.edits| ==> s.edits[i].task != s.edits[j].task)
  }

  /** Writing both rows of edit `i` alike keeps all pairs. */
  lemma BothRowsWritten(s: State, i: nat, edit: EditRow, row: TaskRow)
    requires Paired(s) && i < |s.edits|
    requires edit.id == s.edits[i].id && edit.task == s.edits[i].task && Lockstep(edit, row)
    ensures Paired(s.(tasks := s.tasks[edit.task := row], edits := s.edits[i := edit]))
  {
  }

  lemma StepKeepsPaired(s: State, step: Step)
    requires Paired(s) && Legal(s, step)
    ensures Paired(Apply(s, step))
  {
    var after := Apply(s, step);
    match step
    case Prepare(task, located, now) =>
      var found := FindEdit(s.edits, task);
      if found.Some? && Started(s, task, located, now).1.Ok? {
        BothRowsWritten(s, found.value, after.edits[found.value], after.tasks[task]);
      }
    case Complete(p, newId, stored, now) =>
      var found := FindEditById(s.edits, p.edit);
      if Completed(s, p, newId, stored, now).1.Ok? {
        BothRowsWritten(s, found.value, after.edits[found.value], after.tasks[p.task]);
      }
    case MarkFailed(task, error, now) =>
      var found := FindEdit(s.edits, task);
      if task in s.tasks && found.Some? {
        BothRowsWritten(s, found.value, after.edits[found.value], after.tasks[task]);
      }
    case _ =>
  }

  lemma {:induction false} RunKeepsPaired(steps: seq<Step>)
    requires LegalRun(Empty, steps)
    ensures Paired(Run(Empty, steps))
  {
    if steps != [] {
      var before := steps[..|steps| - 1];
      assert forall k :: 0 <= k < |before| ==> before[..k] == steps[..k] && before[k] == steps[k];
      RunKeepsPaired(before);
      StepKeepsPaired(Run(Empty, before), steps[|steps| - 1]);
    }
  }

  // ---------------------------------------------------------------- versions

  /** Row `i` has a parent, and `j` is its position. */
  ghost predicate ParentAt(results: seq<ResultRow>, i: nat, j: nat)
    requires i < |results|
  {
    j < |results| && results[i].parent == Some(results[j].id)
  }

  ghost predicate HasEarlierParent(results: seq<ResultRow>, i: nat)
    requires i < |results|
  {
    exists j :: 0 <= j < i && ParentAt(results, i, j) && results[j].version < results[i].version
  }

  /** Ids are distinct, a result is newer than its parent, and of two results edited from one source the
      later has the larger version. */
  ghost predicate VersionsOrdered(results: seq<ResultRow>) {
    && (forall i, j :: 0 <= i < j < |results| ==> results[i].id != results[j].id)
    && (forall i :: 0 <= i < |results| ==> results[i].version >= 1)
    && (forall i :: 0 <= i < |results| && results[i].parent.Some? ==> HasEarlierParent(results, i))
    && (forall i, j :: 0 <= i < j < |results| && results[i].parent.Some? && results[i].parent == results[j].parent ==>
          results[i].version < results[j].version)
  }

  /** An edit's source is in the table, and so is its result, which descends from the source. */
  ghost predicate Linked(s: State) {
    forall i :: 0 <= i < |s.edits| ==>
      && FindResult(s.results, s.edits[i].source).Some?
      && (s.edits[i].edited.Some? ==> ResultOf(s.results, s.edits[i]))
  }

  ghost predicate ResultOf(results: seq<ResultRow>, edit: EditRow)
    requires edit.edited.Some?
  {
    exists i :: 0 <= i < |results| && results[i].id == edit.edited.value && results[i].task == edit.task
      && results[i].parent == Some(edit.source)
  }

  lemma AppendKeepsParents(results: seq<ResultRow>, row: ResultRow)
    requires forall i :: 0 <= i < |results| && results[i].parent.Some? ==> HasEarlierParent(results, i)
    ensures forall i :: 0 <= i < |results| && results[i].parent.Some? ==> HasEarlierParent(results + [row], i)
  {
    forall i | 0 <= i < |results| && results[i].parent.Some? ensures HasEarlierParent(results + [row], i) {
      var j :| 0 <= j < i && ParentAt(results, i, j) && results[j].version < results[i].version;
      assert ParentAt(results + [row], i, j);
    }
  }

  lemma FirstHandKeepsVersions(results: seq<ResultRow>, row: ResultRow)
    requires VersionsOrdered(results) && FindResult(results, row.id).None? && row.version >= 1 && row.parent.None?
    ensures VersionsOrdered(results + [row])
  {
    AppendKeepsParents(results, row);
  }

  lemma EditedKeepsVersions(results: seq<ResultRow>, row: ResultRow, source: Id)
    requires VersionsOrdered(results) && FindResult(results, row.id).None? && FindResult(results, source).Some?
    requires row.parent == Some(source) && row.version == NextVersion(results, source)
    ensures VersionsOrdered(results + [row])
  {
    AppendKeepsParents(results, row);
    NextVersionIsNewest(results, source);
    var n, j := |results|, FindResult(results, source).value;
    assert InFamily(results[j], source);
    assert ParentAt(results + [row], n, j);
    assert HasEarlierParent(results + [row], n);
    forall i | 0 <= i < n && results[i].parent == row.parent ensures results[i].version < row.version {
      assert InFamily(results[i], source);
    }
  }

  lemma AppendKeepsFound(results: seq<ResultRow>, row: ResultRow, id: Id)
    requires FindResult(results, id).Some?
    ensures FindResult(results + [row], id).Some?
  {
    assert (results + [row])[..|results|] == results;
  }

  lemma AppendKeepsResultOf(results: seq<ResultRow>, row: ResultRow, edit: EditRow)
    requires edit.edited.Some? && ResultOf(results, edit)
    ensures ResultOf(results + [row], edit)
  {
    var i :| 0 <= i < |results| && results[i].id == edit.edited.value && results[i].task == edit.task
      && results[i].parent == Some(edit.source);
    assert (results + [row])[i] == results[i];
  }

  lemma AppendKeepsLinked(s: State, row: ResultRow)
    requires Linked(s)
    ensures Linked(s.(results := s.results + [row]))
  {
    forall i | 0 <= i < |s.edits| ensures FindResult(s.results + [row], s.edits[i].source).Some? {
      AppendKeepsFound(s.results, row, s.edits[i].source);
    }
    forall i | 0 <= i < |s.edits| && s.edits[i].edited.Some? ensures ResultOf(s.results + [row], s.edits[i]) {
      AppendKeepsResultOf(s.results, row, s.edits[i]);
    }
  }

  /** What one completed edit adds: a result whose version exceeds its source's and every sibling's. */
  lemma CompletionIsNewest(s: State, p: Prepared, newId: Id, stored: Option<Error>, now: Time)
    requires Linked(s) && VersionsOrdered(s.results) && Fits(s, p)
    ensures var (after, reply) := Completed(s, p, newId, stored, now);
      if reply.Err? then after == s
      else
        && |after.results| == |s.results| + 1 && after.results[..|s.results|] == s.results
        && after.results[|s.results|].id == newId && after.results[|s.results|].version == reply.value >= 2
        && after.results[|s.results|].parent == Some(p.source)
        && FindResult(s.results, newId).None?
        && (exists j :: 0 <= j < |s.results| && s.results[j].id == p.source)
        && forall j :: 0 <= j < |s.results| && InFamily(s.results[j], p.source) ==> s.results[j].version < reply.value
  {
    NextVersionIsNewest(s.results, p.source);
    var e := FindEditById(s.edits, p.edit).value;
    assert FindResult(s.results, s.edits[e].source).Some?;
  }

  lemma CompletedKeepsLinked(s: State, p: Prepared, newId: Id, now: Time)
    requires Linked(s) && VersionsOrdered(s.results) && Fits(s, p)
    ensures Linked(Completed(s, p, newId, None, now).0)
  {
    var (after, reply) := Completed(s, p, newId, None, now);
    if reply.Ok? {
      var e := FindEditById(s.edits, p.edit).value;
      var row := after.results[|s.results|];
      AppendKeepsLinked(s, row);
      assert after.edits[e].edited == Some(newId) && after.results[|s.results|].id == newId;
      assert ResultOf(after.results, after.edits[e]);
      forall i | 0 <= i < |after.edits| && i != e ensures after.edits[i] == s.edits[i] {}
      assert after.edits[e].source == s.edits[e].source;
    }
  }

  ghost predicate Inv(s: State) {
    Paired(s) && Linked(s) && VersionsOrdered(s.results)
  }

  lemma StepKeepsVersions(s: State, step: Step)
    requires Linked(s) && VersionsOrdered(s.results) && Legal(s, step)
    ensures VersionsOrdered(Apply(s, step).results)
  {
    match step
    case AddResult(row) => FirstHandKeepsVersions(s.results, row);
    case Complete(p, newId, stored, now) =>
      var (after, reply) := Completed(s, p, newId, stored, now);
      if reply.Ok? {
        var e := FindEditById(s.edits, p.edit).value;
        EditedKeepsVersions(s.results, after.results[|s.results|], s.edits[e].source);
      }
    case _ =>
  }

  lemma StepKeepsLinked(s: State, step: Step)
    requires Linked(s) && VersionsOrdered(s.results) && Legal(s, step)
    ensures Linked(Apply(s, step))
  {
    match step
    case AddResult(row) => AppendKeepsLinked(s, row);
    case Complete(p, newId, stored, now) =>
      if stored.None? {
        CompletedKeepsLinked(s, p, newId, now);
      }
    case _ => OtherStepKeepsLinked(s, step);
  }

  lemma OtherStepKeepsLinked(s: State, step: Step)
    requires Linked(s) && Legal(s, step) && !step.AddResult? && !step.Complete?
    ensures Linked(Apply(s, step))
  {
    var after := Apply(s, step);
    assert after.results == s.results;
    forall i | 0 <= i < |after.edits|
      ensures FindResult(s.results, after.edits[i].source).Some?
      ensures after.edits[i].edited.Some? ==> ResultOf(s.results, after.edits[i])
    {
      if i < |s.edits| {
        assert after.edits[i].edited == s.edits[i].edited && after.edits[i].source == s.edits[i].source
            && after.edits[i].task == s.edits[i].task;
        assert s.edits[i].edited.Some? ==> ResultOf(s.results, s.edits[i]);
      }
    }
  }

  lemma StepKeepsInv(s: State, step: Step)
    requires Inv(s) && Legal(s, step)
    ensures Inv(Apply(s, step))
  {
    StepKeepsPaired(s, step);
    StepKeepsVersions(s, step);
    StepKeepsLinked(s, step);
  }

  /** In every run of creations, executions and failures, in any interleaving of their transactions, each
      edit row agrees with its task row, and versions order the results. */
  lemma {:induction false} RunKeepsInv(steps: seq<Step>)
    requires LegalRun(Empty, steps)
    ensures Inv(Run(Empty, steps))
  {
    if steps != [] {
      var before := steps[..|steps| - 1];
      assert forall k :: 0 <= k < |before| ==> before[..k] == steps[..k] && before[k] == steps[k];
      RunKeepsInv(before);
      StepKeepsInv(Run(Empty, before), steps[|steps| - 1]);
    }
  }

  /** An execution fits its edit from its preparation until the edit completes, whatever happens between. */
  lemma PreparedFits(s: State, task: Id, located: Option<Error>, now: Time)
    requires Inv(s) && Started(s, task, located, now).1.Ok?
    ensures Fits(Started(s, task, located, now).0, Started(s, task, located, now).1.value)
  {
    var (after, reply) := Started(s, task, located, now);
    var e := FindEdit(s.edits, task).value;
    assert after.edits[e].id == reply.value.edit && |after.edits| == |s.edits|;
    assert forall i, j :: 0 <= i < j < |after.edits| ==> after.edits[i].id != after.edits[j].id;
  }

  lemma StepKeepsIdentity(s: State, step: Step, i: nat)
    requires i < |s.edits|
    ensures var after := Apply(s, step).edits;
      i < |after| && after[i].id == s.edits[i].id && after[i].task == s.edits[i].task && after[i].source == s.edits[i].source
  {
  }

  lemma FoundById(edits: seq<EditRow>, i: nat)
    requires i < |edits| && forall j, k :: 0 <= j < k < |edits| ==> edits[j].id != edits[k].id
    ensures FindEditById(edits, edits[i].id) == Some(i)
  {
    var found := FindEditById(edits, edits[i].id);
    assert found.Some?;
  }

  lemma FitsStays(s: State, step: Step, p: Prepared)
    requires Inv(s) && Legal(s, step) && Fits(s, p)
    ensures Fits(Apply(s, step), p)
  {
    StepKeepsPaired(s, step);
    var e := FindEditById(s.edits, p.edit).value;
    StepKeepsIdentity(s, step, e);
    FoundById(Apply(s, step).edits, e);
  }

  // ---------------------------------------------------------------- the parent forest

  ghost function ParentOf(results: seq<ResultRow>, i: nat): (j: nat)
    requires VersionsOrdered(results) && i < |results| && results[i].parent.Some?
    ensures j < i && ParentAt(results, i, j) && results[j].version < results[i].version
  {
    assert HasEarlierParent(results, i);
    var j :| 0 <= j < i && ParentAt(results, i, j) && results[j].version < results[i].version;
    j
  }

  /** The positions met when following parents from row `i`. */
  ghost function Lineage(results: seq<ResultRow>, i: nat): seq<nat>
    requires VersionsOrdered(results) && i < |results|
    decreases i
  {
    [i] + if results[i].parent.None? then [] else Lineage(results, ParentOf(results, i))
  }

  /** Rows of which each is the parent of the one before it, older and of a smaller version, down to a
      first-hand result. */
  ghost predicate Descends(results: seq<ResultRow>, line: seq<nat>) {
    && line != [] && line[0] < |results|
    && if |line| == 1 then results[line[0]].parent.None?
       else
         && line[1] < line[0] && ParentAt(results, line[0], line[1])
         && results[line[1]].version < results[line[0]].version
         && Descends(results, line[1..])
  }

  /** Following parents ends at a first-hand result, through strictly smaller versions at earlier
      positions, after fewer steps than the version says. */
  lemma {:induction false} LineageDescends(results: seq<ResultRow>, i: nat)
    requires VersionsOrdered(results) && i < |results|
    ensures Lineage(results, i)[0] == i && Descends(results, Lineage(results, i))
    ensures |Lineage(results, i)| <= results[i].version
    decreases i
  {
    if results[i].parent.Some? {
      var rest := Lineage(results, ParentOf(results, i));
      LineageDescends(results, ParentOf(results, i));
      assert ([i] + rest)[1..] == rest;
    }
  }

  /** No second lineage leads down from the same row. */
  lemma {:induction false} LineageIsUnique(results: seq<ResultRow>, line: seq<nat>)
    requires VersionsOrdered(results) && Descends(results, line)
    ensures line == Lineage(results, line[0])
    decreases |line|
  {
    if |line| > 1 {
      LineageIsUnique(results, line[1..]);
      assert line[1] == ParentOf(results, line[0]);
      assert line == [line[0]] + line[1..];
    } else {
      assert line == [line[0]];
    }
  }

  // ---------------------------------------------------------------- succeeded edits and their results

  /** The edited result is set exactly in the succeeded state. */
  ghost predicate Tied(s: State) {
    forall i :: 0 <= i < |s.edits| ==> (s.edits[i].edited.Some? <==> s.edits[i].status == Succeeded)
  }

  /** Another execution of an edit that has succeeded starts or fails: a message delivered again. */
  ghost predicate Disturbs(s: State, step: Step) {
    match step
    case Prepare(task, located, now) => Started(s, task, located, now).1.Ok? && SucceededEdit(s, task)
    case MarkFailed(task, _, _) => task in s.tasks && SucceededEdit(s, task)
    case _ => false
  }

  ghost predicate SucceededEdit(s: State, task: Id) {
    var found := FindEdit(s.edits, task);
    found.Some? && s.edits[found.value].status == Succeeded
  }

  lemma StepKeepsTiedIff(s: State, step: Step)
    requires Tied(s)
    ensures Tied(Apply(s, step)) <==> !Disturbs(s, step)
  {
    var after := Apply(s, step);
    match step
    case Prepare(task, located, now) =>
      if Disturbs(s, step) {
        assert after.edits[FindEdit(s.edits, task).value].status == Running;
      }
    case MarkFailed(task, error, now) =>
      if Disturbs(s, step) {
        assert after.edits[FindEdit(s.edits, task).value].status == Failed;
      }
    case _ =>
  }

  ghost predicate TiedThroughout(s: State, steps: seq<Step>) {
    Tied(Run(s, steps)) && (steps != [] ==> TiedThroughout(s, steps[..|steps| - 1]))
  }

  ghost predicate Undisturbed(s: State, steps: seq<Step>) {
    steps != [] ==>
      && Undisturbed(s, steps[..|steps| - 1])
      && !Disturbs(Run(s, steps[..|steps| - 1]), steps[|steps| - 1])
  }

  /** Throughout a run the edited result is set exactly in the succeeded state, if and only if no
      execution of an already succeeded edit starts or fails in it. */
  lemma {:induction false} TiedThroughoutIff(s: State, steps: seq<Step>)
    requires Tied(s)
    ensures TiedThroughout(s, steps) <==> Undisturbed(s, steps)
  {
    if steps != [] {
      var before := steps[..|steps| - 1];
      TiedThroughoutIff(s, before);
      if TiedThroughout(s, before) {
        StepKeepsTiedIff(Run(s, before), steps[|steps| - 1]);
      }
    }
  }

  lemma RunPrefix(s: State, steps: seq<Step>, k: nat)
    requires k < |steps|
    ensures Run(s, steps[..k + 1]) == Apply(Run(s, steps[..k]), steps[k])
  {
    assert steps[..k + 1][..k] == steps[..k];
  }

  /** An input: a finished edit whose message is delivered again. */
  function UntyingSteps(): seq<Step> {
    [StoreTask(0, SampleTask),
     AddResult(SampleSource),
     CreateEdit(7, 1, 2, 3),
     Prepare(3, None, 10),
     Complete(Prepared(2, 3, 7, 1), 4, None, 11),
     Prepare(3, None, 12)]
  }

  const SampleSource := ResultRow(1, 0, 7, 1, None, true)
  const SampleResult := ResultRow(4, 3, 7, 2, Some(1), true)
  const SampleTask := TaskRow(7, MainImage, Succeeded, "completed", 100, None, None, None)

  /** The tables during that run, by the status of the edit and its job. */
  function SampleState(status: Status, step: string, progress: nat, startedAt: Option<Time>, finishedAt: Option<Time>,
                       edited: Option<Id>, results: seq<ResultRow>): State {
    State(map[0 := SampleTask, 3 := TaskRow(7, ImageEdit, status, step, progress, startedAt, finishedAt, None)],
          [EditRow(2, 1, 3, 7, status, edited, startedAt, finishedAt, None)], results)
  }

  lemma SampleLookups(edit: EditRow, results: seq<ResultRow>)
    requires edit.task == 3 && edit.id == 2 && (results == [SampleSource] || results == [SampleSource, SampleResult])
    ensures FindEdit([edit], 3) == Some(0) && FindEditById([edit], 2) == Some(0)
    ensures ResultFor(results, 1, 7) == Some(SampleSource)
    ensures results == [SampleSource] ==> FindResult(results, 4).None? && NextVersion(results, 1) == 2
  {
    assert [SampleSource, SampleResult][..1] == [SampleSource];
    assert FindResult([SampleSource], 1) == Some(0);
    assert MaxVersion([SampleSource], 1) == Some(1);
  }

  lemma SampleCreation()
    ensures Created(State(map[0 := SampleTask], [], [SampleSource]), 7, 1, 2, 3).0
      == SampleState(Queued, "queued", 0, None, None, None, [SampleSource])
  {
    assert FindResult([SampleSource], 1) == Some(0);
  }

  lemma SampleStart(s: State, was: Status, step: string, progress: nat, startedAt: Option<Time>, finishedAt: Option<Time>,
                    edited: Option<Id>, results: seq<ResultRow>, now: Time)
    requires s == SampleState(was, step, progress, startedAt, finishedAt, edited, results)
    requires results == [SampleSource] || results == [SampleSource, SampleResult]
    ensures Started(s, 3, None, now).0
      == SampleState(Running, "image_edit_generate", 20, OrNow(startedAt, now), finishedAt, edited, results)
  {
    SampleLookups(s.edits[0], results);
    var after := Started(s, 3, None, now).0;
    var expected := SampleState(Running, "image_edit_generate", 20, OrNow(startedAt, now), finishedAt, edited, results);
    assert after.edits == expected.edits;
    assert after.tasks == expected.tasks;
  }

  lemma SampleCompletion(s: State)
    requires s == SampleState(Running, "image_edit_generate", 20, Some(10), None, None, [SampleSource])
    ensures Fits(s, Prepared(2, 3, 7, 1))
    ensures Completed(s, Prepared(2, 3, 7, 1), 4, None, 11).0
      == SampleState(Succeeded, "completed", 100, Some(10), Some(11), Some(4), [SampleSource, SampleResult])
  {
    SampleLookups(s.edits[0], [SampleSource]);
    var after := Completed(s, Prepared(2, 3, 7, 1), 4, None, 11).0;
    var expected := SampleState(Succeeded, "completed", 100, Some(10), Some(11), Some(4), [SampleSource, SampleResult]);
    assert after.edits == expected.edits;
    assert after.tasks == expected.tasks;
  }

  lemma SampleQueued()
    ensures Run(Empty, UntyingSteps()[..2]) == State(map[0 := SampleTask], [], [SampleSource])
    ensures Run(Empty, UntyingSteps()[..3]) == SampleState(Queued, "queued", 0, None, None, None, [SampleSource])
  {
    var steps := UntyingSteps();
    assert steps[..0] == [];
    RunPrefix(Empty, steps, 0);
    RunPrefix(Empty, steps, 1);
    RunPrefix(Empty, steps, 2);
    SampleCreation();
  }

  lemma SampleRunning()
    ensures Run(Empty, UntyingSteps()[..4])
      == SampleState(Running, "image_edit_generate", 20, Some(10), None, None, [SampleSource])
  {
    SampleQueued();
    RunPrefix(Empty, UntyingSteps(), 3);
    SampleStart(Run(Empty, UntyingSteps()[..3]), Queued, "queued", 0, None, None, None, [SampleSource], 10);
  }

  lemma SampleSucceeded()
    ensures Run(Empty, UntyingSteps()[..5])
      == SampleState(Succeeded, "completed", 100, Some(10), Some(11), Some(4), [SampleSource, SampleResult])
  {
    SampleRunning();
    RunPrefix(Empty, UntyingSteps(), 4);
    SampleCompletion(Run(Empty, UntyingSteps()[..4]));
  }

  lemma SampleRunIsLegal()
    ensures LegalRun(Empty, UntyingSteps())
  {
    var steps := UntyingSteps();
    assert steps[..0] == [];
    RunPrefix(Empty, steps, 0);
    SampleRunning();
    SampleCompletion(Run(Empty, steps[..4]));
  }

  /** A legal run after which an edit is running and yet has an edited result. */
  lemma RedeliveryUnties()
    ensures LegalRun(Empty, UntyingSteps())
    ensures Run(Empty, UntyingSteps())
      == SampleState(Running, "image_edit_generate", 20, Some(10), Some(11), Some(4), [SampleSource, SampleResult])
    ensures !Tied(Run(Empty, UntyingSteps()))
  {
    SampleRunIsLegal();
    SampleSucceeded();
    var steps := UntyingSteps();
    assert steps[..6] == steps;
    RunPrefix(Empty, steps, 5);
    SampleStart(Run(Empty, steps[..5]), Succeeded, "completed", 100, Some(10), Some(11), Some(4), [SampleSource, SampleResult], 12);
    assert Run(Empty, steps).edits[0].edited.Some?;
  }

  // ---------------------------------------------------------------- one execution and its retries

  /** What an attempt meets outside the database. */
  datatype Attempt = Attempt(
    located: Option<Error>, drawn: Option<Error>, stored: Option<Error>, newId: Id,
    failureSaved: bool, startTime: Time, endTime: Time)

  /** The transaction that records a failure may fail itself; that is only logged. */
  function FailureRecorded(s: State, task: Id, error: Error, a: Attempt): State {
    if a.failureSaved then MarkedFailed(s, task, error, a.endTime) else s
  }

  /** Generation and completion of a prepared execution, with the error raised. */
  function Finished(s: State, p: Prepared, a: Attempt): (State, Option<Error>) {
    if a.drawn.Some? then (s, a.drawn) else
      var (completed, version) := Completed(s, p, a.newId, a.stored, a.endTime);
      (completed, if version.Err? then Some(version.error) else None)
  }

  /** The body of the `try` in `run_edit_task_sync`. */
  function Attempted(s: State, task: Id, a: Attempt): (State, Option<Error>) {
    var (started, prepared) := Started(s, task, a.located, a.startTime);
    if prepared.Err? then (started, Some(prepared.error)) else Finished(started, prepared.value, a)
  }

  /** `run_edit_task_sync`, with the error it raises again. */
  function Executed(s: State, task: Id, a: Attempt): (State, Option<Error>) {
    var (after, error) := Attempted(s, task, a);
    (if error.Some? then FailureRecorded(after, task, error.value, a) else after, error)
  }

  datatype Delivery = Delivery(state: State, error: Option<Error>, attempts: nat)

  /** `run_image_edit_task` for one delivered message, from retry number `retries` on. */
  function Delivered(s: State, task: Id, world: nat -> Attempt, retries: nat, maxRetries: nat): Delivery
    decreases maxRetries - retries
  {
    var (after, error) := Executed(s, task, world(retries));
    if error.None? then Delivery(after, None, 1)
    else if retries < maxRetries then
      var rest := Delivered(after, task, world, retries + 1, maxRetries);
      rest.(attempts := rest.attempts + 1)
    else Delivery(after, error, 1)
  }

  /** An edit whose task has this id exists. */
  ghost predicate HasEdit(s: State, task: Id) {
    FindEdit(s.edits, task).Some?
  }

  ghost function EditFor(s: State, task: Id): EditRow
    requires HasEdit(s, task)
  {
    s.edits[FindEdit(s.edits, task).value]
  }

  lemma FoundByTask(edits: seq<EditRow>, i: nat)
    requires i < |edits| && forall j, k :: 0 <= j < k < |edits| ==> edits[j].task != edits[k].task
    ensures FindEdit(edits, edits[i].task) == Some(i)
  {
    var found := FindEdit(edits, edits[i].task);
    assert found.Some?;
  }

  lemma StartedShape(s: State, task: Id, located: Option<Error>, now: Time)
    requires Inv(s) && HasEdit(s, task)
    ensures var (after, reply) := Started(s, task, located, now);
      && Inv(after) && HasEdit(after, task) && after.results == s.results
      && EditFor(after, task).source == EditFor(s, task).source && EditFor(after, task).edited == EditFor(s, task).edited
      && if reply.Err? then after == s else EditFor(after, task).status == Running
  {
    var step := Prepare(task, located, now);
    StepKeepsInv(s, step);
    var e := FindEdit(s.edits, task).value;
    StepKeepsIdentity(s, step, e);
    FoundByTask(Apply(s, step).edits, e);
  }

  lemma CompletedShape(s: State, p: Prepared, a: Attempt)
    requires Inv(s) && HasEdit(s, p.task) && Fits(s, p)
    ensures var (after, reply) := Completed(s, p, a.newId, a.stored, a.endTime);
      && Inv(after) && HasEdit(after, p.task)
      && EditFor(after, p.task).source == EditFor(s, p.task).source
      && if reply.Err? then after == s
         else
           && EditFor(after, p.task).status == Succeeded && EditFor(after, p.task).edited == Some(a.newId)
           && EditFor(after, p.task).error == None
           && |after.results| == |s.results| + 1 && after.results[|s.results|].id == a.newId
           && FindResult(s.results, a.newId).None?
  {
    var step := Complete(p, a.newId, a.stored, a.endTime);
    StepKeepsInv(s, step);
    var e := FindEditById(s.edits, p.edit).value;
    StepKeepsIdentity(s, step, e);
    FoundByTask(s.edits, e);
    FoundByTask(Apply(s, step).edits, e);
  }

  lemma FailureOutcome(s: State, task: Id, error: Error, a: Attempt)
    requires Inv(s) && Tied(s) && HasEdit(s, task) && EditFor(s, task).status != Succeeded
    ensures var after := FailureRecorded(s, task, error, a);
      && Inv(after) && Tied(after) && HasEdit(after, task) && after.results == s.results
      && EditFor(after, task).source == EditFor(s, task).source
      && EditFor(after, task).status != Succeeded
      && (a.failureSaved ==> EditFor(after, task).status == Failed && EditFor(after, task).error == Some(error))
  {
    if a.failureSaved {
      var step := MarkFailed(task, error, a.endTime);
      StepKeepsInv(s, step);
      StepKeepsTiedIff(s, step);
      var e := FindEdit(s.edits, task).value;
      StepKeepsIdentity(s, step, e);
      FoundByTask(MarkedFailed(s, task, error, a.endTime).edits, e);
    }
  }

  /** What an attempt on the edit of `task` leads to, failures not yet recorded. */
  ghost predicate Outcome(s: State, task: Id, newId: Id, after: State, error: Option<Error>)
    requires HasEdit(s, task)
  {
    && Inv(after) && HasEdit(after, task)
    && EditFor(after, task).source == EditFor(s, task).source
    && if error.None? then
         && EditFor(after, task).status == Succeeded && EditFor(after, task).edited == Some(newId)
         && |after.results| == |s.results| + 1 && FindResult(s.results, newId).None?
       else
         && after.results == s.results && EditFor(after, task).edited == EditFor(s, task).edited
         && (EditFor(after, task).status == Running || after == s)
  }

  lemma FinishedShape(s: State, started: State, p: Prepared, a: Attempt)
    requires HasEdit(s, p.task) && Outcome(s, p.task, a.newId, started, Some(NoTask))
    requires Fits(started, p) && EditFor(started, p.task).status == Running
    ensures Outcome(s, p.task, a.newId, Finished(started, p, a).0, Finished(started, p, a).1)
  {
    CompletedShape(started, p, a);
  }

  lemma AttemptShape(s: State, task: Id, a: Attempt)
    requires Inv(s) && HasEdit(s, task)
    ensures Outcome(s, task, a.newId, Attempted(s, task, a).0, Attempted(s, task, a).1)
  {
    StartedShape(s, task, a.located, a.startTime);
    var (started, prepared) := Started(s, task, a.located, a.startTime);
    if prepared.Ok? {
      PreparedFits(s, task, a.located, a.startTime);
      assert prepared.value.task == task;
      FinishedShape(s, started, prepared.value, a);
    }
  }

  lemma AttemptKeepsTied(s: State, task: Id, a: Attempt)
    requires Inv(s) && Tied(s) && HasEdit(s, task) && EditFor(s, task).status != Succeeded
    ensures Tied(Attempted(s, task, a).0)
  {
    StepKeepsTiedIff(s, Prepare(task, a.located, a.startTime));
    var (started, prepared) := Started(s, task, a.located, a.startTime);
    if prepared.Ok? {
      StepKeepsTiedIff(started, Complete(prepared.value, a.newId, a.stored, a.endTime));
    }
  }

  /** What holds of an edit before and after an execution of it. */
  ghost predicate Settled(s: State, task: Id, source: Id) {
    Inv(s) && Tied(s) && HasEdit(s, task) && EditFor(s, task).source == source
  }

  /** An execution of an edit that has not succeeded yet either succeeds, which adds one result and ties
      it to the edit, or raises, which adds none and leaves the edit without a result. */
  lemma ExecutionOutcome(s: State, task: Id, a: Attempt, source: Id)
    requires Settled(s, task, source) && EditFor(s, task).status != Succeeded
    ensures var (after, error) := Executed(s, task, a);
      && Settled(after, task, source)
      && (EditFor(after, task).status == Succeeded <==> error.None?)
      && (error.None? ==> EditFor(after, task).edited == Some(a.newId) && |after.results| == |s.results| + 1)
      && (error.Some? ==> after.results == s.results)
      && (error.Some? && a.failureSaved ==> EditFor(after, task).status == Failed && EditFor(after, task).error == error)
  {
    AttemptShape(s, task, a);
    AttemptKeepsTied(s, task, a);
    var (after, error) := Attempted(s, task, a);
    if error.Some? {
      FailureOutcome(after, task, error.value, a);
    }
  }

  lemma {:induction false} DeliveryAttempts(s: State, task: Id, world: nat -> Attempt, retries: nat, maxRetries: nat)
    requires retries <= maxRetries
    ensures var d := Delivered(s, task, world, retries, maxRetries);
      && 1 <= d.attempts <= maxRetries - retries + 1
      && (d.error.Some? ==> d.attempts == maxRetries - retries + 1)
    decreases maxRetries - retries
  {
    var (after, error) := Executed(s, task, world(retries));
    if error.Some? && retries < maxRetries {
      DeliveryAttempts(after, task, world, retries + 1, maxRetries);
    }
  }

  /** What a delivery that starts from an edit without success leaves. */
  ghost predicate DeliveredWell(s: State, task: Id, source: Id, after: State, error: Option<Error>, saved: bool) {
    && Settled(after, task, source)
    && (EditFor(after, task).status == Succeeded <==> error.None?)
    && |after.results| == |s.results| + (if error.None? then 1 else 0)
    && (error.Some? && saved ==> EditFor(after, task).status == Failed && EditFor(after, task).error == error)
  }

  lemma ExecutionDelivers(s: State, task: Id, a: Attempt, source: Id)
    requires Settled(s, task, source) && EditFor(s, task).status != Succeeded
    ensures DeliveredWell(s, task, source, Executed(s, task, a).0, Executed(s, task, a).1, a.failureSaved)
  {
    ExecutionOutcome(s, task, a, source);
  }

  /** After an attempt that raised, what the rest of the delivery leaves is left by the whole of it. */
  lemma DeliveredOnward(s: State, task: Id, source: Id, after: State, failed: Option<Error>, saved: bool,
                        last: State, error: Option<Error>, lastSaved: bool)
    requires failed.Some? && HasEdit(s, task)
    requires DeliveredWell(s, task, source, after, failed, saved)
    requires DeliveredWell(after, task, source, last, error, lastSaved)
    ensures DeliveredWell(s, task, source, last, error, lastSaved)
  {
  }

  lemma {:induction false} DeliveryIsWell(s: State, task: Id, world: nat -> Attempt, retries: nat, maxRetries: nat, source: Id)
    requires Settled(s, task, source) && EditFor(s, task).status != Succeeded && retries <= maxRetries
    ensures var d := Delivered(s, task, world, retries, maxRetries);
      DeliveredWell(s, task, source, d.state, d.error, world(maxRetries).failureSaved)
    decreases maxRetries - retries
  {
    var a := world(retries);
    ExecutionDelivers(s, task, a, source);
    var (after, error) := Executed(s, task, a);
    if error.Some? && retries < maxRetries {
      DeliveryIsWell(after, task, world, retries + 1, maxRetries, source);
      var rest := Delivered(after, task, world, retries + 1, maxRetries);
      DeliveredOnward(s, task, source, after, error, a.failureSaved, rest.state, rest.error, world(maxRetries).failureSaved);
    }
  }

  /** A message delivered once makes at most `maxRetries - retries + 1` attempts from retry `retries`
      on. The edit has succeeded, with one result added and tied to it, exactly when the last of them
      succeeded; after any mix of failed attempts no other result is added and the two rows agree. */
  lemma DeliveryOutcome(s: State, task: Id, world: nat -> Attempt, retries: nat, maxRetries: nat, source: Id)
    requires Settled(s, task, source) && EditFor(s, task).status != Succeeded && retries <= maxRetries
    ensures var d := Delivered(s, task, world, retries, maxRetries);
      && 1 <= d.attempts <= maxRetries - retries + 1
      && (d.error.Some? ==> d.attempts == maxRetries - retries + 1)
      && DeliveredWell(s, task, source, d.state, d.error, world(maxRetries).failureSaved)
  {
    DeliveryAttempts(s, task, world, retries, maxRetries);
    DeliveryIsWell(s, task, world, retries, maxRetries, source);
  }

  /** A message delivered again after its edit succeeded: a success adds a second result and moves the
      edit to it, a recorded failure leaves the edit failed with its old result still set. */
  lemma RedeliveryOutcome(s: State, task: Id, a: Attempt)
    requires Inv(s) && Tied(s) && HasEdit(s, task) && EditFor(s, task).status == Succeeded
    ensures var (after, error) := Executed(s, task, a);
      && Paired(after) && HasEdit(after, task)
      && (error.None? ==>
            EditFor(after, task).edited == Some(a.newId) != EditFor(s, task).edited && |after.results| == |s.results| + 1)
      && (error.Some? ==> after.results == s.results && EditFor(after, task).edited == EditFor(s, task).edited)
      && (error.Some? && a.failureSaved ==> EditFor(after, task).status == Failed && !Tied(after))
  {
    AttemptShape(s, task, a);
    var (after, error) := Attempted(s, task, a);
    if error.Some? {
      MarkedOutcome(after, task, error.value, a);
    } else {
      OldResultIsOther(s, FindEdit(s.edits, task).value, a.newId);
    }
  }

  lemma MarkedOutcome(s: State, task: Id, error: Error, a: Attempt)
    requires Inv(s) && HasEdit(s, task)
    ensures var after := FailureRecorded(s, task, error, a);
      && Paired(after) && HasEdit(after, task) && after.results == s.results
      && EditFor(after, task).edited == EditFor(s, task).edited
      && (a.failureSaved ==> EditFor(after, task).status == Failed)
      && (a.failureSaved && EditFor(s, task).edited.Some? ==> !Tied(after))
  {
    if a.failureSaved {
      var step := MarkFailed(task, error, a.endTime);
      StepKeepsInv(s, step);
      var e := FindEdit(s.edits, task).value;
      StepKeepsIdentity(s, step, e);
      FoundByTask(MarkedFailed(s, task, error, a.endTime).edits, e);
    }
  }

  lemma OldResultIsOther(s: State, e: nat, newId: Id)
    requires Inv(s) && e < |s.edits| && s.edits[e].edited.Some?
    requires FindResult(s.results, newId).None?
    ensures s.edits[e].edited != Some(newId)
  {
    assert ResultOf(s.results, s.edits[e]);
  }

  // ---------------------------------------------------------------- when an execution succeeds

  /** No result id occurs twice. */
  ghost predicate UniqueResults(results: seq<ResultRow>) {
    forall i, j :: 0 <= i < j < |results| ==> results[i].id != results[j].id
  }

  lemma StepKeepsUniqueResults(s: State, step: Step)
    requires UniqueResults(s.results) && Legal(s, step)
    ensures UniqueResults(Apply(s, step).results)
  {
  }

  lemma {:induction false} RunKeepsUniqueResults(steps: seq<Step>)
    requires LegalRun(Empty, steps)
    ensures UniqueResults(Run(Empty, steps).results)
  {
    if steps != [] {
      var before := steps[..|steps| - 1];
      assert forall k :: 0 <= k < |before| ==> before[..k] == steps[..k] && before[k] == steps[k];
      RunKeepsUniqueResults(before);
      StepKeepsUniqueResults(Run(Empty, before), steps[|steps| - 1]);
    }
  }

  /** Result `i` is the source of the edit, seen by its user. */
  ghost predicate IsSource(s: State, edit: EditRow, i: int) {
    0 <= i < |s.results| && s.results[i].id == edit.source && s.results[i].user == edit.user
  }

  /** The task that result `i` belongs to is of that user too. */
  ghost predicate OwnTask(s: State, edit: EditRow, i: int) {
    0 <= i < |s.results| && s.results[i].task in s.tasks && s.tasks[s.results[i].task].user == edit.user
  }

  /** The first thing that goes wrong in an execution of this edit, in the order in which they are met. */
  ghost function FirstError(s: State, edit: EditRow, a: Attempt): Option<Error> {
    if forall i :: !IsSource(s, edit, i) then Some(NoResult)
    else if forall i :: IsSource(s, edit, i) ==> !OwnTask(s, edit, i) then Some(NoTask)
    else if a.located.Some? then a.located
    else LaterError(s.results, a)
  }

  /** The first thing that goes wrong once the execution is prepared. */
  ghost function LaterError(results: seq<ResultRow>, a: Attempt): Option<Error> {
    if a.drawn.Some? then a.drawn
    else if a.stored.Some? then a.stored
    else if exists i :: 0 <= i < |results| && results[i].id == a.newId then Some(Duplicate)
    else None
  }

  lemma SourceFound(s: State, edit: EditRow)
    requires UniqueResults(s.results)
    ensures var source := ResultFor(s.results, edit.source, edit.user);
      && (source.None? <==> forall i :: !IsSource(s, edit, i))
      && (source.Some? ==> (TaskFor(s.tasks, source.value.task, edit.user)
                            <==> exists i :: IsSource(s, edit, i) && OwnTask(s, edit, i)))
  {
    var found := FindResult(s.results, edit.source);
    if found.Some? {
      assert forall i :: IsSource(s, edit, i) ==> i == found.value;
      assert s.results[found.value].user == edit.user ==> IsSource(s, edit, found.value);
    }
  }

  lemma StartErrs(s: State, e: nat, task: Id, located: Option<Error>, now: Time)
    requires Inv(s) && UniqueResults(s.results) && e < |s.edits| && s.edits[e].task == task
    ensures var reply, edit := Started(s, task, located, now).1, s.edits[e];
      && (reply.Ok? <==> located.None? && exists i :: IsSource(s, edit, i) && OwnTask(s, edit, i))
      && (reply.Err? ==> reply.error == (if forall i :: !IsSource(s, edit, i) then NoResult
                                         else if forall i :: IsSource(s, edit, i) ==> !OwnTask(s, edit, i) then NoTask
                                         else located.value))
  {
    FoundByTask(s.edits, e);
    SourceFound(s, s.edits[e]);
  }

  lemma FinishErrs(s: State, p: Prepared, a: Attempt)
    requires Inv(s) && Fits(s, p)
    ensures Finished(s, p, a).1 == LaterError(s.results, a)
  {
    var found := FindResult(s.results, a.newId);
  }

  lemma PreparedErrs(s: State, e: nat, task: Id, a: Attempt)
    requires Inv(s) && e < |s.edits| && s.edits[e].task == task
    requires Started(s, task, a.located, a.startTime).1.Ok?
    ensures Executed(s, task, a).1 == LaterError(s.results, a)
  {
    FoundByTask(s.edits, e);
    StartedShape(s, task, a.located, a.startTime);
    PreparedFits(s, task, a.located, a.startTime);
    var (started, prepared) := Started(s, task, a.located, a.startTime);
    FinishErrs(started, prepared.value, a);
  }

  /** The error of an execution of a stored edit is the first thing that goes wrong. */
  lemma ExecutionErrorIsFirst(s: State, e: nat, task: Id, a: Attempt)
    requires Inv(s) && UniqueResults(s.results) && e < |s.edits| && s.edits[e].task == task
    ensures Executed(s, task, a).1 == FirstError(s, s.edits[e], a)
  {
    StartErrs(s, e, task, a.located, a.startTime);
    if Started(s, task, a.located, a.startTime).1.Ok? {
      PreparedErrs(s, e, task, a);
    }
  }

  /** So it succeeds exactly when its source and the task of that are there, the file is found, drawn and
      stored, and the id generated for the result is unused. */
  lemma ExecutionSucceedsIff(s: State, e: nat, task: Id, a: Attempt)
    requires Inv(s) && UniqueResults(s.results) && e < |s.edits| && s.edits[e].task == task
    ensures Executed(s, task, a).1.None? <==>
      && (exists i :: IsSource(s, s.edits[e], i) && OwnTask(s, s.edits[e], i))
      && a.located.None? && a.drawn.None? && a.stored.None?
      && forall i :: 0 <= i < |s.results| ==> s.results[i].id != a.newId
  {
    ExecutionErrorIsFirst(s, e, task, a);
  }

  /** And without a stored edit it fails. */
  lemma ExecutionNeedsAnEdit(s: State, task: Id, a: Attempt)
    requires forall e :: 0 <= e < |s.edits| ==> s.edits[e].task != task
    ensures Executed(s, task, a).1 == Some(NoTask)
  {
  }

  /** What an execution meets in the tables is the same. */
  ghost predicate SameForExecution(s: State, t: State) {
    && t.results == s.results && |t.edits| == |s.edits|
    && (forall i :: 0 <= i < |s.edits| ==>
          t.edits[i].task == s.edits[i].task && t.edits[i].source == s.edits[i].source && t.edits[i].user == s.edits[i].user)
    && t.tasks.Keys == s.tasks.Keys
    && (forall id :: id in s.tasks ==> t.tasks[id].user == s.tasks[id].user)
  }

  lemma SameFirstError(s: State, t: State, e: nat, a: Attempt)
    requires SameForExecution(s, t) && e < |s.edits|
    ensures FirstError(t, t.edits[e], a) == FirstError(s, s.edits[e], a)
  {
    assert forall i :: IsSource(t, t.edits[e], i) <==> IsSource(s, s.edits[e], i);
    assert forall i :: OwnTask(t, t.edits[e], i) <==> OwnTask(s, s.edits[e], i);
  }

  lemma StartKeeps(s: State, task: Id, located: Option<Error>, now: Time)
    ensures SameForExecution(s, Started(s, task, located, now).0)
  {
  }

  lemma MarkingKeeps(s: State, task: Id, error: Error, a: Attempt)
    ensures SameForExecution(s, FailureRecorded(s, task, error, a))
  {
  }

  lemma SameTransitive(s: State, t: State, u: State)
    requires SameForExecution(s, t) && SameForExecution(t, u)
    ensures SameForExecution(s, u)
  {
  }

  lemma FailedAttemptKeeps(s: State, task: Id, a: Attempt)
    requires Attempted(s, task, a).1.Some?
    ensures SameForExecution(s, Attempted(s, task, a).0)
  {
    StartKeeps(s, task, a.located, a.startTime);
  }

  lemma RecordingKeepsInv(s: State, task: Id, error: Error, a: Attempt)
    requires Inv(s)
    ensures Inv(FailureRecorded(s, task, error, a))
  {
    if a.failureSaved {
      StepKeepsInv(s, MarkFailed(task, error, a.endTime));
    }
  }

  /** An execution that fails leaves what the next one meets. */
  lemma FailedExecutionKeeps(s: State, e: nat, task: Id, a: Attempt)
    requires Inv(s) && e < |s.edits| && s.edits[e].task == task && Executed(s, task, a).1.Some?
    ensures Inv(Executed(s, task, a).0) && SameForExecution(s, Executed(s, task, a).0)
  {
    FoundByTask(s.edits, e);
    var (t, error) := Attempted(s, task, a);
    AttemptShape(s, task, a);
    RecordingKeepsInv(t, task, error.value, a);
    FailedAttemptKeeps(s, task, a);
    MarkingKeeps(t, task, error.value, a);
    SameTransitive(s, t, FailureRecorded(t, task, error.value, a));
  }

  /** Attempt `n` at edit `e`, made in the state `s`, meets nothing that goes wrong. */
  ghost predicate GoesWell(s: State, e: nat, world: nat -> Attempt, n: nat)
    requires e < |s.edits|
  {
    FirstError(s, s.edits[e], world(n)).None?
  }

  /** How a delivery ends: with the first attempt that meets nothing that goes wrong, if there is one up to the
      maximum, else with the first thing that goes wrong in the last one. */
  ghost predicate EndsBy(d: Delivery, s: State, e: nat, world: nat -> Attempt, retries: nat, maxRetries: nat)
    requires e < |s.edits|
  {
    && d.attempts >= 1
    && (d.error.None? <==> exists n :: retries <= n <= maxRetries && GoesWell(s, e, world, n))
    && (d.error.None? ==> GoesWell(s, e, world, retries + d.attempts - 1))
    && (forall m :: retries <= m < retries + d.attempts - 1 ==> !GoesWell(s, e, world, m))
    && (d.error.Some? ==> d.error == FirstError(s, s.edits[e], world(maxRetries)))
  }

  /** Failed executions lead from the first state to this one. */
  ghost predicate Retriable(first: State, s: State, e: nat, task: Id) {
    Inv(s) && UniqueResults(s.results) && e < |s.edits| && s.edits[e].task == task && SameForExecution(first, s)
  }

  lemma OneAttemptMeets(first: State, s: State, e: nat, task: Id, a: Attempt)
    requires Retriable(first, s, e, task)
    ensures var (after, error) := Executed(s, task, a);
      error == FirstError(first, first.edits[e], a) && (error.Some? ==> Retriable(first, after, e, task))
  {
    ExecutionErrorIsFirst(s, e, task, a);
    SameFirstError(first, s, e, a);
    var (after, error) := Executed(s, task, a);
    if error.Some? {
      FailedExecutionKeeps(s, e, task, a);
      SameTransitive(first, s, after);
    }
  }

  lemma LastAttemptEnds(first: State, s: State, e: nat, task: Id, world: nat -> Attempt, retries: nat, maxRetries: nat)
    requires e < |first.edits| && retries <= maxRetries
    requires var error := Executed(s, task, world(retries)).1;
      error == FirstError(first, first.edits[e], world(retries)) && (error.None? || retries == maxRetries)
    ensures EndsBy(Delivered(s, task, world, retries, maxRetries), first, e, world, retries, maxRetries)
  {
    assert GoesWell(first, e, world, retries) <==> Executed(s, task, world(retries)).1.None?;
  }

  lemma OneMoreAttempt(first: State, s: State, e: nat, task: Id, world: nat -> Attempt, retries: nat, maxRetries: nat)
    requires e < |first.edits| && retries < maxRetries && Executed(s, task, world(retries)).1.Some?
    requires !GoesWell(first, e, world, retries)
    requires var rest := Delivered(Executed(s, task, world(retries)).0, task, world, retries + 1, maxRetries);
      EndsBy(rest, first, e, world, retries + 1, maxRetries)
    ensures EndsBy(Delivered(s, task, world, retries, maxRetries), first, e, world, retries, maxRetries)
  {
  }

  lemma {:induction false} DeliveryEndsBy(
    first: State, s: State, e: nat, task: Id, world: nat -> Attempt, retries: nat, maxRetries: nat)
    requires Retriable(first, s, e, task) && retries <= maxRetries
    ensures EndsBy(Delivered(s, task, world, retries, maxRetries), first, e, world, retries, maxRetries)
    decreases maxRetries - retries
  {
    OneAttemptMeets(first, s, e, task, world(retries));
    if FirstError(first, first.edits[e], world(retries)).Some? && retries < maxRetries {
      DeliveryEndsBy(first, Executed(s, task, world(retries)).0, e, task, world, retries + 1, maxRetries);
      OneMoreAttempt(first, s, e, task, world, retries, maxRetries);
    } else {
      LastAttemptEnds(first, s, e, task, world, retries, maxRetries);
    }
  }

  /** A delivery raises no error exactly when some attempt up to the maximum meets nothing that goes wrong, and
      ends with the first such attempt; otherwise it raises the first thing that goes wrong in the last one. */
  lemma DeliverySucceedsIff(s: State, e: nat, task: Id, world: nat -> Attempt, retries: nat, maxRetries: nat)
    requires Inv(s) && UniqueResults(s.results) && e < |s.edits| && s.edits[e].task == task && retries <= maxRetries
    ensures EndsBy(Delivered(s, task, world, retries, maxRetries), s, e, world, retries, maxRetries)
  {
    DeliveryEndsBy(s, s, e, task, world, retries, maxRetries);
  }

  // ---------------------------------------------------------------- what an execution shows

  /** The start of an execution could be written. */
  ghost predicate Starts(s: State, edit: EditRow, a: Attempt) {
    a.located.None? && exists i :: IsSource(s, edit, i) && OwnTask(s, edit, i)
  }

  lemma StartedRow(s: State, e: nat, task: Id, a: Attempt)
    requires Inv(s) && UniqueResults(s.results) && e < |s.edits| && s.edits[e].task == task
    ensures var (t, reply) := Started(s, task, a.located, a.startTime);
      && task in s.tasks && task in t.tasks
      && (reply.Ok? <==> Starts(s, s.edits[e], a))
      && t.tasks[task] == if reply.Err? then s.tasks[task] else
           s.tasks[task].(status := Running, step := "image_edit_generate", progress := 20,
                          startedAt := if s.tasks[task].startedAt.None? then Some(a.startTime) else s.tasks[task].startedAt)
  {
    FoundByTask(s.edits, e);
    StartErrs(s, e, task, a.located, a.startTime);
  }

  lemma FinishedRow(s: State, p: Prepared, a: Attempt)
    requires Inv(s) && Fits(s, p)
    ensures var (t, error) := Finished(s, p, a);
      && p.task in s.tasks && p.task in t.tasks
      && t.tasks[p.task] == if error.Some? then s.tasks[p.task] else
           s.tasks[p.task].(status := Succeeded, step := "completed", progress := 100, finishedAt := Some(a.endTime))
  {
    var found := FindEditById(s.edits, p.edit).value;
    assert s.edits[found].task in s.tasks;
  }

  lemma FailureRow(s: State, task: Id, error: Error, a: Attempt)
    requires task in s.tasks
    ensures var t := FailureRecorded(s, task, error, a);
      && task in t.tasks
      && t.tasks[task] == if !a.failureSaved then s.tasks[task] else
           s.tasks[task].(status := Failed, step := if s.tasks[task].step == "" then "image_edit_generate" else s.tasks[task].step,
                          error := Some(error), finishedAt := Some(a.endTime))
  {
  }

  /** The task row before, and after an execution with this error. */
  ghost predicate ShowsExecution(was: TaskRow, row: TaskRow, starts: bool, error: Option<Error>, a: Attempt) {
    && row.user == was.user && row.kind == was.kind
    && row.startedAt == (if starts && was.startedAt.None? then Some(a.startTime) else was.startedAt)
    && row.error == (if error.Some? && a.failureSaved then error else was.error)
    && row.finishedAt == (if error.None? || a.failureSaved then Some(a.endTime) else was.finishedAt)
    && row.progress == (if error.None? then 100 else if starts then 20 else was.progress)
    && row.status == (if error.None? then Succeeded else if a.failureSaved then Failed else if starts then Running else was.status)
    && (error.None? ==> row.step == "completed")
    && (error.Some? && starts ==> row.step == "image_edit_generate")
    && (error.Some? && !starts ==> row.step == if a.failureSaved && was.step == "" then "image_edit_generate" else was.step)
  }

  lemma StartThenFinish(was: TaskRow, started: TaskRow, row: TaskRow, error: Option<Error>, a: Attempt)
    requires !a.failureSaved
    requires started == was.(status := Running, step := "image_edit_generate", progress := 20,
                             startedAt := if was.startedAt.None? then Some(a.startTime) else was.startedAt)
    requires row == if error.Some? then started
                    else started.(status := Succeeded, step := "completed", progress := 100, finishedAt := Some(a.endTime))
    ensures ShowsExecution(was, row, true, error, a)
  {
  }

  lemma PreparedRow(s: State, e: nat, task: Id, a: Attempt)
    requires Inv(s) && UniqueResults(s.results) && e < |s.edits| && s.edits[e].task == task
    requires Started(s, task, a.located, a.startTime).1.Ok?
    ensures var (t, error) := Attempted(s, task, a);
      && task in s.tasks && task in t.tasks
      && ShowsExecution(s.tasks[task], t.tasks[task], true, error, a.(failureSaved := false))
  {
    StartedRow(s, e, task, a);
    FoundByTask(s.edits, e);
    StartedShape(s, task, a.located, a.startTime);
    PreparedFits(s, task, a.located, a.startTime);
    var (started, prepared) := Started(s, task, a.located, a.startTime);
    var (t, error) := Finished(started, prepared.value, a);
    FinishedRow(started, prepared.value, a);
    StartThenFinish(s.tasks[task], started.tasks[task], t.tasks[task], error, a.(failureSaved := false));
  }

  lemma AttemptRow(s: State, e: nat, task: Id, a: Attempt)
    requires Inv(s) && UniqueResults(s.results) && e < |s.edits| && s.edits[e].task == task
    ensures var (t, error) := Attempted(s, task, a);
      && task in s.tasks && task in t.tasks
      && ShowsExecution(s.tasks[task], t.tasks[task], Starts(s, s.edits[e], a), error, a.(failureSaved := false))
  {
    StartedRow(s, e, task, a);
    if Started(s, task, a.located, a.startTime).1.Ok? {
      PreparedRow(s, e, task, a);
    }
  }

  lemma RecordedRow(s: State, t: State, task: Id, starts: bool, error: Error, a: Attempt)
    requires task in s.tasks && task in t.tasks
    requires ShowsExecution(s.tasks[task], t.tasks[task], starts, Some(error), a.(failureSaved := false))
    ensures var u := FailureRecorded(t, task, error, a);
      task in u.tasks && ShowsExecution(s.tasks[task], u.tasks[task], starts, Some(error), a)
  {
    FailureRow(t, task, error, a);
  }

  /** What the task row shows after an execution: start, end and error, with the step and progress reached. The
      error of an earlier execution stays, also when this one succeeds. */
  lemma ExecutionRow(s: State, e: nat, task: Id, a: Attempt)
    requires Inv(s) && UniqueResults(s.results) && e < |s.edits| && s.edits[e].task == task
    ensures var (t, error) := Executed(s, task, a);
      && task in s.tasks && task in t.tasks
      && ShowsExecution(s.tasks[task], t.tasks[task], Starts(s, s.edits[e], a), error, a)
  {
    AttemptRow(s, e, task, a);
    var (attempted, error) := Attempted(s, task, a);
    if error.Some? {
      RecordedRow(s, attempted, task, Starts(s, s.edits[e], a), error.value, a);
    }
  }

  /** Some failure before this attempt was saved. */
  ghost predicate SavedFailure(world: nat -> Attempt, from: nat, to: nat) {
    exists m :: from <= m < to && world(m).failureSaved
  }

  lemma ExecutionKeepsShowing(first: State, s: State, e: nat, task: Id, a: Attempt)
    requires Retriable(first, s, e, task)
    ensures var (t, error) := Executed(s, task, a);
      && task in s.tasks && task in t.tasks
      && (error.None? ==> t.tasks[task].error == s.tasks[task].error)
      && (error.Some? ==> (t.tasks[task].error.None? <==> s.tasks[task].error.None? && !a.failureSaved))
  {
    ExecutionRow(s, e, task, a);
  }

  /** A delivery that succeeds leaves no error in the task row exactly when there was none, and none was saved. */
  ghost predicate ShowsErrors(s: State, d: Delivery, task: Id, world: nat -> Attempt, retries: nat) {
    && d.attempts >= 1 && task in s.tasks && task in d.state.tasks
    && (d.error.None? ==>
          (d.state.tasks[task].error.None? <==>
             s.tasks[task].error.None? && !SavedFailure(world, retries, retries + d.attempts - 1)))
  }

  lemma LastAttemptShows(s: State, task: Id, world: nat -> Attempt, retries: nat, maxRetries: nat)
    requires retries <= maxRetries
    requires var (t, error) := Executed(s, task, world(retries));
      && task in s.tasks && task in t.tasks && (error.None? || retries == maxRetries)
      && (error.None? ==> t.tasks[task].error == s.tasks[task].error)
    ensures ShowsErrors(s, Delivered(s, task, world, retries, maxRetries), task, world, retries)
  {
  }

  lemma OneMoreShows(s: State, task: Id, world: nat -> Attempt, retries: nat, maxRetries: nat)
    requires retries < maxRetries
    requires var (t, error) := Executed(s, task, world(retries));
      && error.Some? && task in s.tasks && task in t.tasks
      && (t.tasks[task].error.None? <==> s.tasks[task].error.None? && !world(retries).failureSaved)
      && ShowsErrors(t, Delivered(t, task, world, retries + 1, maxRetries), task, world, retries + 1)
    ensures ShowsErrors(s, Delivered(s, task, world, retries, maxRetries), task, world, retries)
  {
    var rest := Delivered(Executed(s, task, world(retries)).0, task, world, retries + 1, maxRetries);
    OneEarlierFailure(world, retries, retries + rest.attempts);
  }

  lemma {:induction false} DeliveryShowsError(
    first: State, s: State, e: nat, task: Id, world: nat -> Attempt, retries: nat, maxRetries: nat)
    requires Retriable(first, s, e, task) && retries <= maxRetries
    ensures ShowsErrors(s, Delivered(s, task, world, retries, maxRetries), task, world, retries)
    decreases maxRetries - retries
  {
    OneAttemptMeets(first, s, e, task, world(retries));
    ExecutionKeepsShowing(first, s, e, task, world(retries));
    if Executed(s, task, world(retries)).1.Some? && retries < maxRetries {
      DeliveryShowsError(first, Executed(s, task, world(retries)).0, e, task, world, retries + 1, maxRetries);
      OneMoreShows(s, task, world, retries, maxRetries);
    } else {
      LastAttemptShows(s, task, world, retries, maxRetries);
    }
  }

  lemma OneEarlierFailure(world: nat -> Attempt, from: nat, to: nat)
    requires from < to
    ensures SavedFailure(world, from, to) <==> world(from).failureSaved || SavedFailure(world, from + 1, to)
  {
  }

  /** A delivery that succeeds leaves no error in the task row exactly when there was none at first and no failure
      of an earlier attempt was saved: the row of a succeeded task keeps the last saved error, which the edit
      row does not. */
  lemma SucceededShowsNoErrorIff(s: State, e: nat, task: Id, world: nat -> Attempt, retries: nat, maxRetries: nat)
    requires Inv(s) && UniqueResults(s.results) && e < |s.edits| && s.edits[e].task == task && retries <= maxRetries
    ensures ShowsErrors(s, Delivered(s, task, world, retries, maxRetries), task, world, retries)
  {
    DeliveryShowsError(s, s, e, task, world, retries, maxRetries);
  }

  /** A first attempt whose image cannot be drawn, and attempts after it that meet nothing that goes wrong. */
  function SampleWorld(n: nat): Attempt {
    Attempt(None, if n == 0 then Some(Error(0, "timed out")) else None, None, 4, true, 10, 11)
  }

  lemma SampleErrors(s: State)
    requires s == SampleState(Queued, "queued", 0, None, None, None, [SampleSource])
    ensures !GoesWell(s, 0, SampleWorld, 0) && GoesWell(s, 0, SampleWorld, 1)
  {
    assert IsSource(s, s.edits[0], 0) && OwnTask(s, s.edits[0], 0);
  }

  lemma SampleQueuedHolds()
    ensures var s := Run(Empty, UntyingSteps()[..3]);
      Inv(s) && UniqueResults(s.results) && s == SampleState(Queued, "queued", 0, None, None, None, [SampleSource])
  {
    var steps := UntyingSteps()[..3];
    SampleRunIsLegal();
    assert forall k :: 0 <= k < |steps| ==> steps[..k] == UntyingSteps()[..k] && steps[k] == UntyingSteps()[k];
    RunKeepsInv(steps);
    RunKeepsUniqueResults(steps);
    SampleQueued();
  }

  /** An input: a queued edit of a legal run and that world. The second attempt succeeds, and the succeeded task
      still shows the error of the first. */
  lemma RetriedEditKeepsError()
    ensures var d := Delivered(Run(Empty, UntyingSteps()[..3]), 3, SampleWorld, 0, 1);
      d.error.None? && d.attempts == 2 && 3 in d.state.tasks && d.state.tasks[3].error.Some?
  {
    var s := Run(Empty, UntyingSteps()[..3]);
    SampleQueuedHolds();
    SampleErrors(s);
    DeliverySucceedsIff(s, 0, 3, SampleWorld, 0, 1);
    DeliveryAttempts(s, 3, SampleWorld, 0, 1);
    SucceededShowsNoErrorIff(s, 0, 3, SampleWorld, 0, 1);
    assert SampleWorld(0).failureSaved;
  }

  // ---------------------------------------------------------------- creating an edit

  /** Result `i` is the one with this id, seen by this user. */
  ghost predicate Sees(s: State, user: Id, result: Id, i: int) {
    0 <= i < |s.results| && s.results[i].id == result && s.results[i].user == user
  }

  /** An edit is created exactly for an image that its user sees, of a task of his own, under unused ids; otherwise
      it fails with the first of these, an image of another user's task counting as not there, and nothing
      is stored. */
  lemma CreationOutcome(s: State, user: Id, result: Id, edit: Id, task: Id, i: int)
    requires UniqueResults(s.results)
    ensures var (t, reply) := Created(s, user, result, edit, task);
      && (reply.Err? ==> t == s)
      && ((forall j :: !Sees(s, user, result, j)) ==> reply == Err(NoResult))
      && (Sees(s, user, result, i) ==>
            var source := s.results[i];
            var own := source.task in s.tasks && s.tasks[source.task].user == user;
            var used := task in s.tasks || exists j :: 0 <= j < |s.edits| && s.edits[j].id == edit;
            && (reply == Err(NotAnImage) <==> !source.image)
            && (reply == Err(NoResult) <==> source.image && !own)
            && (reply == Err(Duplicate) <==> source.image && own && used)
            && (reply.Ok? <==> source.image && own && !used))
      && (reply.Ok? ==>
            && reply.value == edit && t.results == s.results
            && t.tasks.Keys == s.tasks.Keys + {task} && (forall id :: id in s.tasks ==> t.tasks[id] == s.tasks[id])
            && t.tasks[task] == TaskRow(user, ImageEdit, Queued, "queued", 0, None, None, None)
            && |t.edits| == |s.edits| + 1 && t.edits[..|s.edits|] == s.edits
            && t.edits[|s.edits|] == EditRow(edit, result, task, user, Queued, None, None, None, None))
  {
    var found, other := FindResult(s.results, result), FindEditById(s.edits, edit);
    assert forall j :: Sees(s, user, result, j) ==> found == Some(j);
    assert found.Some? && s.results[found.value].user == user ==> Sees(s, user, result, found.value);
    assert other.Some? ==> s.edits[other.value].id == edit;
  }

  /** `ImageEditService` over its tables. */
  class ImageEditService {
    var tasks: map<Id, TaskRow>
    var edits: seq<EditRow>
    var results: seq<ResultRow>

    constructor ()
      ensures Current() == Empty
    {
      tasks, edits, results := map[], [], [];
    }

    ghost function Current(): State
      reads this
    {
      State(tasks, edits, results)
    }

    method CreateEdit(user: Id, result: Id, editId: Id, taskId: Id) returns (reply: Result<Id>)
      modifies this
      ensures (Current(), reply) == Created(old(Current()), user, result, editId, taskId)
    {
      var source := ResultFor(results, result, user);
      if source.None? {
        return Err(NoResult);
      }
      if !source.value.image {
        return Err(NotAnImage);
      }
      if !TaskFor(tasks, source.value.task, user) {
        return Err(NoResult);
      }
      if taskId in tasks || FindEditById(edits, editId).Some? {
        return Err(Duplicate);
      }
      tasks := tasks[taskId := TaskRow(user, ImageEdit, Queued, "queued", 0, None, None, None)];
      edits := edits + [EditRow(editId, result, taskId, user, Queued, None, None, None, None)];
      return Ok(editId);
    }

    method PrepareExecution(task: Id, located: Option<Error>, now: Time) returns (reply: Result<Prepared>)
      modifies this
      ensures (Current(), reply) == Started(old(Current()), task, located, now)
    {
      if task !in tasks || tasks[task].kind != ImageEdit {
        return Err(NoTask);
      }
      var found := FindEdit(edits, task);
      if found.None? {
        return Err(NoTask);
      }
      var edit := edits[found.value];
      var source := ResultFor(results, edit.source, edit.user);
      if source.None? {
        return Err(NoResult);
      }
      if !TaskFor(tasks, source.value.task, edit.user) {
        return Err(NoTask);
      }
      if located.Some? {
        return Err(located.value);
      }
      var row := tasks[task];
      row := row.(status := Running, step := "image_edit_generate", progress := 20, startedAt := OrNow(row.startedAt, now));
      tasks := tasks[task := row];
      edits := edits[found.value := edit.(status := Running, startedAt := OrNow(edit.startedAt, now))];
      return Ok(Prepared(edit.id, task, row.user, source.value.id));
    }

    method CompleteExecution(p: Prepared, newId: Id, stored: Option<Error>, now: Time) returns (reply: Result<nat>)
      modifies this
      ensures (Current(), reply) == Completed(old(Current()), p, newId, stored, now)
    {
      var found := FindEditById(edits, p.edit);
      if p.task !in tasks || found.None? {
        return Err(NoTask);
      }
      var version := NextVersion(results, p.source);
      if stored.Some? {
        return Err(stored.value);
      }
      if FindResult(results, newId).Some? {
        return Err(Duplicate);
      }
      results := results + [ResultRow(newId, p.task, p.user, version, Some(p.source), true)];
      tasks := tasks[p.task := tasks[p.task].(status := Succeeded, step := "completed", progress := 100, finishedAt := Some(now))];
      edits := edits[found.value :=
        edits[found.value].(status := Succeeded, edited := Some(newId), finishedAt := Some(now), error := None)];
      return Ok(version);
    }

    method RecordFailure(task: Id, error: Error, now: Time)
      modifies this
      ensures Current() == MarkedFailed(old(Current()), task, error, now)
    {
      if task !in tasks {
        return;
      }
      var row, found := tasks[task], FindEdit(edits, task);
      row := row.(
        status := Failed, step := if row.step == "" then "image_edit_generate" else row.step,
        error := Some(error), finishedAt := Some(now));
      tasks := tasks[task := row];
      if found.Some? {
        edits := edits[found.value := edits[found.value].(status := Failed, error := Some(error), finishedAt := Some(now))];
      }
    }

    /** `run_edit_task_sync`; the error is the one raised again. */
    method RunEditTask(task: Id, a: Attempt) returns (error: Option<Error>)
      modifies this
      ensures (Current(), error) == Executed(old(Current()), task, a)
    {
      error := None;
      var prepared := PrepareExecution(task, a.located, a.startTime);
      if prepared.Err? {
        error := Some(prepared.error);
      } else if a.drawn.Some? {
        error := a.drawn;
      } else {
        var version := CompleteExecution(prepared.value, a.newId, a.stored, a.endTime);
        if version.Err? {
          error := Some(version.error);
        }
      }
      if error.Some? && a.failureSaved {
        RecordFailure(task, error.value, a.endTime);
      }
    }

    /** `run_image_edit_task`, with the retries that the broker sends back. */
    method RunDelivered(task: Id, world: nat -> Attempt, maxRetries: nat) returns (error: Option<Error>, attempts: nat)
      modifies this
      ensures Delivery(Current(), error, attempts) == Delivered(old(Current()), task, world, 0, maxRetries)
    {
      attempts := 0;
      var retries := 0;
      while true
        invariant attempts == retries <= maxRetries
        invariant var rest := Delivered(Current(), task, world, retries, maxRetries);
          rest.(attempts := rest.attempts + attempts) == Delivered(old(Current()), task, world, 0, maxRetries)
        decreases maxRetries - retries
      {
        error := RunEditTask(task, world(retries));
        attempts := attempts + 1;
        if error.None? || retries >= maxRetries {
          return;
        }
        retries := retries + 1;
      }
    }
  }
}
