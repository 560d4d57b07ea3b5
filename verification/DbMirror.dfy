/**
 The database mirror: projecting a task's local manifest, summary and files into the tasks, task_results
 and task_events tables.

 Name-based ids (section 5.5 of RFC 9562) are taken to be injective on names. A row's id is modelled by the
 values its name is formatted from; the section on names proves that these determine the name and the name
 them. Each call is one transaction. What is on disk is a parameter, and so are the clock and the account
 that owns tasks nobody owns. A file's size, hash and image dimensions are one `content`, and a JSON document
 is a number.
 */
module DbMirror {
  import opened Sequences

  type Id = nat
  type Time = int

  datatype Kind = MainImage | DetailPage | ImageEdit

  datatype Status = Queued | Running | Succeeded | Failed | PartialFailed | Cancelled

  // ---------------------------------------------------------------- what is on disk

  datatype LegacyStatus = Created | InProgress | Done | ReviewRequired | Broken

  datatype Manifest = Manifest(
    status: LegacyStatus, step: string, stepLabel: string, progress: nat, error: string,
    productName: string, platform: string, shotCount: nat, createdAt: Time)

  datatype Summary = Summary(
    taskType: string, title: string, platform: string, completed: nat, total: nat, zip: string,
    createdAt: Time, updatedAt: Time)

  datatype ImageFile = ImageFile(path: string, content: nat)

  /** A row of the render report, with its file when that exists. */
  datatype ReportRow = ReportRow(completed: bool, pageId: string, path: string, retryCount: int, file: Option<nat>)

  /** `images` lists the result directory by name; `report` is the detail render report. */
  datatype Local = Local(
    manifest: Manifest, summary: Option<Summary>, report: Option<seq<ReportRow>>, images: seq<ImageFile>)

  /** An input asset, by its path in the directory of its task; `source` names a result of another task. */
  datatype AssetInput = AssetInput(
    path: string, role: string, sourceType: string, fileName: Option<string>, sortOrder: nat, content: nat,
    sourceTask: Option<Id>, sourceFile: Option<string>, metadata: Option<nat>)

  /** What a task is created from. */
  datatype Creation = Creation(
    user: Option<Id>, kind: Kind, title: string, platform: string, inputs: Inputs, assets: seq<AssetInput>,
    createdAt: Option<Time>)

  /** The documents a task is created with, and the tasks it comes from. */
  datatype Inputs = Inputs(summary: Option<nat>, params: Option<nat>, source: Option<Id>, parent: Option<Id>)

  // ---------------------------------------------------------------- the tables

  datatype Snapshot = Snapshot(
    legacyStatus: LegacyStatus, step: string, caption: string, progress: nat, error: string,
    completed: nat, total: nat, zip: string)

  datatype ResultId = ResultId(task: Id, path: string)

  datatype AssetId = AssetId(task: Id, path: string)

  datatype Folder = InputFolder | ResultFolder

  datatype Key = LocalKey(path: string) | ObjectKey(user: Id, task: Id, folder: Folder, name: string)

  datatype ResultSummary = ResultSummary(count: nat, primary: Option<ResultId>, primaryKey: Option<Key>, zip: string)

  /** The columns that a sync writes whatever they were before. */
  datatype Columns = Columns(
    kind: Kind, status: Status, title: Option<string>, platform: Option<string>, step: Option<string>,
    progress: nat, error: Option<string>, snapshot: Snapshot, resultSummary: ResultSummary)

  datatype TaskRow = TaskRow(
    user: Id, columns: Columns, inputs: Inputs, retryCount: nat, createdAt: Time,
    queuedAt: Option<Time>, startedAt: Option<Time>, finishedAt: Option<Time>)

  datatype AssetRow = AssetRow(
    user: Id, role: string, sourceType: string, source: Option<ResultId>, fileName: Option<string>, key: Key,
    content: nat, metadata: Option<nat>, sortOrder: nat)

  /** Which columns a result row has set; a merge leaves the others as they are. */
  datatype ResultRow = ResultRow(
    user: Id, kind: Kind, pageNo: Option<nat>, shotNo: Option<nat>, version: Option<nat>,
    key: Key, pageId: Option<string>, primary: bool, content: nat)

  datatype EventType = TaskCreated | TaskQueued | TaskRunning | TaskSucceeded | TaskFailed | TaskPartialFailed | TaskCancelled | ResultsSynced

  datatype Level = Info | Warning | Error

  datatype EventId = EventId(task: Id, event: EventType, step: string)

  datatype Payload =
    | KindPayload(kind: Kind)
    | ProgressPayload(percent: nat)
    | StatePayload(status: Status, progress: nat, count: nat)
    | CountPayload(count: nat)

  datatype EventRow = EventRow(user: Id, level: Level, step: Option<string>, message: string, payload: Payload)

  datatype Db = Db(
    tasks: map<Id, TaskRow>, assets: map<AssetId, AssetRow>, results: map<ResultId, ResultRow>, events: map<EventId, EventRow>)

  const EmptyDb := Db(map[], map[], map[], map[])

  /** The storage configuration and the owner of unowned tasks. */
  datatype Config = Config(cosEnabled: bool, compatUser: Id)

  // ---------------------------------------------------------------- the projection

  /** Python's `x or None` on strings. */
  function OrNone(s: string): Option<string> {
    if s == "" then None else Some(s)
  }

  function MapStatus(s: LegacyStatus): Status {
    match s
    case Created => Queued
    case InProgress => Running
    case Done => Succeeded
    case ReviewRequired => PartialFailed
    case Broken => Failed
  }

  function MapKind(taskType: string): Kind {
    if taskType == "detail_page_v2" then DetailPage
    else if taskType == "image_edit" then ImageEdit
    else MainImage
  }

  function EffectiveKind(kind: Option<Kind>, l: Local): Kind {
    if kind.Some? then kind.value else MapKind(if l.summary.Some? then l.summary.value.taskType else "")
  }

  function KeyFor(c: Config, user: Id, task: Id, path: string): Key {
    if c.cosEnabled then ObjectKey(user, task, ResultFolder, path) else LocalKey(path)
  }

  /** `_build_main_results`: one row per image, numbered in listing order. */
  function MainRows(c: Config, user: Id, task: Id, kind: Kind, images: seq<ImageFile>, n: nat): seq<(ResultId, ResultRow)>
    requires n <= |images|
  {
    if n == 0 then [] else
      var image := images[n - 1];
      MainRows(c, user, task, kind, images, n - 1)
      + [(ResultId(task, image.path),
          ResultRow(user, kind, None, Some(n), None, KeyFor(c, user, task, image.path), None, n == 1, image.content))]
  }

  /** `max(1, retry_count + 1)`. */
  function VersionOf(retryCount: int): nat {
    if retryCount + 1 < 1 then 1 else retryCount + 1
  }

  /** `_build_detail_results` for a task with a report: one row per completed page whose file exists. */
  function PageRows(c: Config, user: Id, task: Id, report: seq<ReportRow>, n: nat): seq<(ResultId, ResultRow)>
    requires n <= |report|
  {
    if n == 0 then [] else
      var row := report[n - 1];
      PageRows(c, user, task, report, n - 1)
      + if !row.completed || row.path == "" || row.file.None? then [] else
          [(ResultId(task, row.path),
            ResultRow(user, DetailPage, Some(n), None, Some(VersionOf(row.retryCount)), KeyFor(c, user, task, row.path),
                      Some(row.pageId), n == 1, row.file.value))]
  }

  function ResultRows(c: Config, user: Id, task: Id, kind: Kind, l: Local): seq<(ResultId, ResultRow)> {
    if kind != DetailPage then MainRows(c, user, task, MainImage, l.images, |l.images|)
    else if l.report.None? then MainRows(c, user, task, DetailPage, l.images, |l.images|)
    else PageRows(c, user, task, l.report.value, |l.report.value|)
  }

  function FirstPrimary(rows: seq<(ResultId, ResultRow)>): Option<(ResultId, ResultRow)> {
    if rows == [] then None else if rows[0].1.primary then Some(rows[0]) else FirstPrimary(rows[1..])
  }

  function SummaryOf(l: Local, rows: seq<(ResultId, ResultRow)>): ResultSummary {
    var primary := FirstPrimary(rows);
    ResultSummary(
      |rows|, if primary.Some? then Some(primary.value.0) else None, if primary.Some? then Some(primary.value.1.key) else None,
      if l.summary.Some? then l.summary.value.zip else "")
  }

  function SnapshotOf(l: Local): Snapshot {
    var m := l.manifest;
    Snapshot(m.status, m.step, m.stepLabel, m.progress, m.error,
             if l.summary.Some? then l.summary.value.completed else 0,
             if l.summary.Some? then l.summary.value.total else m.shotCount,
             if l.summary.Some? then l.summary.value.zip else "")
  }

  /** The synced columns, as a function of what is on disk and of the task's owner. */
  function ColumnsOf(c: Config, user: Id, task: Id, kind: Kind, l: Local): Columns {
    Columns(
      kind, MapStatus(l.manifest.status),
      OrNone(if l.summary.Some? then l.summary.value.title else l.manifest.productName),
      OrNone(if l.summary.Some? then l.summary.value.platform else l.manifest.platform),
      OrNone(l.manifest.step), l.manifest.progress, OrNone(l.manifest.error), SnapshotOf(l),
      SummaryOf(l, ResultRows(c, user, task, kind, l)))
  }

  predicate HasStarted(s: Status) {
    s in {Running, Succeeded, Failed, PartialFailed}
  }

  predicate Terminal(s: Status) {
    s in {Succeeded, Failed, PartialFailed, Cancelled}
  }

  function CreationTime(l: Local): Time {
    if l.summary.Some? then l.summary.value.createdAt else l.manifest.createdAt
  }

  /** `_resolve_finished_at`. */
  function FinishTime(l: Local, now: Time): Time {
    if l.summary.Some? then l.summary.value.updatedAt else now
  }

  function OwnerOf(c: Config, db: Db, task: Id): Id {
    if task in db.tasks then db.tasks[task].user else c.compatUser
  }

  const NoInputs := Inputs(None, None, None, None)

  function SyncedRow(c: Config, stored: Option<TaskRow>, task: Id, kind: Kind, l: Local, now: Time): TaskRow {
    var user := if stored.Some? then stored.value.user else c.compatUser;
    var status := MapStatus(l.manifest.status);
    TaskRow(
      user, ColumnsOf(c, user, task, kind, l),
      if stored.Some? then stored.value.inputs else NoInputs,
      if stored.Some? then stored.value.retryCount else 0,
      if stored.Some? then stored.value.createdAt else now,
      if stored.Some? then stored.value.queuedAt else None,
      if stored.Some? && stored.value.startedAt.Some? then stored.value.startedAt
      else if HasStarted(status) then Some(CreationTime(l)) else None,
      if Terminal(status) then Some(FinishTime(l, now)) else if stored.Some? then stored.value.finishedAt else None)
  }

  /** `session.merge` of a result row: the columns it has set replace the stored ones. */
  function Merged(stored: Option<ResultRow>, row: ResultRow): ResultRow {
    if stored.None? then row else
      row.(pageNo := if row.pageNo.Some? then row.pageNo else stored.value.pageNo,
           shotNo := if row.shotNo.Some? then row.shotNo else stored.value.shotNo,
           version := if row.version.Some? then row.version else stored.value.version,
           pageId := if row.pageId.Some? then row.pageId else stored.value.pageId)
  }

  function Lookup<K, V>(m: map<K, V>, k: K): Option<V> {
    if k in m then Some(m[k]) else None
  }

  function MergeRow(results: map<ResultId, ResultRow>, id: ResultId, row: ResultRow): map<ResultId, ResultRow> {
    results[id := Merged(Lookup(results, id), row)]
  }

  /** The table after the first `n` rows have been merged, in order. */
  function MergeRows(results: map<ResultId, ResultRow>, rows: seq<(ResultId, ResultRow)>, n: nat): map<ResultId, ResultRow>
    requires n <= |rows|
  {
    if n == 0 then results else MergeRow(MergeRows(results, rows, n - 1), rows[n - 1].0, rows[n - 1].1)
  }

  /** The step part of a name: an absent or empty step reads as a dash. */
  function StepText(step: Option<string>): string {
    if step.Some? && step.value != "" then step.value else "-"
  }

  function EventKey(task: Id, event: EventType, step: Option<string>): EventId {
    EventId(task, event, StepText(step))
  }

  function StateEventType(s: Status): EventType {
    match s
    case Running => TaskRunning
    case Succeeded => TaskSucceeded
    case PartialFailed => TaskPartialFailed
    case Failed => TaskFailed
    case Cancelled => TaskCancelled
    case Queued => TaskQueued
  }

  function Or(s: string, fallback: string): string {
    if s == "" then fallback else s
  }

  function StateMessage(s: Status, m: Manifest): string {
    match s
    case Running => Or(m.stepLabel, "running")
    case Succeeded => "completed"
    case PartialFailed => Or(m.stepLabel, "partially failed")
    case Failed => Or(m.error, Or(m.stepLabel, "failed"))
    case Cancelled => "cancelled"
    case Queued => Or(m.stepLabel, "queued")
  }

  function StateLevel(s: Status): Level {
    match s
    case PartialFailed | Cancelled => Warning
    case Failed => Error
    case _ => Info
  }

  /** The id of the one state event of a sync, and of its results event. */
  function StateKey(task: Id, l: Local): EventId {
    EventKey(task, StateEventType(MapStatus(l.manifest.status)), OrNone(l.manifest.step))
  }

  function ResultsKey(task: Id, l: Local): EventId {
    EventKey(task, ResultsSynced, OrNone(l.manifest.step))
  }

  function StateEvent(user: Id, l: Local, count: nat): EventRow {
    var s := MapStatus(l.manifest.status);
    EventRow(user, StateLevel(s), OrNone(l.manifest.step), StateMessage(s, l.manifest), StatePayload(s, l.manifest.progress, count))
  }

  function ResultsEvent(user: Id, l: Local, count: nat): EventRow {
    EventRow(user, Info, OrNone(l.manifest.step), "results synced", CountPayload(count))
  }

  /** `sync_runtime_from_local`. */
  function Synced(c: Config, db: Db, task: Id, kind: Option<Kind>, local: Option<Local>, now: Time): Db {
    if local.None? then db else
    var l := local.value;
    var k, user := EffectiveKind(kind, l), OwnerOf(c, db, task);
    var rows := ResultRows(c, user, task, k, l);
    Db(db.tasks[task := SyncedRow(c, Lookup(db.tasks, task), task, k, l, now)],
       db.assets,
       MergeRows(db.results, rows, |rows|),
       db.events[StateKey(task, l) := StateEvent(user, l, |rows|)][ResultsKey(task, l) := ResultsEvent(user, l, |rows|)])
  }

  function AssetKey(c: Config, user: Id, task: Id, a: AssetInput): Key {
    if c.cosEnabled
    then ObjectKey(user, task, InputFolder, if a.fileName.Some? && a.fileName.value != "" then a.fileName.value else a.path)
    else LocalKey(a.path)
  }

  /** `_resolve_source_task_result_id`: the mirrored result of that task with that path, if there is one. */
  function SourceOf(results: map<ResultId, ResultRow>, a: AssetInput): Option<ResultId> {
    if a.sourceTask.None? || a.sourceFile.None? || a.sourceFile.value == "" then None
    else
      var id := ResultId(a.sourceTask.value, a.sourceFile.value);
      if id in results then Some(id) else None
  }

  function AssetRowOf(c: Config, results: map<ResultId, ResultRow>, user: Id, task: Id, a: AssetInput): AssetRow {
    AssetRow(user, a.role, a.sourceType, SourceOf(results, a), a.fileName, AssetKey(c, user, task, a), a.content, a.metadata, a.sortOrder)
  }

  /** The asset table after the first `n` inputs have been stored, in order. */
  function StoredAssets(
    c: Config, db: Db, user: Id, task: Id, assets: seq<AssetInput>, n: nat): map<AssetId, AssetRow>
    requires n <= |assets|
  {
    if n == 0 then db.assets else
      var a := assets[n - 1];
      StoredAssets(c, db, user, task, assets, n - 1)[AssetId(task, a.path) := AssetRowOf(c, db.results, user, task, a)]
  }

  function CreatorOf(c: Config, x: Creation): Id {
    if x.user.Some? then x.user.value else c.compatUser
  }

  function CreatedColumns(x: Creation, error: Option<string>): Columns {
    Columns(
      x.kind, Queued, OrNone(x.title), OrNone(x.platform), Some("queued"), 0, error,
      Snapshot(Created, "queued", "", 0, "", 0, 0, ""), ResultSummary(0, None, None, ""))
  }

  function CreatedRow(c: Config, stored: Option<TaskRow>, x: Creation, now: Time): TaskRow {
    if stored.Some? then
      stored.value.(user := CreatorOf(c, x), columns := CreatedColumns(x, stored.value.columns.error), inputs := x.inputs,
                    queuedAt := if stored.value.queuedAt.Some? then stored.value.queuedAt else Some(now))
    else
      TaskRow(CreatorOf(c, x), CreatedColumns(x, None), x.inputs, 0, if x.createdAt.Some? then x.createdAt.value else now,
              Some(now), None, None)
  }

  function CreatedEvents(events: map<EventId, EventRow>, owner: Id, task: Id, kind: Kind): map<EventId, EventRow> {
    events[EventKey(task, TaskCreated, Some("queued")) := EventRow(owner, Info, Some("queued"), "stored", KindPayload(kind))]
          [EventKey(task, TaskQueued, Some("queued")) := EventRow(owner, Info, Some("queued"), "queued", ProgressPayload(0))]
  }

  /** `create_task_record`. */
  function CreatedRecord(c: Config, db: Db, task: Id, x: Creation, now: Time): Db {
    Db(db.tasks[task := CreatedRow(c, Lookup(db.tasks, task), x, now)],
       StoredAssets(c, db, CreatorOf(c, x), task, x.assets, |x.assets|),
       db.results,
       CreatedEvents(db.events, CreatorOf(c, x), task, x.kind))
  }

  datatype Op =
    | Create(task: Id, creation: Creation, now: Time)
    | Sync(task: Id, taskKind: Option<Kind>, local: Option<Local>, now: Time)

  function Apply(c: Config, db: Db, op: Op): Db {
    match op
    case Create(task, creation, now) => CreatedRecord(c, db, task, creation, now)
    case Sync(task, kind, local, now) => Synced(c, db, task, kind, local, now)
  }

  function Run(c: Config, db: Db, ops: seq<Op>): Db {
    if ops == [] then db else Apply(c, Run(c, db, ops[..|ops| - 1]), ops[|ops| - 1])
  }

  // ---------------------------------------------------------------- idempotence

  lemma MergeTwice(stored: Option<ResultRow>, row: ResultRow)
    ensures Merged(Some(Merged(stored, row)), row) == Merged(stored, row)
  {
  }

  lemma MergeAssociates(stored: Option<ResultRow>, first: ResultRow, second: ResultRow)
    ensures Merged(Some(Merged(stored, first)), second) == Merged(stored, Merged(Some(first), second))
  {
  }

  /** What merging the first `n` rows makes of the row stored under one id. */
  function MergedUnder(stored: Option<ResultRow>, rows: seq<(ResultId, ResultRow)>, id: ResultId, n: nat): Option<ResultRow>
    requires n <= |rows|
  {
    if n == 0 then stored else
      var before := MergedUnder(stored, rows, id, n - 1);
      if rows[n - 1].0 == id then Some(Merged(before, rows[n - 1].1)) else before
  }

  lemma {:induction false} MergeRowsLookup(results: map<ResultId, ResultRow>, rows: seq<(ResultId, ResultRow)>, id: ResultId, n: nat)
    requires n <= |rows|
    ensures Lookup(MergeRows(results, rows, n), id) == MergedUnder(Lookup(results, id), rows, id, n)
  {
    if n > 0 {
      MergeRowsLookup(results, rows, id, n - 1);
    }
  }

  /** A series of merges acts as one merge of its combined row. */
  lemma {:induction false} MergesCombine(stored: Option<ResultRow>, rows: seq<(ResultId, ResultRow)>, id: ResultId, n: nat)
    requires n <= |rows|
    ensures var combined := MergedUnder(None, rows, id, n);
      MergedUnder(stored, rows, id, n) == if combined.None? then stored else Some(Merged(stored, combined.value))
  {
    if n > 0 {
      MergesCombine(stored, rows, id, n - 1);
      var combined := MergedUnder(None, rows, id, n - 1);
      if rows[n - 1].0 == id && combined.Some? {
        MergeAssociates(stored, combined.value, rows[n - 1].1);
      }
    }
  }

  lemma MergedUnderTwice(stored: Option<ResultRow>, rows: seq<(ResultId, ResultRow)>, id: ResultId)
    ensures MergedUnder(MergedUnder(stored, rows, id, |rows|), rows, id, |rows|) == MergedUnder(stored, rows, id, |rows|)
  {
    var combined := MergedUnder(None, rows, id, |rows|);
    MergesCombine(stored, rows, id, |rows|);
    MergesCombine(MergedUnder(stored, rows, id, |rows|), rows, id, |rows|);
    if combined.Some? {
      MergeTwice(stored, combined.value);
    }
  }

  lemma SameLookups<K, V>(m: map<K, V>, n: map<K, V>)
    requires forall k :: Lookup(m, k) == Lookup(n, k)
    ensures m == n
  {
    forall k ensures k in m <==> k in n {
      assert Lookup(m, k) == Lookup(n, k);
    }
    forall k | k in m ensures m[k] == n[k] {
      assert Lookup(m, k) == Lookup(n, k);
    }
  }

  /** Merging the same rows again changes nothing, even when several of them share an id. */
  lemma MergingRowsTwice(results: map<ResultId, ResultRow>, rows: seq<(ResultId, ResultRow)>)
    ensures MergeRows(MergeRows(results, rows, |rows|), rows, |rows|) == MergeRows(results, rows, |rows|)
  {
    var once := MergeRows(results, rows, |rows|);
    forall id ensures Lookup(MergeRows(once, rows, |rows|), id) == Lookup(once, id) {
      MergeRowsLookup(results, rows, id, |rows|);
      MergeRowsLookup(once, rows, id, |rows|);
      MergedUnderTwice(Lookup(results, id), rows, id);
    }
    SameLookups(MergeRows(once, rows, |rows|), once);
  }

  lemma SyncedRowTwiceIff(c: Config, stored: Option<TaskRow>, task: Id, kind: Kind, l: Local, now: Time, later: Time)
    ensures var once := SyncedRow(c, stored, task, kind, l, now);
      SyncedRow(c, Some(once), task, kind, l, later) == once
      <==> l.summary.Some? || !Terminal(MapStatus(l.manifest.status)) || now == later
  {
  }

  /** Syncing again from the same manifest, summary and files changes nothing, exactly when the summary is
      there, the status is not terminal, or the clock has not moved. */
  lemma SyncIsIdempotentIff(c: Config, db: Db, task: Id, kind: Option<Kind>, l: Local, now: Time, later: Time)
    ensures var once := Synced(c, db, task, kind, Some(l), now);
      Synced(c, once, task, kind, Some(l), later) == once
      <==> l.summary.Some? || !Terminal(MapStatus(l.manifest.status)) || now == later
  {
    var once := Synced(c, db, task, kind, Some(l), now);
    var again := Synced(c, once, task, kind, Some(l), later);
    SyncedTablesTwice(c, db, task, kind, l, now, later);
    SyncedRowTwiceIff(c, Lookup(db.tasks, task), task, EffectiveKind(kind, l), l, now, later);
    assert again.tasks == once.tasks[task := SyncedRow(c, Some(once.tasks[task]), task, EffectiveKind(kind, l), l, later)];
    assert again.tasks == once.tasks <==> again.tasks[task] == once.tasks[task];
  }

  lemma WritingTwice<K, V>(m: map<K, V>, k1: K, v1: V, k2: K, v2: V)
    requires k1 != k2
    ensures m[k1 := v1][k2 := v2][k1 := v1][k2 := v2] == m[k1 := v1][k2 := v2]
  {
  }

  /** The tables beside the task table are the same after the second sync. */
  lemma SyncedTablesTwice(c: Config, db: Db, task: Id, kind: Option<Kind>, l: Local, now: Time, later: Time)
    ensures var once := Synced(c, db, task, kind, Some(l), now);
      var again := Synced(c, once, task, kind, Some(l), later);
      again.assets == once.assets && again.results == once.results && again.events == once.events
  {
    var once := Synced(c, db, task, kind, Some(l), now);
    var user := OwnerOf(c, db, task);
    assert OwnerOf(c, once, task) == user by { assert once.tasks[task].user == user; }
    var rows := ResultRows(c, user, task, EffectiveKind(kind, l), l);
    MergingRowsTwice(db.results, rows);
    WritingTwice(db.events, StateKey(task, l), StateEvent(user, l, |rows|), ResultsKey(task, l), ResultsEvent(user, l, |rows|));
  }

  /** An input: a finished task whose summary is missing. Each sync stamps a new finish time. */
  lemma SyncWithoutSummaryMoves(c: Config, db: Db, task: Id)
    ensures var l := Local(Manifest(Done, "finalize", "", 100, "", "tea", "tmall", 8, 0), None, None, []);
      Synced(c, Synced(c, db, task, None, Some(l), 1), task, None, Some(l), 2) != Synced(c, db, task, None, Some(l), 1)
  {
    var l := Local(Manifest(Done, "finalize", "", 100, "", "tea", "tmall", 8, 0), None, None, []);
    SyncIsIdempotentIff(c, db, task, None, l, 1, 2);
  }

  lemma {:induction false} StoredAssetUnder(
    c: Config, db: Db, user: Id, task: Id, assets: seq<AssetInput>, n: nat, i: nat)
    requires i < n <= |assets| && forall j :: i < j < n ==> assets[j].path != assets[i].path
    ensures Lookup(StoredAssets(c, db, user, task, assets, n), AssetId(task, assets[i].path))
      == Some(AssetRowOf(c, db.results, user, task, assets[i]))
  {
    if i < n - 1 {
      StoredAssetUnder(c, db, user, task, assets, n - 1, i);
    }
  }

  lemma {:induction false} OtherAssetKept(
    c: Config, db: Db, user: Id, task: Id, assets: seq<AssetInput>, n: nat, id: AssetId)
    requires n <= |assets| && forall j :: 0 <= j < n ==> id != AssetId(task, assets[j].path)
    ensures Lookup(StoredAssets(c, db, user, task, assets, n), id) == Lookup(db.assets, id)
  {
    if n > 0 {
      OtherAssetKept(c, db, user, task, assets, n - 1, id);
    }
  }

  /** The last input with this path, if any. */
  function LastWithPath(assets: seq<AssetInput>, path: string, n: nat): (i: int)
    requires n <= |assets|
    ensures -1 <= i < n
    ensures i >= 0 ==> assets[i].path == path
    ensures forall j :: i < j < n ==> assets[j].path != path
  {
    if n == 0 then -1 else if assets[n - 1].path == path then n - 1 else LastWithPath(assets, path, n - 1)
  }

  /** Creation stores every input asset (of several with one path the last) and leaves all others alone. */
  lemma AssetsAreStored(c: Config, db: Db, task: Id, x: Creation, now: Time, id: AssetId)
    ensures var i := if id.task == task then LastWithPath(x.assets, id.path, |x.assets|) else -1;
      Lookup(CreatedRecord(c, db, task, x, now).assets, id)
      == if i >= 0 then Some(AssetRowOf(c, db.results, CreatorOf(c, x), task, x.assets[i])) else Lookup(db.assets, id)
  {
    var i := if id.task == task then LastWithPath(x.assets, id.path, |x.assets|) else -1;
    if i >= 0 {
      StoredAssetUnder(c, db, CreatorOf(c, x), task, x.assets, |x.assets|, i);
    } else {
      OtherAssetKept(c, db, CreatorOf(c, x), task, x.assets, |x.assets|, id);
    }
  }

  lemma CreatedRowTwice(c: Config, stored: Option<TaskRow>, x: Creation, now: Time, later: Time)
    ensures CreatedRow(c, Some(CreatedRow(c, stored, x, now)), x, later) == CreatedRow(c, stored, x, now)
  {
  }

  /** Creating a record again changes nothing, at any later time: the row, its assets and its events are
      those of the first call. */
  lemma CreationIsIdempotent(c: Config, db: Db, task: Id, x: Creation, now: Time, later: Time)
    ensures var once := CreatedRecord(c, db, task, x, now);
      CreatedRecord(c, once, task, x, later) == once
  {
    var once := CreatedRecord(c, db, task, x, now);
    var again := CreatedRecord(c, once, task, x, later);
    CreatedRowTwice(c, Lookup(db.tasks, task), x, now, later);
    forall id ensures Lookup(again.assets, id) == Lookup(once.assets, id) {
      AssetsAreStored(c, db, task, x, now, id);
      AssetsAreStored(c, once, task, x, later, id);
    }
    SameLookups(again.assets, once.assets);
    assert again.tasks == once.tasks;
    assert again.events == once.events;
  }

  // ---------------------------------------------------------------- series of calls

  /** The call concerns the task and finds something to write. */
  predicate Touches(op: Op, task: Id) {
    op.task == task && (op.Sync? ==> op.local.Some?)
  }

  /** The last call that concerned the task. */
  function LastTouch(ops: seq<Op>, task: Id): (r: Option<Op>)
    ensures r.Some? ==> Touches(r.value, task)
  {
    if ops == [] then None
    else if Touches(ops[|ops| - 1], task) then Some(ops[|ops| - 1])
    else LastTouch(ops[..|ops| - 1], task)
  }

  /** The task's owner after a series of calls: the last creator, else whoever it was before. */
  function OwnerAfter(c: Config, db: Db, ops: seq<Op>, task: Id): Id {
    if ops == [] then OwnerOf(c, db, task)
    else
      var op := ops[|ops| - 1];
      if op.Create? && op.task == task then CreatorOf(c, op.creation)
      else OwnerAfter(c, db, ops[..|ops| - 1], task)
  }

  lemma {:induction false} OwnerIsLastCreator(c: Config, db: Db, ops: seq<Op>, task: Id)
    ensures OwnerOf(c, Run(c, db, ops), task) == OwnerAfter(c, db, ops, task)
  {
    if ops != [] {
      OwnerIsLastCreator(c, db, ops[..|ops| - 1], task);
    }
  }

  /** After any series of calls that ends, for this task, with a sync, the mirrored columns are a function
      of what that sync found on disk and of the owner: no earlier state shows through. */
  lemma {:induction false} ColumnsFollowLastSync(c: Config, db: Db, ops: seq<Op>, task: Id)
    requires LastTouch(ops, task).Some? && LastTouch(ops, task).value.Sync?
    ensures var after, last := Run(c, db, ops), LastTouch(ops, task).value;
      && task in after.tasks
      && after.tasks[task].user == OwnerAfter(c, db, ops, task)
      && after.tasks[task].columns
         == ColumnsOf(c, OwnerAfter(c, db, ops, task), task, EffectiveKind(last.taskKind, last.local.value), last.local.value)
  {
    var before := ops[..|ops| - 1];
    OwnerIsLastCreator(c, db, before, task);
    if !Touches(ops[|ops| - 1], task) {
      ColumnsFollowLastSync(c, db, before, task);
    }
  }

  lemma StepKeepsStart(c: Config, db: Db, op: Op, task: Id)
    requires task in db.tasks
    ensures var after := Apply(c, db, op);
      && task in after.tasks
      && (db.tasks[task].startedAt.Some? ==> after.tasks[task].startedAt == db.tasks[task].startedAt)
      && (db.tasks[task].queuedAt.Some? ==> after.tasks[task].queuedAt == db.tasks[task].queuedAt)
      && (db.tasks[task].finishedAt.Some? ==> after.tasks[task].finishedAt.Some?)
      && after.tasks[task].retryCount == db.tasks[task].retryCount
  {
  }

  /** Once set, `started_at` and `queued_at` never move and `finished_at` is never cleared; the retry count
      is never touched. */
  lemma {:induction false} StartNeverMoves(c: Config, db: Db, ops: seq<Op>, task: Id)
    requires task in db.tasks
    ensures var after := Run(c, db, ops);
      && task in after.tasks
      && (db.tasks[task].startedAt.Some? ==> after.tasks[task].startedAt == db.tasks[task].startedAt)
      && (db.tasks[task].queuedAt.Some? ==> after.tasks[task].queuedAt == db.tasks[task].queuedAt)
      && (db.tasks[task].finishedAt.Some? ==> after.tasks[task].finishedAt.Some?)
      && after.tasks[task].retryCount == db.tasks[task].retryCount
  {
    if ops != [] {
      StartNeverMoves(c, db, ops[..|ops| - 1], task);
      StepKeepsStart(c, Run(c, db, ops[..|ops| - 1]), ops[|ops| - 1], task);
    }
  }

  // ---------------------------------------------------------------- events

  /** The events that a call writes. */
  function KeysOf(op: Op): set<EventId> {
    match op
    case Create(task, _, _) => {EventKey(task, TaskCreated, Some("queued")), EventKey(task, TaskQueued, Some("queued"))}
    case Sync(task, _, local, _) => if local.None? then {} else {StateKey(task, local.value), ResultsKey(task, local.value)}
  }

  function KeysOfAll(ops: seq<Op>): set<EventId> {
    if ops == [] then {} else KeysOfAll(ops[..|ops| - 1]) + KeysOf(ops[|ops| - 1])
  }

  /** The event table holds exactly one row per distinct event of the series, however often it ran. */
  lemma {:induction false} EventRowsAreDistinctKeys(c: Config, db: Db, ops: seq<Op>)
    ensures Run(c, db, ops).events.Keys == db.events.Keys + KeysOfAll(ops)
  {
    if ops != [] {
      EventRowsAreDistinctKeys(c, db, ops[..|ops| - 1]);
    }
  }

  lemma {:induction false} KeysOfConcat(ops: seq<Op>, more: seq<Op>)
    ensures KeysOfAll(ops + more) == KeysOfAll(ops) + KeysOfAll(more)
  {
    if more == [] {
      assert ops + more == ops;
    } else {
      assert (ops + more)[..|ops + more| - 1] == ops + more[..|more| - 1];
      KeysOfConcat(ops, more[..|more| - 1]);
    }
  }

  lemma {:induction false} KeysOfMember(ops: seq<Op>, i: nat)
    requires i < |ops|
    ensures KeysOf(ops[i]) <= KeysOfAll(ops)
  {
    if i < |ops| - 1 {
      KeysOfMember(ops[..|ops| - 1], i);
    }
  }

  lemma {:induction false} RepeatedKeys(ops: seq<Op>, again: seq<Op>)
    requires forall i :: 0 <= i < |again| ==> again[i] in ops
    ensures KeysOfAll(again) <= KeysOfAll(ops)
  {
    if again != [] {
      assert again[|again| - 1] in ops;
      var i :| 0 <= i < |ops| && ops[i] == again[|again| - 1];
      KeysOfMember(ops, i);
      RepeatedKeys(ops, again[..|again| - 1]);
    }
  }

  /** Making any of the calls again, in any order and any number of times, adds no event row. */
  lemma RepeatedCallsAddNoEvents(c: Config, db: Db, ops: seq<Op>, again: seq<Op>)
    requires forall i :: 0 <= i < |again| ==> again[i] in ops
    ensures Run(c, db, ops + again).events.Keys == Run(c, db, ops).events.Keys
  {
    RepeatedKeys(ops, again);
    KeysOfConcat(ops, again);
    EventRowsAreDistinctKeys(c, db, ops + again);
    EventRowsAreDistinctKeys(c, db, ops);
  }

  // ---------------------------------------------------------------- the names behind the ids

  const HexDigits: string := "0123456789abcdef"

  /** `UUID.hex`: fixed width, most significant digit first. */
  function Hex(n: nat, width: nat): (r: string)
    ensures |r| == width
  {
    if width == 0 then [] else Hex(n / 16, width - 1) + [HexDigits[n % 16]]
  }

  function Power16(width: nat): nat {
    if width == 0 then 1 else 16 * Power16(width - 1)
  }

  /** A UUID has 128 bits. */
  predicate IsUuid(id: Id) {
    id < Power16(32)
  }

  lemma HexDigitsDiffer(i: nat, j: nat)
    requires i < 16 && j < 16 && HexDigits[i] == HexDigits[j]
    ensures i == j
  {
  }

  lemma {:induction false} HexIsInjective(a: nat, b: nat, width: nat)
    requires a < Power16(width) && b < Power16(width) && Hex(a, width) == Hex(b, width)
    ensures a == b
  {
    if width > 0 {
      var x, y := Hex(a, width), Hex(b, width);
      assert x[..width - 1] == Hex(a / 16, width - 1) && y[..width - 1] == Hex(b / 16, width - 1);
      assert x[width - 1] == HexDigits[a % 16] && y[width - 1] == HexDigits[b % 16];
      HexDigitsDiffer(a % 16, b % 16);
      HexIsInjective(a / 16, b / 16, width - 1);
    }
  }

  function TypeName(event: EventType): string {
    match event
    case TaskCreated => "task_created"
    case TaskQueued => "task_queued"
    case TaskRunning => "task_running"
    case TaskSucceeded => "task_succeeded"
    case TaskFailed => "task_failed"
    case TaskPartialFailed => "task_partial_failed"
    case TaskCancelled => "task_cancelled"
    case ResultsSynced => "task_results_synced"
  }

  lemma TypeNamesDiffer(a: EventType, b: EventType)
    ensures ':' !in TypeName(a)
    ensures TypeName(a) == TypeName(b) ==> a == b
  {
    TypeNameLength(a);
    TypeNameLength(b);
  }

  /** The names are told apart by length and, at equal length, by their sixth character. */
  lemma TypeNameLength(a: EventType)
    ensures |TypeName(a)| == match a {
      case TaskCreated => 12 case TaskQueued => 11 case TaskRunning => 12 case TaskSucceeded => 14
      case TaskFailed => 11 case TaskPartialFailed => 19 case TaskCancelled => 14 case ResultsSynced => 19 }
    ensures TypeName(a)[5] == match a {
      case TaskCreated => 'c' case TaskQueued => 'q' case TaskRunning => 'r' case TaskSucceeded => 's'
      case TaskFailed => 'f' case TaskPartialFailed => 'p' case TaskCancelled => 'c' case ResultsSynced => 'r' }
  {
  }

  /** The name of an event's id. */
  function EventName(task: Id, event: EventType, step: Option<string>): string {
    "task-event:" + (Hex(task, 32) + (":" + (TypeName(event) + ":" + StepText(step))))
  }

  lemma PrefixesDrop(p: string, a: string, q: string, b: string)
    requires |p| == |q| && p + a == q + b
    ensures p == q && a == b
  {
    assert p == (p + a)[..|p|] && q == (q + b)[..|q|];
    assert a == (p + a)[|p|..] && b == (q + b)[|q|..];
  }

  /** Two event names are the same string exactly when they are of the same task and type and their steps
      agree, an absent or empty step counting as a dash. Colons inside a step do no harm. */
  lemma SameEventNameIff(task: Id, a: EventType, step: Option<string>, other: Id, b: EventType, otherStep: Option<string>)
    requires IsUuid(task) && IsUuid(other)
    ensures EventName(task, a, step) == EventName(other, b, otherStep)
      <==> task == other && a == b && StepText(step) == StepText(otherStep)
  {
    var x, y := TypeName(a) + ":" + StepText(step), TypeName(b) + ":" + StepText(otherStep);
    if EventName(task, a, step) == EventName(other, b, otherStep) {
      PrefixesDrop("task-event:", Hex(task, 32) + (":" + x), "task-event:", Hex(other, 32) + (":" + y));
      PrefixesDrop(Hex(task, 32), ":" + x, Hex(other, 32), ":" + y);
      PrefixesDrop(":", x, ":", y);
      HexIsInjective(task, other, 32);
      TypeNamesDiffer(a, b);
      TypeNamesDiffer(b, a);
      SeparatorSplits(TypeName(a), StepText(step), TypeName(b), StepText(otherStep), ':');
    }
  }

  /** So an event id stands for its name. */
  lemma EventIdsAreNames(task: Id, a: EventType, step: Option<string>, other: Id, b: EventType, otherStep: Option<string>)
    requires IsUuid(task) && IsUuid(other)
    ensures EventKey(task, a, step) == EventKey(other, b, otherStep) <==> EventName(task, a, step) == EventName(other, b, otherStep)
  {
    SameEventNameIff(task, a, step, other, b, otherStep);
  }

  /** The name of the id of a file's row: `task-result` or `task-asset`, the task and the path. */
  function FileName(prefix: string, task: Id, path: string): string {
    prefix + (Hex(task, 32) + (":" + path))
  }

  /** And so do the ids of results and assets. */
  lemma FileIdsAreNames(task: Id, path: string, other: Id, otherPath: string)
    requires IsUuid(task) && IsUuid(other)
    ensures ResultId(task, path) == ResultId(other, otherPath)
      <==> FileName("task-result:", task, path) == FileName("task-result:", other, otherPath)
    ensures AssetId(task, path) == AssetId(other, otherPath)
      <==> FileName("task-asset:", task, path) == FileName("task-asset:", other, otherPath)
  {
    SameFileName("task-result:", task, path, other, otherPath);
    SameFileName("task-asset:", task, path, other, otherPath);
  }

  lemma SameFileName(prefix: string, task: Id, path: string, other: Id, otherPath: string)
    requires IsUuid(task) && IsUuid(other)
    ensures FileName(prefix, task, path) == FileName(prefix, other, otherPath) <==> task == other && path == otherPath
  {
    if FileName(prefix, task, path) == FileName(prefix, other, otherPath) {
      PrefixesDrop(prefix, Hex(task, 32) + (":" + path), prefix, Hex(other, 32) + (":" + otherPath));
      PrefixesDrop(Hex(task, 32), ":" + path, Hex(other, 32), ":" + otherPath);
      PrefixesDrop(":", path, ":", otherPath);
      HexIsInjective(task, other, 32);
    }
  }

  // ---------------------------------------------------------------- results

  /** The stored row shows every column that the written row sets. */
  predicate Covers(stored: ResultRow, row: ResultRow) {
    && stored.user == row.user && stored.kind == row.kind && stored.key == row.key
    && stored.primary == row.primary && stored.content == row.content
    && (row.pageNo.Some? ==> stored.pageNo == row.pageNo)
    && (row.shotNo.Some? ==> stored.shotNo == row.shotNo)
    && (row.version.Some? ==> stored.version == row.version)
    && (row.pageId.Some? ==> stored.pageId == row.pageId)
  }

  lemma {:induction false} LastRowCovers(stored: Option<ResultRow>, rows: seq<(ResultId, ResultRow)>, i: nat, n: nat)
    requires i < n <= |rows| && forall j :: i < j < n ==> rows[j].0 != rows[i].0
    ensures MergedUnder(stored, rows, rows[i].0, n).Some? && Covers(MergedUnder(stored, rows, rows[i].0, n).value, rows[i].1)
  {
    if i < n - 1 {
      LastRowCovers(stored, rows, i, n - 1);
    }
  }

  lemma {:induction false} UnwrittenKept(stored: Option<ResultRow>, rows: seq<(ResultId, ResultRow)>, id: ResultId, n: nat)
    requires n <= |rows| && forall j :: 0 <= j < n ==> rows[j].0 != id
    ensures MergedUnder(stored, rows, id, n) == stored
  {
    if n > 0 {
      UnwrittenKept(stored, rows, id, n - 1);
    }
  }

  lemma LastRowIsMerged(stored: map<ResultId, ResultRow>, rows: seq<(ResultId, ResultRow)>, i: nat)
    requires i < |rows| && forall j :: i < j < |rows| ==> rows[j].0 != rows[i].0
    ensures var after := MergeRows(stored, rows, |rows|);
      rows[i].0 in after && Covers(after[rows[i].0], rows[i].1)
  {
    MergeRowsLookup(stored, rows, rows[i].0, |rows|);
    LastRowCovers(Lookup(stored, rows[i].0), rows, i, |rows|);
  }

  lemma OtherRowsAreKept(stored: map<ResultId, ResultRow>, rows: seq<(ResultId, ResultRow)>, id: ResultId)
    requires forall j :: 0 <= j < |rows| ==> rows[j].0 != id
    ensures Lookup(MergeRows(stored, rows, |rows|), id) == Lookup(stored, id)
  {
    MergeRowsLookup(stored, rows, id, |rows|);
    UnwrittenKept(Lookup(stored, id), rows, id, |rows|);
  }

  /** After a sync every row it built is stored (of several with one id the last), and every result it did
      not build, of this task or another, is as it was. */
  lemma ResultsAreMirrored(c: Config, db: Db, task: Id, kind: Option<Kind>, l: Local, now: Time)
    ensures var rows := ResultRows(c, OwnerOf(c, db, task), task, EffectiveKind(kind, l), l);
      var after := Synced(c, db, task, kind, Some(l), now).results;
      && (forall i :: 0 <= i < |rows| && (forall j :: i < j < |rows| ==> rows[j].0 != rows[i].0) ==>
            rows[i].0 in after && Covers(after[rows[i].0], rows[i].1))
      && (forall id :: (forall j :: 0 <= j < |rows| ==> rows[j].0 != id) ==> Lookup(after, id) == Lookup(db.results, id))
  {
    var rows := ResultRows(c, OwnerOf(c, db, task), task, EffectiveKind(kind, l), l);
    var after := Synced(c, db, task, kind, Some(l), now).results;
    assert after == MergeRows(db.results, rows, |rows|);
    forall i | 0 <= i < |rows| && (forall j :: i < j < |rows| ==> rows[j].0 != rows[i].0)
      ensures rows[i].0 in after && Covers(after[rows[i].0], rows[i].1)
    {
      LastRowIsMerged(db.results, rows, i);
    }
    forall id | forall j :: 0 <= j < |rows| ==> rows[j].0 != id ensures Lookup(after, id) == Lookup(db.results, id) {
      OtherRowsAreKept(db.results, rows, id);
    }
  }

  lemma {:induction false} MainRowIds(c: Config, user: Id, task: Id, kind: Kind, images: seq<ImageFile>, n: nat)
    requires n <= |images|
    ensures |MainRows(c, user, task, kind, images, n)| == n
    ensures forall i :: 0 <= i < n ==> MainRows(c, user, task, kind, images, n)[i].0 == ResultId(task, images[i].path)
  {
    if n > 0 {
      MainRowIds(c, user, task, kind, images, n - 1);
    }
  }

  /** The rows of completed pages, in report order: page number, version and file are those of the page. */
  lemma {:induction false} PageRowMeaning(c: Config, user: Id, task: Id, report: seq<ReportRow>, n: nat, i: nat)
    requires n <= |report| && i < |PageRows(c, user, task, report, n)|
    ensures var (id, row) := PageRows(c, user, task, report, n)[i];
      && row.pageNo.Some? && 1 <= row.pageNo.value <= n
      && var page := report[row.pageNo.value - 1];
         && page.completed && page.path != "" && page.file == Some(row.content) && id == ResultId(task, page.path)
         && row.version == Some(VersionOf(page.retryCount)) && row.version.value >= 1
         && (row.primary <==> row.pageNo.value == 1)
         && row.user == user && row.kind == DetailPage && row.key == KeyFor(c, user, task, page.path)
         && row.pageId == Some(page.pageId) && row.shotNo == None
  {
    if i < |PageRows(c, user, task, report, n - 1)| {
      PageRowMeaning(c, user, task, report, n - 1, i);
    }
  }

  /** Every completed page whose file exists has its row. */
  lemma {:induction false} EveryPageHasRow(c: Config, user: Id, task: Id, report: seq<ReportRow>, n: nat, page: nat)
    returns (i: nat)
    requires page < n <= |report| && report[page].completed && report[page].path != "" && report[page].file.Some?
    ensures i < |PageRows(c, user, task, report, n)| && PageRows(c, user, task, report, n)[i].1.pageNo == Some(page + 1)
  {
    if page == n - 1 {
      i := |PageRows(c, user, task, report, n - 1)|;
    } else {
      i := EveryPageHasRow(c, user, task, report, n - 1, page);
    }
  }

  lemma {:induction false} PageRowsAscend(c: Config, user: Id, task: Id, report: seq<ReportRow>, n: nat, i: nat, j: nat)
    requires n <= |report| && i < j < |PageRows(c, user, task, report, n)|
    ensures var rows := PageRows(c, user, task, report, n);
      rows[i].1.pageNo.Some? && rows[j].1.pageNo.Some? && rows[i].1.pageNo.value < rows[j].1.pageNo.value
  {
    if j < |PageRows(c, user, task, report, n - 1)| {
      PageRowsAscend(c, user, task, report, n - 1, i, j);
    } else {
      PageRowMeaning(c, user, task, report, n - 1, i);
    }
  }

  /** Rows that leave a column unset leave what is stored there. */
  lemma {:induction false} UnsetIsKept(stored: Option<ResultRow>, rows: seq<(ResultId, ResultRow)>, id: ResultId, n: nat)
    requires n <= |rows|
    ensures var after := MergedUnder(stored, rows, id, n);
      && (stored.Some? ==> after.Some?)
      && ((forall j :: 0 <= j < n ==> rows[j].1.shotNo.None?) && after.Some? ==>
            after.value.shotNo == if stored.Some? then stored.value.shotNo else None)
      && ((forall j :: 0 <= j < n ==> rows[j].1.pageNo.None? && rows[j].1.version.None? && rows[j].1.pageId.None?) && after.Some? ==>
            && after.value.pageNo == (if stored.Some? then stored.value.pageNo else None)
            && after.value.version == (if stored.Some? then stored.value.version else None)
            && after.value.pageId == (if stored.Some? then stored.value.pageId else None))
  {
    if n > 0 {
      UnsetIsKept(stored, rows, id, n - 1);
    }
  }

  /** A page that a sync mirrors: it is completed and has a path and a file. */
  predicate Mirrored(page: ReportRow) {
    page.completed && page.path != "" && page.file.Some?
  }

  /** A sync is one of a detail task: the caller says so, or else the summary does. */
  predicate IsDetail(kind: Option<Kind>, l: Local) {
    if kind.Some? then kind.value == DetailPage else l.summary.Some? && l.summary.value.taskType == "detail_page_v2"
  }

  /** After a sync of a detail task with a report, each completed page with a file is stored under its path (of
      several with one path the last): for the owner of the task, with its number, its page id, its content,
      and one more than its retries, but at least one, as version; the first page is the primary one. */
  lemma PagesAreStored(c: Config, db: Db, task: Id, kind: Option<Kind>, l: Local, now: Time, page: nat)
    requires IsDetail(kind, l) && l.report.Some? && page < |l.report.value| && Mirrored(l.report.value[page])
    requires forall later :: page < later < |l.report.value| && Mirrored(l.report.value[later]) ==>
      l.report.value[later].path != l.report.value[page].path
    ensures var after, row, owner := Synced(c, db, task, kind, Some(l), now).results, l.report.value[page], OwnerOf(c, db, task);
      var id := ResultId(task, row.path);
      && id in after
      && after[id].user == owner && after[id].kind == DetailPage
      && after[id].key == (if c.cosEnabled then ObjectKey(owner, task, ResultFolder, row.path) else LocalKey(row.path))
      && after[id].pageNo == Some(page + 1) && after[id].pageId == Some(row.pageId)
      && row.file == Some(after[id].content) && (after[id].primary <==> page == 0)
      && after[id].version == Some(if row.retryCount < 0 then 1 else row.retryCount + 1)
      && after[id].shotNo == (if id in db.results then db.results[id].shotNo else None)
  {
    var report, owner := l.report.value, OwnerOf(c, db, task);
    var rows := ResultRows(c, owner, task, EffectiveKind(kind, l), l);
    assert rows == PageRows(c, owner, task, report, |report|);
    var i := EveryPageHasRow(c, owner, task, report, |report|, page);
    PageRowMeaning(c, owner, task, report, |report|, i);
    forall j | i < j < |rows| ensures rows[j].0 != rows[i].0 {
      PageRowsAscend(c, owner, task, report, |report|, i, j);
      PageRowMeaning(c, owner, task, report, |report|, j);
    }
    forall j | 0 <= j < |rows| ensures rows[j].1.shotNo.None? {
      PageRowMeaning(c, owner, task, report, |report|, j);
    }
    var id := ResultId(task, l.report.value[page].path);
    LastRowIsMerged(db.results, rows, i);
    MergeRowsLookup(db.results, rows, id, |rows|);
    UnsetIsKept(Lookup(db.results, id), rows, id, |rows|);
  }

  /** And nothing else of the task is written: a result under any other path is as it was. */
  lemma OtherPathsAreKept(c: Config, db: Db, task: Id, kind: Option<Kind>, l: Local, now: Time, path: string)
    requires IsDetail(kind, l) && l.report.Some?
    requires forall page :: 0 <= page < |l.report.value| && Mirrored(l.report.value[page]) ==> l.report.value[page].path != path
    ensures Lookup(Synced(c, db, task, kind, Some(l), now).results, ResultId(task, path)) == Lookup(db.results, ResultId(task, path))
  {
    var report, owner := l.report.value, OwnerOf(c, db, task);
    var rows := ResultRows(c, owner, task, EffectiveKind(kind, l), l);
    assert rows == PageRows(c, owner, task, report, |report|);
    forall j | 0 <= j < |rows| ensures rows[j].0 != ResultId(task, path) {
      PageRowMeaning(c, owner, task, report, |report|, j);
    }
    ResultsAreMirrored(c, db, task, kind, l, now);
  }

  lemma {:induction false} MainRowMeaning(c: Config, user: Id, task: Id, kind: Kind, images: seq<ImageFile>, n: nat, i: nat)
    requires i < n <= |images|
    ensures |MainRows(c, user, task, kind, images, n)| == n
    ensures MainRows(c, user, task, kind, images, n)[i]
      == (ResultId(task, images[i].path),
          ResultRow(user, kind, None, Some(i + 1), None, KeyFor(c, user, task, images[i].path), None, i == 0, images[i].content))
  {
    MainRowIds(c, user, task, kind, images, n);
    MainRowIds(c, user, task, kind, images, n - 1);
    if i < n - 1 {
      MainRowMeaning(c, user, task, kind, images, n - 1, i);
    }
  }

  /** After any other sync, each image found is stored under its path with its place in the listing, the first
      one as primary; a detail task without a report keeps its own kind. */
  lemma ImagesAreStored(c: Config, db: Db, task: Id, kind: Option<Kind>, l: Local, now: Time, i: nat)
    requires !(IsDetail(kind, l) && l.report.Some?) && i < |l.images|
    requires forall j :: i < j < |l.images| ==> l.images[j].path != l.images[i].path
    ensures var after, image, owner := Synced(c, db, task, kind, Some(l), now).results, l.images[i], OwnerOf(c, db, task);
      var id := ResultId(task, image.path);
      && id in after
      && after[id].user == owner && after[id].kind == (if IsDetail(kind, l) then DetailPage else MainImage)
      && after[id].key == (if c.cosEnabled then ObjectKey(owner, task, ResultFolder, image.path) else LocalKey(image.path))
      && after[id].shotNo == Some(i + 1) && after[id].content == image.content && (after[id].primary <==> i == 0)
      && after[id].pageNo == (if id in db.results then db.results[id].pageNo else None)
      && after[id].version == (if id in db.results then db.results[id].version else None)
      && after[id].pageId == (if id in db.results then db.results[id].pageId else None)
  {
    var owner, effective := OwnerOf(c, db, task), if IsDetail(kind, l) then DetailPage else MainImage;
    var rows := ResultRows(c, owner, task, EffectiveKind(kind, l), l);
    assert rows == MainRows(c, owner, task, effective, l.images, |l.images|);
    MainRowIds(c, owner, task, effective, l.images, |l.images|);
    MainRowMeaning(c, owner, task, effective, l.images, |l.images|, i);
    assert forall j :: i < j < |rows| ==> rows[j].0 != rows[i].0;
    forall j | 0 <= j < |rows| ensures rows[j].1.pageNo.None? && rows[j].1.version.None? && rows[j].1.pageId.None? {
      MainRowMeaning(c, owner, task, effective, l.images, |l.images|, j);
    }
    var id := ResultId(task, l.images[i].path);
    LastRowIsMerged(db.results, rows, i);
    MergeRowsLookup(db.results, rows, id, |rows|);
    UnsetIsKept(Lookup(db.results, id), rows, id, |rows|);
  }

  // ---------------------------------------------------------------- what a sync leaves in the row

  /** The row of the task after a sync shows what was found: status, title, platform, step, progress and error
      as the manifest and the summary have them, an empty text as none; it starts when the work is first seen
      begun, with the creation time, and finishes with each terminal state. */
  lemma RowShowsWhatWasFound(c: Config, db: Db, task: Id, kind: Option<Kind>, l: Local, now: Time)
    ensures var after, m := Synced(c, db, task, kind, Some(l), now).tasks, l.manifest;
      && task in after
      && var row, was := after[task], Lookup(db.tasks, task);
         var columns := row.columns;
      && (columns.status == Queued <==> m.status == Created) && (columns.status == Running <==> m.status == InProgress)
      && (columns.status == Succeeded <==> m.status == Done) && (columns.status == Failed <==> m.status == Broken)
      && (columns.status == PartialFailed <==> m.status == ReviewRequired)
      && (columns.kind == DetailPage <==> IsDetail(kind, l))
      && (columns.kind == ImageEdit <==>
            if kind.Some? then kind.value == ImageEdit else l.summary.Some? && l.summary.value.taskType == "image_edit")
      && Shown(columns.title, if l.summary.Some? then l.summary.value.title else m.productName)
      && Shown(columns.platform, if l.summary.Some? then l.summary.value.platform else m.platform)
      && Shown(columns.step, m.step) && Shown(columns.error, m.error) && columns.progress == m.progress
      && row.startedAt == (if was.Some? && was.value.startedAt.Some? then was.value.startedAt
                           else if m.status == Created then None
                           else Some(if l.summary.Some? then l.summary.value.createdAt else m.createdAt))
      && row.finishedAt == (if m.status == Done || m.status == Broken || m.status == ReviewRequired
                            then Some(if l.summary.Some? then l.summary.value.updatedAt else now)
                            else if was.Some? then was.value.finishedAt else None)
  {
  }

  /** The rest of the row: owner, inputs, retries, creation and queue time are those of the earlier row, or the
      first ones; the snapshot holds the manifest's own words and the summary's counts. */
  lemma RowKeepsTheRest(c: Config, db: Db, task: Id, kind: Option<Kind>, l: Local, now: Time)
    ensures var after, m := Synced(c, db, task, kind, Some(l), now).tasks, l.manifest;
      && task in after
      && var row, shown := after[task], after[task].columns.snapshot;
      && (task in db.tasks ==>
            var was := db.tasks[task];
            && row.user == was.user && row.inputs == was.inputs && row.retryCount == was.retryCount
            && row.createdAt == was.createdAt && row.queuedAt == was.queuedAt)
      && (task !in db.tasks ==>
            && row.user == c.compatUser && row.inputs == Inputs(None, None, None, None) && row.retryCount == 0
            && row.createdAt == now && row.queuedAt == None)
      && shown.legacyStatus == m.status && shown.step == m.step && shown.caption == m.stepLabel
      && shown.progress == m.progress && shown.error == m.error
      && (l.summary.Some? ==>
            shown.completed == l.summary.value.completed && shown.total == l.summary.value.total && shown.zip == l.summary.value.zip)
      && (l.summary.None? ==> shown.completed == 0 && shown.total == m.shotCount && shown.zip == "")
  {
  }

  /** Creation leaves a queued row of the creator, or of the compatibility account, with what it was given and
      nothing shown as done. Of a row that was there it keeps creation and queue time, start, finish, retries
      and error. */
  lemma CreationShows(c: Config, db: Db, task: Id, x: Creation, now: Time)
    ensures var after := CreatedRecord(c, db, task, x, now).tasks;
      && task in after
      && var row, columns := after[task], after[task].columns;
      && row.user == (if x.user.Some? then x.user.value else c.compatUser) && row.inputs == x.inputs
      && columns.kind == x.kind && columns.status == Queued && columns.step == Some("queued") && columns.progress == 0
      && Shown(columns.title, x.title) && Shown(columns.platform, x.platform)
      && columns.resultSummary == ResultSummary(0, None, None, "")
      && columns.snapshot == Snapshot(Created, "queued", "", 0, "", 0, 0, "")
      && (task !in db.tasks ==>
            && row.createdAt == (if x.createdAt.Some? then x.createdAt.value else now) && row.queuedAt == Some(now)
            && row.retryCount == 0 && row.startedAt == row.finishedAt == None && columns.error == None)
      && (task in db.tasks ==>
            var was := db.tasks[task];
            && row.createdAt == was.createdAt && row.queuedAt == (if was.queuedAt.Some? then was.queuedAt else Some(now))
            && row.retryCount == was.retryCount && row.startedAt == was.startedAt && row.finishedAt == was.finishedAt
            && columns.error == was.columns.error)
  {
  }

  /** Creation records that the task was created and queued, in its creator's name. */
  lemma CreationIsRecorded(c: Config, db: Db, task: Id, x: Creation, now: Time)
    ensures var after := CreatedRecord(c, db, task, x, now).events;
      var created, queued := EventId(task, TaskCreated, "queued"), EventId(task, TaskQueued, "queued");
      var owner := if x.user.Some? then x.user.value else c.compatUser;
      && created in after && queued in after
      && after[created].user == after[queued].user == owner && after[created].level == after[queued].level == Info
      && after[created].step == after[queued].step == Some("queued")
      && after[created].payload == KindPayload(x.kind) && after[queued].payload == ProgressPayload(0)
      && forall id :: id != created && id != queued ==> Lookup(after, id) == Lookup(db.events, id)
  {
  }

  /** What is stored of an input asset: its own values, under the name of its file, or its path if it has none, when
      files are uploaded; and the result it comes from, exactly when job and path are given and it is mirrored. */
  lemma AssetShows(c: Config, db: Db, task: Id, x: Creation, now: Time, i: nat)
    requires i < |x.assets| && forall j :: i < j < |x.assets| ==> x.assets[j].path != x.assets[i].path
    ensures var after, a := CreatedRecord(c, db, task, x, now).assets, x.assets[i];
      var id, owner := AssetId(task, a.path), if x.user.Some? then x.user.value else c.compatUser;
      && id in after
      && var row := after[id];
         var name := if a.fileName == None || a.fileName == Some("") then a.path else a.fileName.value;
      && row.user == owner && row.role == a.role && row.sourceType == a.sourceType && row.fileName == a.fileName
      && row.content == a.content && row.metadata == a.metadata && row.sortOrder == a.sortOrder
      && row.key == (if c.cosEnabled then ObjectKey(owner, task, InputFolder, name) else LocalKey(a.path))
      && (row.source.Some? <==>
            a.sourceTask.Some? && a.sourceFile.Some? && a.sourceFile.value != ""
            && ResultId(a.sourceTask.value, a.sourceFile.value) in db.results)
      && (row.source.Some? ==> row.source.value == ResultId(a.sourceTask.value, a.sourceFile.value))
  {
    AssetsAreStored(c, db, task, x, now, AssetId(task, x.assets[i].path));
    LastWithPathIs(x.assets, i, |x.assets|);
  }

  lemma {:induction false} LastWithPathIs(assets: seq<AssetInput>, i: nat, n: nat)
    requires i < n <= |assets| && forall j :: i < j < n ==> assets[j].path != assets[i].path
    ensures LastWithPath(assets, assets[i].path, n) == i
  {
    if i < n - 1 {
      LastWithPathIs(assets, i, n - 1);
    }
  }

  /** Every sync records the state it found, under the event of that state and the step, and the number of
      results; a review is a warning and a failure an error, with its message if there is one. */
  lemma SyncIsRecorded(c: Config, db: Db, task: Id, kind: Option<Kind>, l: Local, now: Time)
    ensures var after, m := Synced(c, db, task, kind, Some(l), now), l.manifest;
      && task in after.tasks
      && var columns, owner := after.tasks[task].columns, after.tasks[task].user;
         var event := match m.status
                      case Created => TaskQueued case InProgress => TaskRunning case Done => TaskSucceeded
                      case ReviewRequired => TaskPartialFailed case Broken => TaskFailed;
         var step := if m.step == "" then "-" else m.step;
         var state, results := EventId(task, event, step), EventId(task, ResultsSynced, step);
      && state in after.events && results in after.events
      && after.events[state].user == after.events[results].user == owner
      && after.events[state].level == (if m.status == ReviewRequired then Warning else if m.status == Broken then Error else Info)
      && Shown(after.events[state].step, m.step) && Shown(after.events[results].step, m.step)
      && after.events[results].level == Info
      && (m.status == Broken && m.error != "" ==> after.events[state].message == m.error)
      && (m.status != Done && m.stepLabel != "" && (m.status == Broken ==> m.error == "") ==>
            after.events[state].message == m.stepLabel)
      && after.events[state].payload == StatePayload(columns.status, m.progress, columns.resultSummary.count)
      && after.events[results].payload == CountPayload(columns.resultSummary.count)
  {
  }

  /** The column holds this text, or nothing when it is empty. */
  ghost predicate Shown(column: Option<string>, text: string) {
    if text == "" then column.None? else column == Some(text)
  }

  function CountMirrored(report: seq<ReportRow>, n: nat): nat
    requires n <= |report|
  {
    if n == 0 then 0 else CountMirrored(report, n - 1) + if Mirrored(report[n - 1]) then 1 else 0
  }

  lemma {:induction false} PageRowCount(c: Config, user: Id, task: Id, report: seq<ReportRow>, n: nat)
    requires n <= |report|
    ensures |PageRows(c, user, task, report, n)| == CountMirrored(report, n)
  {
    if n > 0 {
      PageRowCount(c, user, task, report, n - 1);
    }
  }

  lemma {:induction false} FirstPrimaryIs(rows: seq<(ResultId, ResultRow)>)
    requires forall i :: 0 < i < |rows| ==> !rows[i].1.primary
    ensures FirstPrimary(rows) == if rows != [] && rows[0].1.primary then Some(rows[0]) else None
  {
    if rows != [] && !rows[0].1.primary {
      NoPrimary(rows[1..]);
    }
  }

  lemma {:induction false} NoPrimary(rows: seq<(ResultId, ResultRow)>)
    requires forall i :: 0 <= i < |rows| ==> !rows[i].1.primary
    ensures FirstPrimary(rows) == None
  {
    if rows != [] {
      NoPrimary(rows[1..]);
    }
  }

  /** The primary result of a detail task is its first page, if that is mirrored. */
  lemma PagePrimary(c: Config, user: Id, task: Id, report: seq<ReportRow>)
    ensures FirstPrimary(PageRows(c, user, task, report, |report|)).Some? <==> report != [] && Mirrored(report[0])
    ensures report != [] && Mirrored(report[0]) ==>
      var first := FirstPrimary(PageRows(c, user, task, report, |report|)).value;
      first.0 == ResultId(task, report[0].path) && first.1.key == KeyFor(c, user, task, report[0].path)
  {
    var rows := PageRows(c, user, task, report, |report|);
    forall i | 0 < i < |rows| ensures !rows[i].1.primary {
      PageRowsAscend(c, user, task, report, |report|, 0, i);
      PageRowMeaning(c, user, task, report, |report|, 0);
      PageRowMeaning(c, user, task, report, |report|, i);
    }
    FirstPrimaryIs(rows);
    if rows != [] {
      PageRowMeaning(c, user, task, report, |report|, 0);
    }
    if report != [] && Mirrored(report[0]) {
      var i := EveryPageHasRow(c, user, task, report, |report|, 0);
      PageRowMeaning(c, user, task, report, |report|, i);
      assert i == 0;
    }
  }

  lemma ImagePrimary(c: Config, user: Id, task: Id, kind: Kind, images: seq<ImageFile>)
    ensures FirstPrimary(MainRows(c, user, task, kind, images, |images|)).Some? <==> images != []
    ensures images != [] ==>
      var first := FirstPrimary(MainRows(c, user, task, kind, images, |images|)).value;
      first.0 == ResultId(task, images[0].path) && first.1.key == KeyFor(c, user, task, images[0].path)
  {
    var rows := MainRows(c, user, task, kind, images, |images|);
    MainRowIds(c, user, task, kind, images, |images|);
    forall i | 0 <= i < |rows| ensures rows[i].1.primary <==> i == 0 {
      MainRowMeaning(c, user, task, kind, images, |images|, i);
    }
    FirstPrimaryIs(rows);
    if images != [] {
      MainRowMeaning(c, user, task, kind, images, |images|, 0);
    }
  }

  /** The summary of results in the row counts what was mirrored and names the first page or image as primary; a
      detail task whose first page is not mirrored has no primary result. */
  lemma SummaryShowsResults(c: Config, db: Db, task: Id, kind: Option<Kind>, l: Local, now: Time)
    ensures var after := Synced(c, db, task, kind, Some(l), now).tasks;
      && task in after
      && var shown := after[task].columns.resultSummary;
         var pages := IsDetail(kind, l) && l.report.Some?;
      && shown.count == (if pages then CountMirrored(l.report.value, |l.report.value|) else |l.images|)
      && shown.primary == (if pages then
                             if l.report.value != [] && Mirrored(l.report.value[0]) then Some(ResultId(task, l.report.value[0].path)) else None
                           else if l.images != [] then Some(ResultId(task, l.images[0].path)) else None)
      && shown.primaryKey == (if shown.primary.None? then None
                              else if c.cosEnabled then Some(ObjectKey(after[task].user, task, ResultFolder, shown.primary.value.path))
                              else Some(LocalKey(shown.primary.value.path)))
      && shown.zip == (if l.summary.Some? then l.summary.value.zip else "")
  {
    var owner := OwnerOf(c, db, task);
    if IsDetail(kind, l) && l.report.Some? {
      PageRowCount(c, owner, task, l.report.value, |l.report.value|);
      PagePrimary(c, owner, task, l.report.value);
    } else {
      var effective := if IsDetail(kind, l) then DetailPage else MainImage;
      MainRowIds(c, owner, task, effective, l.images, |l.images|);
      ImagePrimary(c, owner, task, effective, l.images);
    }
  }

  lemma RowsAreOfTask(c: Config, user: Id, task: Id, kind: Kind, l: Local)
    ensures forall j :: 0 <= j < |ResultRows(c, user, task, kind, l)| ==> ResultRows(c, user, task, kind, l)[j].0.task == task
  {
    var rows := ResultRows(c, user, task, kind, l);
    MainRowIds(c, user, task, MainImage, l.images, |l.images|);
    MainRowIds(c, user, task, DetailPage, l.images, |l.images|);
    if kind == DetailPage && l.report.Some? {
      forall j | 0 <= j < |rows| ensures rows[j].0.task == task {
        PageRowMeaning(c, user, task, l.report.value, |l.report.value|, j);
      }
    }
  }

  /** A call leaves the rows, results and events of every other task alone. */
  lemma OtherTasksUntouched(c: Config, db: Db, op: Op, other: Id)
    requires op.task != other
    ensures var after := Apply(c, db, op);
      && Lookup(after.tasks, other) == Lookup(db.tasks, other)
      && (forall id: AssetId :: id.task == other ==> Lookup(after.assets, id) == Lookup(db.assets, id))
      && (forall id: ResultId :: id.task == other ==> Lookup(after.results, id) == Lookup(db.results, id))
      && (forall id: EventId :: id.task == other ==> Lookup(after.events, id) == Lookup(db.events, id))
  {
    if op.Sync? && op.local.Some? {
      var l := op.local.value;
      RowsAreOfTask(c, OwnerOf(c, db, op.task), op.task, EffectiveKind(op.taskKind, l), l);
      ResultsAreMirrored(c, db, op.task, op.taskKind, l, op.now);
    }
    if op.Create? {
      forall id: AssetId | id.task == other ensures Lookup(Apply(c, db, op).assets, id) == Lookup(db.assets, id) {
        AssetsAreStored(c, db, op.task, op.creation, op.now, id);
      }
    }
  }

  // ---------------------------------------------------------------- the service

  /** `TaskDbMirrorService` over the tables. */
  class TaskDbMirror {
    const config: Config
    var tasks: map<Id, TaskRow>
    var assets: map<AssetId, AssetRow>
    var results: map<ResultId, ResultRow>
    var events: map<EventId, EventRow>

    constructor (config: Config)
      ensures this.config == config && Current() == EmptyDb
    {
      this.config := config;
      tasks, assets, results, events := map[], map[], map[], map[];
    }

    ghost function Current(): Db
      reads this
    {
      Db(tasks, assets, results, events)
    }

    method UpsertEvent(id: EventId, row: EventRow)
      modifies this`events
      ensures events == old(events)[id := row]
    {
      events := events[id := row];
    }

    method UpsertResults(rows: seq<(ResultId, ResultRow)>)
      modifies this`results
      ensures results == MergeRows(old(results), rows, |rows|)
    {
      for n := 0 to |rows|
        invariant results == MergeRows(old(results), rows, n)
      {
        results := results[rows[n].0 := Merged(Lookup(results, rows[n].0), rows[n].1)];
      }
    }

    method UpsertAssets(task: Id, owner: Id, inputs: seq<AssetInput>)
      modifies this`assets
      ensures assets == StoredAssets(config, old(Current()), owner, task, inputs, |inputs|)
    {
      for n := 0 to |inputs|
        invariant assets == StoredAssets(config, old(Current()), owner, task, inputs, n)
      {
        assets := assets[AssetId(task, inputs[n].path) := AssetRowOf(config, results, owner, task, inputs[n])];
      }
    }

    method CreateTaskRecord(task: Id, x: Creation, now: Time)
      modifies this
      ensures Current() == CreatedRecord(config, old(Current()), task, x, now)
    {
      var owner := if x.user.Some? then x.user.value else config.compatUser;
      UpsertAssets(task, owner, x.assets);
      if task in tasks {
        var row := tasks[task];
        row := row.(user := owner, columns := CreatedColumns(x, row.columns.error), inputs := x.inputs);
        if row.queuedAt.None? {
          row := row.(queuedAt := Some(now));
        }
        tasks := tasks[task := row];
      } else {
        var createdAt := if x.createdAt.Some? then x.createdAt.value else now;
        tasks := tasks[task := TaskRow(owner, CreatedColumns(x, None), x.inputs, 0, createdAt, Some(now), None, None)];
      }
      UpsertEvent(EventKey(task, TaskCreated, Some("queued")), EventRow(owner, Info, Some("queued"), "stored", KindPayload(x.kind)));
      UpsertEvent(EventKey(task, TaskQueued, Some("queued")), EventRow(owner, Info, Some("queued"), "queued", ProgressPayload(0)));
    }

    method SyncRuntimeFromLocal(task: Id, kind: Option<Kind>, local: Option<Local>, now: Time)
      modifies this
      ensures Current() == Synced(config, old(Current()), task, kind, local, now)
    {
      if local.None? {
        return;
      }
      var l := local.value;
      var effective := EffectiveKind(kind, l);
      var owner := if task in tasks then tasks[task].user else config.compatUser;
      var rows := ResultRows(config, owner, task, effective, l);
      var columns := ColumnsOf(config, owner, task, effective, l);
      var row := if task in tasks then tasks[task].(columns := columns) else TaskRow(owner, columns, NoInputs, 0, now, None, None, None);
      if HasStarted(columns.status) && row.startedAt.None? {
        row := row.(startedAt := Some(CreationTime(l)));
      }
      if Terminal(columns.status) {
        row := row.(finishedAt := Some(FinishTime(l, now)));
      }
      tasks := tasks[task := row];
      UpsertResults(rows);
      UpsertEvent(StateKey(task, l), StateEvent(owner, l, |rows|));
      UpsertEvent(ResultsKey(task, l), ResultsEvent(owner, l, |rows|));
    }
  }
}
