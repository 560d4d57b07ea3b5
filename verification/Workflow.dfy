/**
 The workflow runner: nodes run in a fixed order; each start, in-node report, finish and failure
 writes the task manifest to disk and then calls the progress observer.

 Handlers are opaque: a handler is a function from the state it is given to the reports it publishes
 and the way it ends. The effects of a run, in order, are a sequence; each effect carries the index
 of the node it belongs to. The detail and the main-image workflow are the two instances.
 (`caption` stands for the source's `label`, a reserved word here.)
 */
module Workflow {
  import opened Sequences

  datatype Status = Created | Running | ReviewRequired | Completed | Failed

  datatype Task = Task(
    id: nat, status: Status, step: string, caption: string, progress: int, errorMessage: string)

  datatype Log = Log(node: string, event: string, detail: string)

  /** The keys of the shared state other than the task. */
  datatype Fields = Fields(
    step: string, caption: string, progress: int, errorMessage: string,
    logs: seq<Log>, data: map<string, nat>)

  datatype State = State(task: Task, fields: Fields)

  /** What a handler returns; a handler need not return a task or logs. */
  datatype Updates = Updates(task: Option<Task>, logs: Option<seq<Log>>, data: map<string, nat>)

  datatype Ending = Returned(updates: Updates) | Raised(message: string)

  datatype Report = Report(task: Option<Task>, fields: Fields)

  datatype Handled = Handled(reports: seq<Report>, ending: Ending)

  datatype Step = Step(name: string, base: int, caption: string)

  datatype Node = Node(step: Step, handler: State -> Handled)

  /** A workflow: its nodes and the user-facing message for a failing node and exception text. */
  datatype Workflow = Workflow(nodes: seq<Node>, describe: (string, string) -> string)

  datatype Effect =
    | Saved(node: nat, task: Task)                                // save_task_manifest
    | Published(node: nat, report: Report)                        // on_progress

  datatype Outcome =
    | Ended(state: State)
    | Aborted(node: nat, state: State)                            // the workflow execution error
    | Unsupported                                                 // an unknown stop_after

  // ---------------------------------------------------------------- task updates

  function StartedTask(step: Step, task: Task): Task {
    task.(status := Running, step := step.name, caption := step.caption, progress := step.base, errorMessage := "")
  }

  function FailedTask(started: Task, message: string): Task {
    started.(status := Failed, errorMessage := message)
  }

  function StartedState(step: Step, s: State): State {
    var task := StartedTask(step, s.task);
    State(task, s.fields.(
            step := task.step, caption := task.caption, progress := task.progress, errorMessage := "",
            logs := s.fields.logs + [Log(step.name, "start", "")]))
  }

  function FailedState(started: State, message: string, detail: string): State {
    var task := FailedTask(started.task, message);
    State(task, started.fields.(
            errorMessage := message, logs := started.fields.logs + [Log(task.step, "error", detail)]))
  }

  /** The state after a node: the old state overlaid with what the handler returned. A handler that
      returns no task leaves the task of the state before the node. */
  function FinishedState(step: Step, s: State, started: State, u: Updates): State {
    State(
      if u.task.Some? then u.task.value else s.task,
      Fields(
        started.task.step, started.task.caption, started.task.progress, "",
        (if u.logs.Some? then u.logs.value else started.fields.logs) + [Log(step.name, "finish", "")],
        s.fields.data + u.data))
  }

  /** The task written and shown when a node finishes. */
  function PersistedTask(started: State, u: Updates): Task {
    if u.task.Some? then u.task.value else started.task
  }

  const PlanOnlyStep := "detail_generate_prompt"

  function PlanOnlyState(s: State, caption: string): State {
    var task := s.task.(
      status := Completed, step := PlanOnlyStep, caption := caption, progress := 100, errorMessage := "");
    State(task, s.fields.(
            step := task.step, caption := task.caption, progress := 100, errorMessage := "",
            logs := s.fields.logs + [Log(PlanOnlyStep, "plan_only_completed", "")]))
  }

  // ---------------------------------------------------------------- traces

  type Trace = seq<Effect>

  function Save(t: Trace, node: nat, task: Task): Trace {
    t + [Saved(node, task)]
  }

  function Show(t: Trace, node: nat, observed: bool, r: Report): Trace {
    if observed then t + [Published(node, r)] else t
  }

  /** `_publish_progress` for each report of a handler; without an observer there is no callback. */
  function ShowReports(t: Trace, node: nat, observed: bool, reports: seq<Report>): Trace {
    if reports == [] || !observed then t else
      var before := ShowReports(t, node, observed, reports[..|reports| - 1]);
      var r := reports[|reports| - 1];
      Show(if r.task.Some? then Save(before, node, r.task.value) else before, node, observed, r)
  }

  function AsReport(s: State): Report {
    Report(Some(s.task), s.fields)
  }

  function RunNode(w: Workflow, k: nat, s: State, observed: bool, t: Trace): (Trace, Outcome)
    requires k < |w.nodes|
  {
    var step := w.nodes[k].step;
    var started := StartedState(step, s);
    var t1 := Show(Save(t, k, started.task), k, observed, AsReport(started));
    var handled := w.nodes[k].handler(started);
    var t2 := ShowReports(t1, k, observed, handled.reports);
    match handled.ending
    case Raised(detail) =>
      var failed := FailedState(started, w.describe(step.name, detail), detail);
      (Show(Save(t2, k, failed.task), k, observed, AsReport(failed)), Aborted(k, failed))
    case Returned(u) =>
      var finished := FinishedState(step, s, started, u);
      var persisted := PersistedTask(started, u);
      (Show(Save(t2, k, persisted), k, observed, Report(Some(persisted), finished.fields)), Ended(finished))
  }

  /** `stop_after`: the name of the node after which a plan-only run ends, and its caption. */
  datatype Stop = Stop(node: string, caption: string)

  function RunFrom(w: Workflow, k: nat, s: State, stop: Option<Stop>, observed: bool, t: Trace): (Trace, Outcome)
    requires k <= |w.nodes|
    decreases |w.nodes| - k
  {
    if k == |w.nodes| then (t, Ended(s)) else
      var (t1, outcome) := RunNode(w, k, s, observed, t);
      if !outcome.Ended? then (t1, outcome)
      else if stop.Some? && stop.value.node == w.nodes[k].step.name then
        var final := PlanOnlyState(outcome.state, stop.value.caption);
        (Show(Save(t1, |w.nodes|, final.task), |w.nodes|, observed, AsReport(final)), Ended(final))
      else RunFrom(w, k + 1, outcome.state, stop, observed, t1)
  }

  predicate HasNode(w: Workflow, name: string) {
    exists k :: 0 <= k < |w.nodes| && w.nodes[k].step.name == name
  }

  function RunWorkflow(w: Workflow, s: State, stop: Option<Stop>, observed: bool): (Trace, Outcome) {
    if stop.Some? && !HasNode(w, stop.value.node) then ([], Unsupported)
    else RunFrom(w, 0, s, stop, observed, [])
  }

  // ---------------------------------------------------------------- the manifest on disk

  function Manifest(t: Trace): Option<Task> {
    if t == [] then None
    else if t[|t| - 1].Saved? then Some(t[|t| - 1].task)
    else Manifest(t[..|t| - 1])
  }

  /** Whenever the observer is shown a task, that task is the manifest on disk. */
  ghost predicate Faithful(t: Trace) {
    forall i :: 0 <= i < |t| && t[i].Published? && t[i].report.task.Some? ==> Manifest(t[..i]) == t[i].report.task
  }

  lemma SaveIsFaithful(t: Trace, node: nat, task: Task)
    requires Faithful(t)
    ensures Faithful(Save(t, node, task)) && Manifest(Save(t, node, task)) == Some(task)
  {
    var u := Save(t, node, task);
    assert forall i :: 0 <= i < |t| ==> u[..i] == t[..i];
  }

  lemma ShowIsFaithful(t: Trace, node: nat, observed: bool, r: Report)
    requires Faithful(t) && (r.task.Some? ==> Manifest(t) == r.task)
    ensures Faithful(Show(t, node, observed, r)) && Manifest(Show(t, node, observed, r)) == Manifest(t)
  {
    var u := Show(t, node, observed, r);
    assert forall i :: 0 <= i < |t| ==> u[..i] == t[..i];
    assert u[..|t|] == t;
  }

  lemma {:induction false} ReportsAreFaithful(t: Trace, node: nat, observed: bool, reports: seq<Report>)
    requires Faithful(t)
    ensures Faithful(ShowReports(t, node, observed, reports))
  {
    if reports != [] && observed {
      var r := reports[|reports| - 1];
      ReportsAreFaithful(t, node, observed, reports[..|reports| - 1]);
      var before := ShowReports(t, node, observed, reports[..|reports| - 1]);
      if r.task.Some? {
        SaveIsFaithful(before, node, r.task.value);
        ShowIsFaithful(Save(before, node, r.task.value), node, observed, r);
      } else {
        ShowIsFaithful(before, node, observed, r);
      }
    }
  }

  lemma SaveAndShow(t: Trace, node: nat, observed: bool, task: Task, fields: Fields)
    requires Faithful(t)
    ensures var u := Show(Save(t, node, task), node, observed, Report(Some(task), fields));
      Faithful(u) && Manifest(u) == Some(task)
  {
    SaveIsFaithful(t, node, task);
    ShowIsFaithful(Save(t, node, task), node, observed, Report(Some(task), fields));
  }

  /** One node keeps the manifest faithful and leaves on disk the failed task, or the returned task,
      or else the task as the node started it. */
  lemma NodeIsFaithful(w: Workflow, k: nat, s: State, observed: bool, t: Trace)
    requires k < |w.nodes| && Faithful(t)
    ensures var (u, outcome) := RunNode(w, k, s, observed, t);
      && Faithful(u)
      && match w.nodes[k].handler(StartedState(w.nodes[k].step, s)).ending
         case Raised(_) => outcome.Aborted? && Manifest(u) == Some(outcome.state.task)
         case Returned(r) =>
           outcome.Ended? && Manifest(u) == Some(if r.task.Some? then outcome.state.task else StartedTask(w.nodes[k].step, s.task))
  {
    var started := StartedState(w.nodes[k].step, s);
    SaveAndShow(t, k, observed, started.task, started.fields);
    var t1 := Show(Save(t, k, started.task), k, observed, AsReport(started));
    var handled := w.nodes[k].handler(started);
    ReportsAreFaithful(t1, k, observed, handled.reports);
    var t2 := ShowReports(t1, k, observed, handled.reports);
    match handled.ending
    case Raised(detail) =>
      var failed := FailedState(started, w.describe(w.nodes[k].step.name, detail), detail);
      SaveAndShow(t2, k, observed, failed.task, failed.fields);
    case Returned(r) =>
      SaveAndShow(t2, k, observed, PersistedTask(started, r), FinishedState(w.nodes[k].step, s, started, r).fields);
  }

  lemma {:induction false} RunFromIsFaithful(w: Workflow, k: nat, s: State, stop: Option<Stop>, observed: bool, t: Trace)
    requires k <= |w.nodes| && Faithful(t)
    ensures Faithful(RunFrom(w, k, s, stop, observed, t).0)
    decreases |w.nodes| - k
  {
    if k < |w.nodes| {
      NodeIsFaithful(w, k, s, observed, t);
      var (t1, outcome) := RunNode(w, k, s, observed, t);
      if outcome.Ended? {
        if stop.Some? && stop.value.node == w.nodes[k].step.name {
          var final := PlanOnlyState(outcome.state, stop.value.caption);
          SaveAndShow(t1, |w.nodes|, observed, final.task, final.fields);
        } else {
          RunFromIsFaithful(w, k + 1, outcome.state, stop, observed, t1);
        }
      }
    }
  }

  /** For any handlers, in any run, each time the observer is shown a task the manifest on disk is
      that task. */
  lemma ManifestIsThePublishedTask(w: Workflow, s: State, stop: Option<Stop>, observed: bool, i: nat)
    requires var t := RunWorkflow(w, s, stop, observed).0;
      i < |t| && t[i].Published? && t[i].report.task.Some?
    ensures var t := RunWorkflow(w, s, stop, observed).0;
      Manifest(t[..i]) == t[i].report.task
  {
    RunFromIsFaithful(w, 0, s, stop, observed, []);
  }

  // ---------------------------------------------------------------- which nodes run, and how a run ends

  /** The nodes that left an effect. */
  ghost predicate Ran(t: Trace, k: nat) {
    exists i :: 0 <= i < |t| && t[i].node == k
  }

  /** The effects of a run are those of its nodes in order: node numbers never fall. */
  ghost predicate InNodeOrder(t: Trace) {
    forall i, j :: 0 <= i < j < |t| ==> t[i].node <= t[j].node
  }

  /** A node only appends effects of its own, the first of which is its start. */
  lemma NodeAppendsItsOwn(w: Workflow, k: nat, s: State, observed: bool, t: Trace)
    requires k < |w.nodes|
    ensures var u := RunNode(w, k, s, observed, t).0;
      t < u && u[|t|] == Saved(k, StartedTask(w.nodes[k].step, s.task))
      && forall i :: |t| <= i < |u| ==> u[i].node == k
  {
    var started := StartedState(w.nodes[k].step, s);
    var t1 := Show(Save(t, k, started.task), k, observed, AsReport(started));
    ReportsAppend(t1, k, observed, w.nodes[k].handler(started).reports);
  }

  lemma {:induction false} ReportsAppend(t: Trace, node: nat, observed: bool, reports: seq<Report>)
    ensures t <= ShowReports(t, node, observed, reports)
    ensures forall i :: |t| <= i < |ShowReports(t, node, observed, reports)| ==>
      ShowReports(t, node, observed, reports)[i].node == node
  {
    if reports != [] && observed {
      ReportsAppend(t, node, observed, reports[..|reports| - 1]);
    }
  }

  /** What a run from node `k` on appends: effects of nodes not before `k`, in node order. */
  ghost predicate Appends(k: nat, last: nat, t: Trace, u: Trace) {
    && t <= u
    && (forall i :: |t| <= i < |u| ==> k <= u[i].node <= last)
    && (forall i, j :: |t| <= i < j < |u| ==> u[i].node <= u[j].node)
  }

  lemma AppendsChain(k: nat, last: nat, t: Trace, t1: Trace, u: Trace)
    requires t <= t1 && (forall i :: |t| <= i < |t1| ==> t1[i].node == k) && k <= last
    requires Appends(k + 1, last, t1, u)
    ensures Appends(k, last, t, u)
  {
    assert forall i :: 0 <= i < |t1| ==> u[i] == t1[i];
  }

  /** The run goes on to the next node. */
  predicate GoesOn(w: Workflow, k: nat, stop: Option<Stop>, outcome: Outcome)
    requires k < |w.nodes|
  {
    outcome.Ended? && !(stop.Some? && stop.value.node == w.nodes[k].step.name)
  }

  /** A run that does not go on past node `k` appends that node's effects, and those of the early end. */
  lemma LastNodeAppends(w: Workflow, k: nat, s: State, stop: Option<Stop>, observed: bool, t: Trace)
    requires k < |w.nodes| && !GoesOn(w, k, stop, RunNode(w, k, s, observed, t).1)
    ensures Appends(k, |w.nodes|, t, RunFrom(w, k, s, stop, observed, t).0)
  {
    NodeAppendsItsOwn(w, k, s, observed, t);
  }

  lemma {:induction false} RunFromAppends(w: Workflow, k: nat, s: State, stop: Option<Stop>, observed: bool, t: Trace)
    requires k <= |w.nodes|
    ensures Appends(k, |w.nodes|, t, RunFrom(w, k, s, stop, observed, t).0)
    decreases |w.nodes| - k
  {
    if k < |w.nodes| {
      var (t1, outcome) := RunNode(w, k, s, observed, t);
      if GoesOn(w, k, stop, outcome) {
        NodeAppendsItsOwn(w, k, s, observed, t);
        RunFromAppends(w, k + 1, outcome.state, stop, observed, t1);
        AppendsChain(k, |w.nodes|, t, t1, RunFrom(w, k + 1, outcome.state, stop, observed, t1).0);
      } else {
        LastNodeAppends(w, k, s, stop, observed, t);
      }
    }
  }

  /** How a failed run ends. */
  ghost predicate FailedAt(w: Workflow, k: nat, t: Trace, u: Trace, node: nat, s: State) {
    && k <= node < |w.nodes|
    && |u| > |t| && u[|u| - 1].node == node
    && Manifest(u) == Some(s.task)
    && s.task.status == Failed && s.task.step == w.nodes[node].step.name && s.task.progress == w.nodes[node].step.base
    && (forall n :: k <= n <= node ==> Ran(u, n))
  }

  lemma NodeFails(w: Workflow, k: nat, s: State, observed: bool, t: Trace)
    requires k < |w.nodes| && Faithful(t) && RunNode(w, k, s, observed, t).1.Aborted?
    ensures var (u, outcome) := RunNode(w, k, s, observed, t);
      outcome.node == k && FailedAt(w, k, t, u, k, outcome.state)
  {
    NodeAppendsItsOwn(w, k, s, observed, t);
    NodeIsFaithful(w, k, s, observed, t);
    var (u, outcome) := RunNode(w, k, s, observed, t);
    assert u[|t|].node == k;
    assert Ran(u, k);
  }

  lemma FailedChain(w: Workflow, k: nat, t: Trace, t1: Trace, u: Trace, node: nat, s: State)
    requires FailedAt(w, k + 1, t1, u, node, s) && t < t1 <= u && t1[|t|].node == k
    ensures FailedAt(w, k, t, u, node, s)
  {
    assert u[|t|] == t1[|t|];
    assert Ran(u, k);
  }

  /** What is claimed of a run that starts at node `k` with the trace `t`. */
  ghost predicate EndsWell(w: Workflow, k: nat, t: Trace, u: Trace, outcome: Outcome) {
    !outcome.Unsupported? && (outcome.Aborted? ==> FailedAt(w, k, t, u, outcome.node, outcome.state))
  }

  lemma LastNodeEndsWell(w: Workflow, k: nat, s: State, stop: Option<Stop>, observed: bool, t: Trace)
    requires k < |w.nodes| && Faithful(t) && !GoesOn(w, k, stop, RunNode(w, k, s, observed, t).1)
    ensures EndsWell(w, k, t, RunFrom(w, k, s, stop, observed, t).0, RunFrom(w, k, s, stop, observed, t).1)
  {
    if RunNode(w, k, s, observed, t).1.Aborted? {
      NodeFails(w, k, s, observed, t);
    }
  }

  lemma {:induction false} RunFromFails(w: Workflow, k: nat, s: State, stop: Option<Stop>, observed: bool, t: Trace)
    requires k <= |w.nodes| && Faithful(t)
    ensures EndsWell(w, k, t, RunFrom(w, k, s, stop, observed, t).0, RunFrom(w, k, s, stop, observed, t).1)
    decreases |w.nodes| - k
  {
    if k < |w.nodes| {
      var (t1, outcome) := RunNode(w, k, s, observed, t);
      if GoesOn(w, k, stop, outcome) {
        NodeAppendsItsOwn(w, k, s, observed, t);
        NodeIsFaithful(w, k, s, observed, t);
        RunFromFails(w, k + 1, outcome.state, stop, observed, t1);
        RunFromAppends(w, k + 1, outcome.state, stop, observed, t1);
        var (u, last) := RunFrom(w, k + 1, outcome.state, stop, observed, t1);
        if last.Aborted? {
          FailedChain(w, k, t, t1, u, last.node, last.state);
        }
      } else {
        LastNodeEndsWell(w, k, s, stop, observed, t);
      }
    }
  }

  /** When a node fails, exactly the nodes up to it have run, the last effect is its own, and the
      manifest left on disk is FAILED at that node, with the node's base progress. */
  lemma FailureIsTheLastWord(w: Workflow, s: State, stop: Option<Stop>, observed: bool)
    requires RunWorkflow(w, s, stop, observed).1.Aborted?
    ensures var (t, outcome) := RunWorkflow(w, s, stop, observed);
      && outcome.node < |w.nodes|
      && InNodeOrder(t)
      && (forall n: nat :: Ran(t, n) <==> n <= outcome.node)
      && Manifest(t) == Some(outcome.state.task)
      && outcome.state.task.status == Failed
      && outcome.state.task.step == w.nodes[outcome.node].step.name
      && outcome.state.task.progress == w.nodes[outcome.node].step.base
  {
    RunFromFails(w, 0, s, stop, observed, []);
    RunFromAppends(w, 0, s, stop, observed, []);
    var (t, outcome) := RunWorkflow(w, s, stop, observed);
    forall n: nat | Ran(t, n) ensures n <= outcome.node {
      var i :| 0 <= i < |t| && t[i].node == n;
      assert i < |t| - 1 ==> t[i].node <= t[|t| - 1].node;
    }
  }

  /** A node from `k` on that left an effect comes after an effect of each node between. */
  ghost predicate NoGaps(w: Workflow, k: nat, t: Trace, u: Trace) {
    forall i, n {:trigger u[i], Ran(u, n)} ::
      |t| <= i < |u| && u[i].node < |w.nodes| && k <= n <= u[i].node ==> Ran(u, n)
  }

  lemma NoGapsChain(w: Workflow, k: nat, t: Trace, t1: Trace, u: Trace)
    requires t < t1 <= u && (forall i :: |t| <= i < |t1| ==> t1[i].node == k)
    requires NoGaps(w, k + 1, t1, u)
    ensures NoGaps(w, k, t, u) && Ran(u, k)
  {
    assert u[|t|] == t1[|t|];
    assert Ran(u, k);
    assert forall i :: |t| <= i < |t1| ==> u[i] == t1[i];
  }

  lemma {:induction false} RunFromHasNoGaps(w: Workflow, k: nat, s: State, stop: Option<Stop>, observed: bool, t: Trace)
    requires k <= |w.nodes|
    ensures var (u, outcome) := RunFrom(w, k, s, stop, observed, t);
      NoGaps(w, k, t, u) && (outcome.Ended? && stop.None? ==> forall n :: k <= n < |w.nodes| ==> Ran(u, n))
    decreases |w.nodes| - k
  {
    if k < |w.nodes| {
      NodeAppendsItsOwn(w, k, s, observed, t);
      var (t1, outcome) := RunNode(w, k, s, observed, t);
      var u := RunFrom(w, k, s, stop, observed, t).0;
      if outcome.Ended? && !(stop.Some? && stop.value.node == w.nodes[k].step.name) {
        RunFromHasNoGaps(w, k + 1, outcome.state, stop, observed, t1);
        RunFromAppends(w, k + 1, outcome.state, stop, observed, t1);
      }
      NoGapsChain(w, k, t, t1, u);
    }
  }

  /** In every run the nodes that ran are a prefix of the sequence: whenever a node ran, so did every
      earlier one; and all of them ran when the run ends without a stop. */
  lemma NodesRunAreAPrefix(w: Workflow, s: State, stop: Option<Stop>, observed: bool)
    ensures var (t, outcome) := RunWorkflow(w, s, stop, observed);
      && (forall m: nat, n: nat :: m <= n < |w.nodes| && Ran(t, n) ==> Ran(t, m))
      && (outcome.Ended? && stop.None? ==> forall n: nat :: n < |w.nodes| ==> Ran(t, n))
  {
    var t := RunWorkflow(w, s, stop, observed).0;
    RunFromHasNoGaps(w, 0, s, stop, observed, []);
    forall m: nat, n: nat | m <= n < |w.nodes| && Ran(t, n) ensures Ran(t, m) {
      var i :| 0 <= i < |t| && t[i].node == n;
    }
  }

  lemma {:induction false} RunFromStops(w: Workflow, k: nat, s: State, stop: Stop, observed: bool, t: Trace)
    requires k < |w.nodes| && Faithful(t)
    requires exists n :: k <= n < |w.nodes| && w.nodes[n].step.name == stop.node
    ensures var (u, outcome) := RunFrom(w, k, s, Some(stop), observed, t);
      outcome.Ended? ==>
        && Manifest(u) == Some(outcome.state.task)
        && outcome.state.task.status == Completed && outcome.state.task.progress == 100
        && outcome.state.task.step == PlanOnlyStep && outcome.state.fields.progress == 100
    decreases |w.nodes| - k
  {
    NodeIsFaithful(w, k, s, observed, t);
    var (t1, outcome) := RunNode(w, k, s, observed, t);
    if outcome.Ended? {
      if stop.node == w.nodes[k].step.name {
        var final := PlanOnlyState(outcome.state, stop.caption);
        SaveAndShow(t1, |w.nodes|, observed, final.task, final.fields);
      } else {
        RunFromStops(w, k + 1, outcome.state, stop, observed, t1);
      }
    }
  }

  /** A run asked to stop after a node either fails, or ends COMPLETED at 100 percent on disk and in the
      returned state, reporting the prompt step whichever node it stopped after; an unknown node is
      refused before anything is written. */
  lemma StoppedRunCompletes(w: Workflow, s: State, stop: Stop, observed: bool)
    ensures var (t, outcome) := RunWorkflow(w, s, Some(stop), observed);
      && (outcome.Unsupported? <==> !HasNode(w, stop.node))
      && (outcome.Unsupported? ==> t == [])
      && (outcome.Ended? ==>
            && Manifest(t) == Some(outcome.state.task)
            && outcome.state.task.status == Completed && outcome.state.task.progress == 100
            && outcome.state.task.step == PlanOnlyStep && outcome.state.fields.progress == 100)
  {
    if HasNode(w, stop.node) {
      RunFromStops(w, 0, s, stop, observed, []);
      RunFromFails(w, 0, s, Some(stop), observed, []);
    }
  }

  /** After a finished node the task in the returned state is the one on disk exactly when the handler
      returned a task, or the start of the node changed nothing in it. */
  lemma StateFollowsDiskIff(w: Workflow, k: nat, s: State, observed: bool, t: Trace)
    requires k < |w.nodes| && Faithful(t) && RunNode(w, k, s, observed, t).1.Ended?
    ensures var (u, outcome) := RunNode(w, k, s, observed, t);
      Manifest(u) == Some(outcome.state.task)
      <==> w.nodes[k].handler(StartedState(w.nodes[k].step, s)).ending.updates.task.Some?
           || StartedTask(w.nodes[k].step, s.task) == s.task
  {
    NodeIsFaithful(w, k, s, observed, t);
  }

  /** An input: a node whose handler returns no task. The disk says RUNNING at that node, the returned state
      still carries the task as it was created. */
  lemma SilentHandlerLeavesStateBehind(fields: Fields, observed: bool)
    ensures var silent := Node(Step("ingest_assets", 10, "ingest"), (s: State) => Handled([], Returned(Updates(None, None, map[]))));
      var w := Workflow([silent], (node, detail) => detail);
      var created := Task(1, Created, "", "", 0, "");
      var (u, outcome) := RunNode(w, 0, State(created, fields), observed, []);
      && outcome.Ended? && outcome.state.task == created
      && Manifest(u) == Some(Task(1, Running, "ingest_assets", "ingest", 10, ""))
  {
    var silent := Node(Step("ingest_assets", 10, "ingest"), (s: State) => Handled([], Returned(Updates(None, None, map[]))));
    var w := Workflow([silent], (node, detail) => detail);
    NodeIsFaithful(w, 0, State(Task(1, Created, "", "", 0, ""), fields), observed, []);
  }

  // ---------------------------------------------------------------- what nodes hand to each other

  /** The state that node `k` takes over, when every node before it ended. */
  function Reached(w: Workflow, s: State, k: nat): Option<State>
    requires k <= |w.nodes|
  {
    if k == 0 then Some(s) else
      var before := Reached(w, s, k - 1);
      if before.None? then None else
        match RunNode(w, k - 1, before.value, false, []).1
        case Ended(after) => Some(after)
        case _ => None
  }

  /** The state that the handler of node `k` is given. */
  function Given(w: Workflow, s: State, k: nat): State
    requires k < |w.nodes| && Reached(w, s, k).Some?
  {
    StartedState(w.nodes[k].step, Reached(w, s, k).value)
  }

  /** What the handlers of the first `k` nodes returned, in order. */
  function AllReturned(w: Workflow, s: State, k: nat): (r: seq<Updates>)
    requires k <= |w.nodes| && Reached(w, s, k).Some?
    ensures |r| == k
  {
    if k == 0 then [] else
      AllReturned(w, s, k - 1) + [w.nodes[k - 1].handler(Given(w, s, k - 1)).ending.updates]
  }

  /** What was returned last under a key, or else what was there at first. */
  function LastData(returned: seq<Updates>, key: string, first: map<string, nat>): Option<nat> {
    if returned == [] then (if key in first then Some(first[key]) else None) else
      var last := returned[|returned| - 1].data;
      if key in last then Some(last[key]) else LastData(returned[..|returned| - 1], key, first)
  }

  /** The task that was returned last, or else the first one. */
  function LastTask(returned: seq<Updates>, first: Task): Task {
    if returned == [] then first else
      var last := returned[|returned| - 1].task;
      if last.Some? then last.value else LastTask(returned[..|returned| - 1], first)
  }

  /** The logs: those returned last, or else the first ones, and the lines of the runner since. */
  function LastLogs(nodes: seq<Node>, returned: seq<Updates>, first: seq<Log>): seq<Log>
    requires |returned| <= |nodes|
  {
    if returned == [] then first else
      var n := |returned| - 1;
      var name, last := nodes[n].step.name, returned[n].logs;
      if last.Some? then last.value + [Log(name, "finish", "")]
      else LastLogs(nodes, returned[..n], first) + [Log(name, "start", ""), Log(name, "finish", "")]
  }

  /** `LastData` by position: the last returned updates with the key count. */
  lemma {:induction false} LastDataMeaning(returned: seq<Updates>, key: string, first: map<string, nat>, i: nat)
    requires i <= |returned| && forall j :: i <= j < |returned| ==> key !in returned[j].data
    ensures i == 0 ==> LastData(returned, key, first) == if key in first then Some(first[key]) else None
    ensures i > 0 && key in returned[i - 1].data ==> LastData(returned, key, first) == Some(returned[i - 1].data[key])
  {
    if i < |returned| {
      LastDataMeaning(returned[..|returned| - 1], key, first, i);
    }
  }

  /** Under each key these data hold what was returned last, or else what was there at first. */
  ghost predicate HandedOn(returned: seq<Updates>, first: map<string, nat>, data: map<string, nat>) {
    forall key :: (if key in data then Some(data[key]) else None) == LastData(returned, key, first)
  }

  /** The progress fields beside a task say what it says. */
  ghost predicate Beside(f: Fields, step: string, caption: string, progress: int, errorMessage: string) {
    f.step == step && f.caption == caption && f.progress == progress && f.errorMessage == errorMessage
  }

  lemma DataOverlaid(returned: seq<Updates>, u: Updates, first: map<string, nat>, before: map<string, nat>)
    requires HandedOn(returned, first, before)
    ensures HandedOn(returned + [u], first, before + u.data)
  {
    assert (returned + [u])[..|returned|] == returned;
  }

  /** What a node takes over. */
  ghost predicate TakesOver(w: Workflow, s: State, returned: seq<Updates>, t: State)
    requires |returned| <= |w.nodes|
  {
    && HandedOn(returned, s.fields.data, t.fields.data)
    && t.task == LastTask(returned, s.task)
    && t.fields.logs == LastLogs(w.nodes, returned, s.fields.logs)
    && (returned != [] ==>
          var step := w.nodes[|returned| - 1].step;
          Beside(t.fields, step.name, step.caption, step.base, ""))
  }

  lemma PassedNode(w: Workflow, s: State, before: State, returned: seq<Updates>, u: Updates)
    requires |returned| < |w.nodes| && TakesOver(w, s, returned, before)
    ensures var step := w.nodes[|returned|].step;
      TakesOver(w, s, returned + [u], FinishedState(step, before, StartedState(step, before), u))
  {
    var step := w.nodes[|returned|].step;
    DataOverlaid(returned, u, s.fields.data, before.fields.data);
    assert (returned + [u])[..|returned|] == returned;
    assert before.fields.logs + [Log(step.name, "start", "")] + [Log(step.name, "finish", "")]
        == before.fields.logs + [Log(step.name, "start", ""), Log(step.name, "finish", "")];
  }

  lemma ReachedNext(w: Workflow, s: State, k: nat)
    requires k < |w.nodes| && Reached(w, s, k + 1).Some?
    ensures Reached(w, s, k).Some? && w.nodes[k].handler(Given(w, s, k)).ending.Returned?
    ensures var u := w.nodes[k].handler(Given(w, s, k)).ending.updates;
      && Reached(w, s, k + 1).value == FinishedState(w.nodes[k].step, Reached(w, s, k).value, Given(w, s, k), u)
      && AllReturned(w, s, k + 1) == AllReturned(w, s, k) + [u]
  {
  }

  lemma FirstNodeTakesOver(w: Workflow, s: State)
    ensures TakesOver(w, s, [], s)
  {
  }

  lemma NextNodeTakesOver(w: Workflow, s: State, k: nat)
    requires k < |w.nodes| && Reached(w, s, k + 1).Some? && Reached(w, s, k).Some?
    requires TakesOver(w, s, AllReturned(w, s, k), Reached(w, s, k).value)
    ensures TakesOver(w, s, AllReturned(w, s, k + 1), Reached(w, s, k + 1).value)
  {
    ReachedNext(w, s, k);
    PassedNode(w, s, Reached(w, s, k).value, AllReturned(w, s, k), w.nodes[k].handler(Given(w, s, k)).ending.updates);
  }

  /** Every node takes over the data, the task and the logs that its predecessors returned. */
  lemma {:induction false} NodeTakesOver(w: Workflow, s: State, k: nat)
    requires k <= |w.nodes| && Reached(w, s, k).Some?
    ensures TakesOver(w, s, AllReturned(w, s, k), Reached(w, s, k).value)
  {
    if k > 0 {
      NodeTakesOver(w, s, k - 1);
      NextNodeTakesOver(w, s, k - 1);
    } else {
      FirstNodeTakesOver(w, s);
    }
  }

  /** So is what its handler is given: those data, that task set to RUNNING at this node, and those logs with
      one more line. */
  lemma HandlerIsGiven(w: Workflow, s: State, k: nat)
    requires k < |w.nodes| && Reached(w, s, k).Some?
    ensures var given, step, returned := Given(w, s, k), w.nodes[k].step, AllReturned(w, s, k);
      && HandedOn(returned, s.fields.data, given.fields.data)
      && given.task == Task(LastTask(returned, s.task).id, Running, step.name, step.caption, step.base, "")
      && given.fields.logs == LastLogs(w.nodes, returned, s.fields.logs) + [Log(step.name, "start", "")]
      && Beside(given.fields, step.name, step.caption, step.base, "")
  {
    NodeTakesOver(w, s, k);
  }

  // ---------------------------------------------------------------- what is written and shown

  /** What the observer was shown, in order. */
  function Publications(t: Trace): seq<Report> {
    if t == [] then [] else
      var before, last := Publications(t[..|t| - 1]), t[|t| - 1];
      if last.Published? then before + [last.report] else before
  }

  /** The manifests written, in order. */
  function Manifests(t: Trace): seq<Task> {
    if t == [] then [] else
      var before, last := Manifests(t[..|t| - 1]), t[|t| - 1];
      if last.Saved? then before + [last.task] else before
  }

  /** The tasks of those reports that carry one. */
  function TasksOf(reports: seq<Report>): seq<Task> {
    if reports == [] then [] else
      var before, last := TasksOf(reports[..|reports| - 1]), reports[|reports| - 1];
      if last.task.Some? then before + [last.task.value] else before
  }

  lemma SaveWrites(t: Trace, node: nat, task: Task)
    ensures Publications(Save(t, node, task)) == Publications(t) && Manifests(Save(t, node, task)) == Manifests(t) + [task]
  {
    assert Save(t, node, task)[..|t|] == t;
  }

  lemma ShowPublishes(t: Trace, node: nat, observed: bool, r: Report)
    ensures Publications(Show(t, node, observed, r)) == if observed then Publications(t) + [r] else Publications(t)
    ensures Manifests(Show(t, node, observed, r)) == Manifests(t)
  {
    assert (t + [Published(node, r)])[..|t|] == t;
  }

  lemma {:induction false} ReportsAreShown(t: Trace, node: nat, observed: bool, reports: seq<Report>)
    ensures var u := ShowReports(t, node, observed, reports);
      && Publications(u) == (if observed then Publications(t) + reports else Publications(t))
      && Manifests(u) == (if observed then Manifests(t) + TasksOf(reports) else Manifests(t))
  {
    if reports != [] && observed {
      var rest, r := reports[..|reports| - 1], reports[|reports| - 1];
      ReportsAreShown(t, node, observed, rest);
      var before := ShowReports(t, node, observed, rest);
      if r.task.Some? {
        SaveWrites(before, node, r.task.value);
        ShowPublishes(Save(before, node, r.task.value), node, observed, r);
        Associative(Manifests(t), TasksOf(rest), [r.task.value]);
      } else {
        ShowPublishes(before, node, observed, r);
      }
      assert reports == rest + [r];
      Associative(Publications(t), rest, [r]);
    }
  }

  lemma SavedAndShown(t: Trace, node: nat, observed: bool, task: Task, fields: Fields)
    ensures var u := Show(Save(t, node, task), node, observed, Report(Some(task), fields));
      && Publications(u) == (if observed then Publications(t) + [Report(Some(task), fields)] else Publications(t))
      && Manifests(u) == Manifests(t) + [task]
  {
    SaveWrites(t, node, task);
    ShowPublishes(Save(t, node, task), node, observed, Report(Some(task), fields));
  }

  /** The task that a node leaves on disk: the failed one, or the one its handler returned, or else the one that
      its handler was given. */
  function LeftOnDisk(given: State, ending: Ending, outcome: Outcome): Task
    requires outcome.Ended? || outcome.Aborted?
  {
    match ending
    case Raised(_) => outcome.state.task
    case Returned(u) => if u.task.Some? then u.task.value else given.task
  }

  lemma NodeTrace(w: Workflow, k: nat, s: State, observed: bool, t: Trace)
    requires k < |w.nodes|
    ensures var (u, outcome) := RunNode(w, k, s, observed, t);
      var given := StartedState(w.nodes[k].step, s);
      var handled := w.nodes[k].handler(given);
      && !outcome.Unsupported?
      && var t1 := Show(Save(t, k, given.task), k, observed, Report(Some(given.task), given.fields));
         var t2 := ShowReports(t1, k, observed, handled.reports);
         var left := LeftOnDisk(given, handled.ending, outcome);
         u == Show(Save(t2, k, left), k, observed, Report(Some(left), outcome.state.fields))
  {
  }

  ghost predicate WritesAndShows(t: Trace, u: Trace, observed: bool, given: State, reports: seq<Report>, left: Task, fields: Fields) {
    if observed then
      && Manifests(u) == Manifests(t) + [given.task] + TasksOf(reports) + [left]
      && Publications(u) == Publications(t) + [Report(Some(given.task), given.fields)] + reports + [Report(Some(left), fields)]
    else
      Manifests(u) == Manifests(t) + [given.task] + [left] && Publications(u) == Publications(t)
  }

  lemma EffectsWriteAndShow(
    t: Trace, k: nat, observed: bool, given: State, reports: seq<Report>, left: Task, fields: Fields)
    ensures var t1 := Show(Save(t, k, given.task), k, observed, Report(Some(given.task), given.fields));
      var t2 := ShowReports(t1, k, observed, reports);
      WritesAndShows(t, Show(Save(t2, k, left), k, observed, Report(Some(left), fields)), observed, given, reports, left, fields)
  {
    var t1 := Show(Save(t, k, given.task), k, observed, Report(Some(given.task), given.fields));
    SavedAndShown(t, k, observed, given.task, given.fields);
    ReportsAreShown(t1, k, observed, reports);
    SavedAndShown(ShowReports(t1, k, observed, reports), k, observed, left, fields);
  }

  /** A node writes the task that its handler is given, then the tasks its handler reports, if anybody observes,
      then the one it leaves; an observer is shown the state given, every report and the final state, in
      this order, and without an observer nothing is shown. */
  lemma NodeWritesAndShows(w: Workflow, k: nat, s: State, observed: bool, t: Trace)
    requires k < |w.nodes|
    ensures var (u, outcome) := RunNode(w, k, s, observed, t);
      var given := StartedState(w.nodes[k].step, s);
      var handled := w.nodes[k].handler(given);
      && !outcome.Unsupported?
      && WritesAndShows(t, u, observed, given, handled.reports, LeftOnDisk(given, handled.ending, outcome), outcome.state.fields)
  {
    var given := StartedState(w.nodes[k].step, s);
    var handled := w.nodes[k].handler(given);
    var outcome := RunNode(w, k, s, observed, t).1;
    NodeTrace(w, k, s, observed, t);
    EffectsWriteAndShow(t, k, observed, given, handled.reports, LeftOnDisk(given, handled.ending, outcome), outcome.state.fields);
  }

  /** How a run that goes on from node `k` ends, in terms of the states the nodes reached. */
  ghost predicate EndsReached(w: Workflow, s: State, stop: Option<Stop>, outcome: Outcome) {
    match outcome
    case Ended(state) =>
      if stop.None? then Reached(w, s, |w.nodes|) == Some(state)
      else exists n :: StopsAfter(w, s, stop.value, n, state)
    case Aborted(node, state) => FailsAt(w, s, node, state)
    case Unsupported => false
  }

  ghost predicate StopsAfter(w: Workflow, s: State, stop: Stop, n: int, state: State) {
    && 0 < n <= |w.nodes| && w.nodes[n - 1].step.name == stop.node && Reached(w, s, n).Some?
    && state == PlanOnlyState(Reached(w, s, n).value, stop.caption)
  }

  ghost predicate FailsAt(w: Workflow, s: State, node: nat, state: State) {
    && node < |w.nodes| && Reached(w, s, node).Some?
    && var ending := w.nodes[node].handler(Given(w, s, node)).ending;
       ending.Raised? && state == FailedState(Given(w, s, node), w.describe(w.nodes[node].step.name, ending.message), ending.message)
  }

  /** An outcome depends neither on the effects so far nor on whether anybody observes. */
  lemma OutcomeIsOfState(w: Workflow, k: nat, s: State, observed: bool, t: Trace)
    requires k < |w.nodes|
    ensures RunNode(w, k, s, observed, t).1 == RunNode(w, k, s, false, []).1
  {
  }

  /** The node after which to stop is still to come. */
  ghost predicate StopAhead(w: Workflow, k: nat, stop: Option<Stop>) {
    stop.Some? ==> exists n :: k <= n < |w.nodes| && w.nodes[n].step.name == stop.value.node
  }

  lemma RunGoesOn(w: Workflow, s: State, k: nat, stop: Option<Stop>, observed: bool, t: Trace)
    requires k < |w.nodes| && Reached(w, s, k).Some? && StopAhead(w, k, stop)
    requires GoesOn(w, k, stop, RunNode(w, k, Reached(w, s, k).value, observed, t).1)
    ensures Reached(w, s, k + 1).Some? && StopAhead(w, k + 1, stop)
    ensures RunFrom(w, k, Reached(w, s, k).value, stop, observed, t)
      == RunFrom(w, k + 1, Reached(w, s, k + 1).value, stop, observed, RunNode(w, k, Reached(w, s, k).value, observed, t).0)
  {
    OutcomeIsOfState(w, k, Reached(w, s, k).value, observed, t);
  }

  lemma {:induction false} RunFromReaches(
    w: Workflow, s: State, k: nat, stop: Option<Stop>, observed: bool, t: Trace)
    requires k <= |w.nodes| && Reached(w, s, k).Some? && StopAhead(w, k, stop)
    ensures EndsReached(w, s, stop, RunFrom(w, k, Reached(w, s, k).value, stop, observed, t).1)
    decreases |w.nodes| - k
  {
    if k < |w.nodes| {
      var (t1, outcome) := RunNode(w, k, Reached(w, s, k).value, observed, t);
      if GoesOn(w, k, stop, outcome) {
        RunGoesOn(w, s, k, stop, observed, t);
        RunFromReaches(w, s, k + 1, stop, observed, t1);
      } else {
        LastNodeReaches(w, s, k, stop, observed, t);
      }
    }
  }

  lemma LastNodeReaches(w: Workflow, s: State, k: nat, stop: Option<Stop>, observed: bool, t: Trace)
    requires k < |w.nodes| && Reached(w, s, k).Some?
    requires !GoesOn(w, k, stop, RunNode(w, k, Reached(w, s, k).value, observed, t).1)
    ensures EndsReached(w, s, stop, RunFrom(w, k, Reached(w, s, k).value, stop, observed, t).1)
  {
    var before := Reached(w, s, k).value;
    OutcomeIsOfState(w, k, before, observed, t);
    var outcome := RunNode(w, k, before, observed, t).1;
    if outcome.Ended? {
      assert Reached(w, s, k + 1) == Some(outcome.state);
      assert StopsAfter(w, s, stop.value, k + 1, PlanOnlyState(outcome.state, stop.value.caption));
    }
  }

  /** A run without a stop that ends hands out what the nodes have handed on; one that is stopped hands out the
      same as COMPLETED at 100; one that fails, the same with the task FAILED at the node that raised, and the
      message for the user. */
  lemma RunHandsOn(w: Workflow, s: State, stop: Option<Stop>, observed: bool)
    ensures var outcome := RunWorkflow(w, s, stop, observed).1;
      match outcome
      case Ended(state) =>
        exists n :: EndsAfter(w, s, stop, n, state)
      case Aborted(node, state) => FailsHandingOn(w, s, node, state)
      case Unsupported => stop.Some? && !HasNode(w, stop.value.node)
  {
    if stop.None? || HasNode(w, stop.value.node) {
      assert StopAhead(w, 0, stop);
      RunFromReaches(w, s, 0, stop, observed, []);
      var outcome := RunWorkflow(w, s, stop, observed).1;
      if outcome.Ended? {
        var n := if stop.None? then |w.nodes| else var n :| StopsAfter(w, s, stop.value, n, outcome.state); n;
        NodeTakesOver(w, s, n);
        assert EndsAfter(w, s, stop, n, outcome.state);
      } else {
        HandlerIsGiven(w, s, outcome.node);
      }
    }
  }

  /** The final state of a run that failed at this node. */
  ghost predicate FailsHandingOn(w: Workflow, s: State, node: nat, state: State) {
    && node < |w.nodes| && Reached(w, s, node).Some? && w.nodes[node].handler(Given(w, s, node)).ending.Raised?
    && var returned, step := AllReturned(w, s, node), w.nodes[node].step;
       var detail := w.nodes[node].handler(Given(w, s, node)).ending.message;
       var message := w.describe(step.name, detail);
    && HandedOn(returned, s.fields.data, state.fields.data)
    && state.task == Task(LastTask(returned, s.task).id, Failed, step.name, step.caption, step.base, message)
    && state.fields.logs
       == LastLogs(w.nodes, returned, s.fields.logs) + [Log(step.name, "start", "")] + [Log(step.name, "error", detail)]
    && Beside(state.fields, step.name, step.caption, step.base, message)
  }

  /** The final state of a run that ended after `n` nodes. */
  ghost predicate EndsAfter(w: Workflow, s: State, stop: Option<Stop>, n: int, state: State) {
    && 0 <= n <= |w.nodes| && Reached(w, s, n).Some?
    && var returned := AllReturned(w, s, n);
    && HandedOn(returned, s.fields.data, state.fields.data)
    && if stop.None? then n == |w.nodes| && TakesOver(w, s, returned, state)
       else
         && n > 0 && w.nodes[n - 1].step.name == stop.value.node
         && state.task == Task(LastTask(returned, s.task).id, Completed, PlanOnlyStep, stop.value.caption, 100, "")
         && state.fields.logs == LastLogs(w.nodes, returned, s.fields.logs) + [Log(PlanOnlyStep, "plan_only_completed", "")]
         && Beside(state.fields, PlanOnlyStep, stop.value.caption, 100, "")
  }

  // ---------------------------------------------------------------- progress bands

  /** Progress from a node's base up to, not including, the base of the next node; the base itself is
      always allowed. */
  predicate InBand(w: Workflow, k: nat, progress: int)
    requires k < |w.nodes|
  {
    w.nodes[k].step.base <= progress
    && (progress == w.nodes[k].step.base || (k + 1 < |w.nodes| && progress < w.nodes[k + 1].step.base))
  }

  /** A handler that publishes and returns only tasks inside the band of its node. */
  ghost predicate StaysInBand(w: Workflow, k: nat)
    requires k < |w.nodes|
  {
    forall s: State ::
      var handled := w.nodes[k].handler(s);
      && (forall i :: 0 <= i < |handled.reports| && handled.reports[i].task.Some? ==>
            InBand(w, k, handled.reports[i].task.value.progress))
      && (handled.ending.Returned? && handled.ending.updates.task.Some? ==>
            InBand(w, k, handled.ending.updates.task.value.progress))
  }

  ghost predicate AllInBand(w: Workflow, t: Trace) {
    forall i :: 0 <= i < |t| && t[i].Saved? && t[i].node < |w.nodes| ==> InBand(w, t[i].node, t[i].task.progress)
  }

  lemma {:induction false} ReportsStayInBand(w: Workflow, k: nat, observed: bool, t: Trace, reports: seq<Report>)
    requires k < |w.nodes| && AllInBand(w, t)
    requires forall i :: 0 <= i < |reports| && reports[i].task.Some? ==> InBand(w, k, reports[i].task.value.progress)
    ensures AllInBand(w, ShowReports(t, k, observed, reports))
  {
    if reports != [] && observed {
      ReportsStayInBand(w, k, observed, t, reports[..|reports| - 1]);
    }
  }

  lemma NodeStaysInBand(w: Workflow, k: nat, s: State, observed: bool, t: Trace)
    requires k < |w.nodes| && StaysInBand(w, k) && AllInBand(w, t)
    ensures AllInBand(w, RunNode(w, k, s, observed, t).0)
  {
    var started := StartedState(w.nodes[k].step, s);
    var t1 := Show(Save(t, k, started.task), k, observed, AsReport(started));
    ReportsStayInBand(w, k, observed, t1, w.nodes[k].handler(started).reports);
  }

  lemma {:induction false} RunStaysInBand(w: Workflow, k: nat, s: State, stop: Option<Stop>, observed: bool, t: Trace)
    requires k <= |w.nodes| && AllInBand(w, t)
    requires forall n :: k <= n < |w.nodes| ==> StaysInBand(w, n)
    ensures AllInBand(w, RunFrom(w, k, s, stop, observed, t).0)
    decreases |w.nodes| - k
  {
    if k < |w.nodes| {
      NodeStaysInBand(w, k, s, observed, t);
      var (t1, outcome) := RunNode(w, k, s, observed, t);
      if outcome.Ended? && !(stop.Some? && stop.value.node == w.nodes[k].step.name) {
        RunStaysInBand(w, k + 1, outcome.state, stop, observed, t1);
      }
    }
  }

  ghost predicate BasesRise(w: Workflow) {
    forall i, j :: 0 <= i < j < |w.nodes| ==> w.nodes[i].step.base < w.nodes[j].step.base
  }

  /** The bands of any two nodes are disjoint exactly when the bases rise strictly. */
  lemma BandsDisjointIffBasesRise(w: Workflow)
    requires forall i, j :: 0 <= i < j < |w.nodes| ==> w.nodes[i].step.base <= w.nodes[j].step.base
    ensures BasesRise(w) <==>
      forall i, j, p :: 0 <= i < j < |w.nodes| ==> !(InBand(w, i, p) && InBand(w, j, p))
  {
    if !BasesRise(w) {
      var i, j :| 0 <= i < j < |w.nodes| && w.nodes[i].step.base == w.nodes[j].step.base;
      assert InBand(w, i, w.nodes[i].step.base) && InBand(w, j, w.nodes[i].step.base);
    } else {
      forall i, j, p | 0 <= i < j < |w.nodes| && InBand(w, i, p) ensures p < w.nodes[j].step.base {
        assert i + 1 == j || w.nodes[i + 1].step.base < w.nodes[j].step.base;
      }
    }
  }

  /** With rising bases and handlers that stay in their bands, whatever a later node writes to disk
      shows strictly more progress than whatever an earlier node wrote. */
  lemma ProgressRisesAcrossNodes(w: Workflow, s: State, stop: Option<Stop>, observed: bool, i: nat, j: nat)
    requires BasesRise(w) && forall n :: 0 <= n < |w.nodes| ==> StaysInBand(w, n)
    requires var t := RunWorkflow(w, s, stop, observed).0;
      i < |t| && j < |t| && t[i].Saved? && t[j].Saved? && t[i].node < t[j].node < |w.nodes|
    ensures var t := RunWorkflow(w, s, stop, observed).0;
      i < j && t[i].task.progress < t[j].task.progress
  {
    RunStaysInBand(w, 0, s, stop, observed, []);
    RunFromAppends(w, 0, s, stop, observed, []);
    var t := RunWorkflow(w, s, stop, observed).0;
    assert InBand(w, t[i].node, t[i].task.progress) && InBand(w, t[j].node, t[j].task.progress);
    assert t[i].node + 1 == t[j].node || w.nodes[t[i].node + 1].step.base < w.nodes[t[j].node].step.base;
  }

  // ---------------------------------------------------------------- the two workflows

  ghost predicate HasSteps(w: Workflow, names: seq<string>, bases: seq<int>)
    requires |names| == |bases|
  {
    && |w.nodes| == |names|
    && forall k :: 0 <= k < |names| ==> w.nodes[k].step.name == names[k] && w.nodes[k].step.base == bases[k]
  }

  const DetailNames: seq<string> := [
    "detail_ingest_assets", "detail_plan", "detail_generate_copy", "detail_generate_prompt",
    "detail_render_pages", "detail_run_qc", "detail_finalize"]
  const DetailBases: seq<int> := [10, 28, 44, 60, 82, 92, 100]

  const MainImageNames: seq<string> := [
    "ingest_assets", "director_v2", "prompt_refine_v2", "render_images", "run_qc", "finalize"]
  const MainImageBases: seq<int> := [10, 30, 55, 85, 100, 100]

  /** In the detail workflow no progress value belongs to two nodes. */
  lemma DetailBandsAreDisjoint(w: Workflow, i: nat, j: nat, p: int)
    requires HasSteps(w, DetailNames, DetailBases) && i < j < |w.nodes|
    ensures BasesRise(w) && !(InBand(w, i, p) && InBand(w, j, p))
  {
    BandsDisjointIffBasesRise(w);
  }

  /** In the main-image workflow exactly one progress value is shared: 100, by the last two nodes. */
  lemma MainImageBandsMeetOnce(w: Workflow, i: nat, j: nat, p: int)
    requires HasSteps(w, MainImageNames, MainImageBases) && i < j < |w.nodes|
    ensures InBand(w, i, p) && InBand(w, j, p) <==> i == 4 && j == 5 && p == 100
  {
    assert w.nodes[i].step.base == MainImageBases[i] && w.nodes[j].step.base == MainImageBases[j];
    assert w.nodes[i + 1].step.base == MainImageBases[i + 1];
  }

  function SafeTotal(total: int): int { if total > 1 then total else 1 }

  function SafeCompleted(completed: int, total: int): int {
    var capped := if completed < SafeTotal(total) then completed else SafeTotal(total);
    if capped > 0 then capped else 0
  }

  /** Progress inside the page-rendering node, counted by finished pages. */
  function RenderProgress(completed: int, total: int): int {
    var start, end := DetailBases[4], DetailBases[5] - 2;
    start + (end - start) * SafeCompleted(completed, total) / SafeTotal(total)
  }

  /** It starts at the node's base, never falls as pages finish, reaches 90 exactly when all are done,
      and so stays inside the node's band. */
  lemma RenderProgressFillsItsBand(w: Workflow, fewer: int, more: int, total: int)
    requires HasSteps(w, DetailNames, DetailBases) && fewer <= more
    ensures RenderProgress(fewer, total) <= RenderProgress(more, total)
    ensures InBand(w, 4, RenderProgress(more, total)) && RenderProgress(more, total) <= 90
    ensures RenderProgress(0, total) == 82
    ensures RenderProgress(more, total) == 90 <==> more >= total && more >= 1
  {
    var n := SafeTotal(total);
    Share(8 * SafeCompleted(fewer, total), 8 * SafeCompleted(more, total), n);
    Share(0, 0, n);
    assert DetailBases[4] == 82 && DetailBases[5] == 92;
    assert w.nodes[4].step.base == 82 && w.nodes[5].step.base == 92;
  }

  /** Eighths `x` and `y` of at most eight whole `n`. */
  lemma Share(x: nat, y: nat, n: nat)
    requires x <= y <= 8 * n && n > 0
    ensures 0 <= x / n <= y / n <= 8
    ensures y / n == 8 <==> y == 8 * n
  {
    Quotient(x, n, x / n);
    QuotientsAscend(x, y, n);
    EightAtMost(y, n);
  }

  lemma EightAtMost(x: nat, n: nat)
    requires n > 0 && x <= 8 * n
    ensures x / n <= 8
    ensures x / n == 8 <==> x == 8 * n
  {
    var q := x / n;
    Quotient(x, n, q);
    if q >= 8 {
      ProductsAscend(n, 8, q);
    }
    QuotientIs(8 * n, n, 8);
  }

  lemma ProductsAscend(n: nat, x: nat, y: nat)
    requires x <= y
    ensures n * x <= n * y
  {
  }

  lemma QuotientsAscend(x: nat, y: nat, n: nat)
    requires n > 0 && x <= y
    ensures x / n <= y / n
  {
    Quotient(x, n, x / n);
    Quotient(y, n, y / n);
    CancelFactor(n, x / n, y / n + 1);
  }

  lemma QuotientIs(x: nat, n: nat, q: nat)
    requires n > 0 && x == q * n
    ensures x / n == q
  {
    Quotient(x, n, x / n);
    CancelFactor(n, q, x / n + 1);
    CancelFactor(n, x / n, q + 1);
  }

  lemma Quotient(x: nat, n: nat, q: nat)
    requires n > 0 && q == x / n
    ensures n * q <= x < n * (q + 1)
  {
  }

  lemma CancelFactor(n: nat, x: nat, y: nat)
    requires n > 0
    ensures n * x < n * y <==> x < y
  {
    if x < y {
      assert n * y == n * x + n * (y - x);
    } else {
      assert n * x == n * y + n * (x - y);
    }
  }

  // ---------------------------------------------------------------- the running program

  /** The disk and the observer of one run. */
  class Runner {
    var manifest: Option<Task>
    var trace: Trace

    constructor ()
      ensures manifest == None && trace == []
    {
      manifest, trace := None, [];
    }

    method SaveTaskManifest(node: nat, task: Task)
      modifies this
      ensures trace == Save(old(trace), node, task) && manifest == Some(task)
    {
      manifest := Some(task);
      trace := trace + [Saved(node, task)];
    }

    method OnProgress(node: nat, observed: bool, report: Report)
      modifies this`trace
      ensures trace == Show(old(trace), node, observed, report)
    {
      if observed {
        trace := trace + [Published(node, report)];
      }
    }

    method SaveAndPublish(node: nat, observed: bool, task: Task, fields: Fields)
      requires Faithful(trace)
      modifies this
      ensures trace == Show(Save(old(trace), node, task), node, observed, Report(Some(task), fields))
      ensures manifest == Some(task) && manifest == Manifest(trace) && Faithful(trace)
    {
      SaveAndShow(trace, node, observed, task, fields);
      SaveTaskManifest(node, task);
      OnProgress(node, observed, Report(Some(task), fields));
    }

    /** The progress callback of a handler. */
    method PublishReports(node: nat, observed: bool, reports: seq<Report>)
      requires Faithful(trace) && manifest == Manifest(trace)
      modifies this
      ensures trace == ShowReports(old(trace), node, observed, reports)
      ensures Faithful(trace) && manifest == Manifest(trace)
    {
      if !observed {
        return;
      }
      ghost var start := trace;
      assert reports[..0] == [];
      for i := 0 to |reports|
        invariant trace == ShowReports(start, node, observed, reports[..i])
        invariant Faithful(trace) && manifest == Manifest(trace)
      {
        PrefixStep(start, node, observed, reports, i);
        ReportsAreFaithful(start, node, observed, reports[..i + 1]);
        var r := reports[i];
        ghost var before := trace;
        if r.task.Some? {
          SaveIsFaithful(trace, node, r.task.value);
          SaveTaskManifest(node, r.task.value);
        }
        ShowIsFaithful(trace, node, observed, r);
        OnProgress(node, observed, r);
      }
      TakeAll(reports);
    }

    /** `_run_node`. */
    method RunOneNode(w: Workflow, k: nat, s: State, observed: bool) returns (outcome: Outcome)
      requires k < |w.nodes| && Faithful(trace) && manifest == Manifest(trace)
      modifies this
      ensures (trace, outcome) == RunNode(w, k, s, observed, old(trace))
      ensures Faithful(trace) && manifest == Manifest(trace)
    {
      var step := w.nodes[k].step;
      var started := StartedState(step, s);
      SaveAndPublish(k, observed, started.task, started.fields);
      var handled := w.nodes[k].handler(started);
      PublishReports(k, observed, handled.reports);
      match handled.ending
      case Raised(detail) =>
        var failed := FailedState(started, w.describe(step.name, detail), detail);
        SaveAndPublish(k, observed, failed.task, failed.fields);
        outcome := Aborted(k, failed);
      case Returned(u) =>
        var finished := FinishedState(step, s, started, u);
        SaveAndPublish(k, observed, PersistedTask(started, u), finished.fields);
        outcome := Ended(finished);
    }

    /** `run_detail_workflow`, and `run_workflow` when nothing is to stop it. */
    method Run(w: Workflow, initial: State, stop: Option<Stop>, observed: bool) returns (outcome: Outcome)
      requires trace == [] && manifest == None
      modifies this
      ensures (trace, outcome) == RunWorkflow(w, initial, stop, observed)
      ensures manifest == Manifest(trace)
    {
      if stop.Some? && !HasNode(w, stop.value.node) {
        return Unsupported;
      }
      var state := initial;
      for k := 0 to |w.nodes|
        invariant Faithful(trace) && manifest == Manifest(trace)
        invariant RunFrom(w, k, state, stop, observed, trace) == RunWorkflow(w, initial, stop, observed)
      {
        var result := RunOneNode(w, k, state, observed);
        if !result.Ended? {
          return result;
        }
        state := result.state;
        if stop.Some? && stop.value.node == w.nodes[k].step.name {
          var final := PlanOnlyState(state, stop.value.caption);
          SaveAndPublish(|w.nodes|, observed, final.task, final.fields);
          return Ended(final);
        }
      }
      return Ended(state);
    }
  }

  lemma PrefixStep(t: Trace, node: nat, observed: bool, reports: seq<Report>, i: nat)
    requires i < |reports| && observed
    ensures var before := ShowReports(t, node, observed, reports[..i]);
      ShowReports(t, node, observed, reports[..i + 1])
      == Show(if reports[i].task.Some? then Save(before, node, reports[i].task.value) else before, node, observed, reports[i])
  {
    assert reports[..i + 1][..i] == reports[..i];
  }
}
