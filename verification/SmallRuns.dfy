/**
 * Runs of one small workflow that show the limits of the run theorems. Creating a human task writes `active`
 * without looking at the step's state, so a task created late undoes a cancellation and leaves a started step
 * without the dependency that justified it. Closing counts active steps before it writes, and evaluation goes on
 * in a closed case.
 */
module SmallRuns {
  import opened Common
  import opened Workflow
  import opened Settling
  import opened AuditChain
  import opened MergeData
  import opened CaseMachine
  import opened CaseRuns
  import opened DependencySafety
  import opened Closing

  // ---- Activating one step --------------------------------------------------------------------------------

  /** A pending step goes through ready to active. */
  function Activation(step: Step): seq<Transition> {
    [Transition(step.id, Pending, Ready, ToReady, ReadyReason(step), ""),
     Transition(step.id, Ready, Active, ToActive, DependenciesSatisfied, "")]
  }

  lemma {:induction false} ActivationDerives(g: Graph, rows: Rows, id: string)
    requires Covers(g, rows) && id in g && rows[id].state == Pending && g[id].condition == ""
    requires Join(g[id], StatesOf(rows)) == Go && !RoutedAway(g, rows, id)
    ensures Derives(g, None, rows, Activation(g[id]))
    ensures Replay(rows, Activation(g[id])) == SetState(rows, id, Active)
  {
    var log := Activation(g[id]);
    var ready := SetState(rows, id, Ready);
    assert [log[0]] == [] + [log[0]] && log == [log[0]] + [log[1]];
    DerivesOneMore(g, None, rows, [], log[0]);
    DerivesOneMore(g, None, rows, [log[0]], log[1]);
    RoutingIsFixed(g, rows, ready, id);
    assert Replay(rows, []) == rows && Apply(rows, log[0]) == ready;
  }

  /** A derivation that leaves nothing to fire and nothing ready is an evaluation. */
  lemma {:induction false} QuietEvaluation(
    g: Graph, rank: map<string, nat>, rows: Rows, evaluator: Evaluator, log: seq<Transition>)
    requires Covers(g, rows) && Ranks(g, rank) && Derives(g, evaluator, rows, log)
    requires forall id :: id in g ==>
               Quiet(g, evaluator, Replay(rows, log), id) && Replay(rows, log)[id].state != Ready
    ensures Evaluation(g, rank, rows, evaluator, log)
  {
    forall id | id in g
      ensures Replay(rows, log)[id].state == Meaning(g, rank, rows, evaluator, id)
    {
      AnyMaximalDerivationMeans(g, rank, rows, evaluator, log, id);
    }
  }

  // ---- The workflow: a task, and a step that waits for it -------------------------------------------------

  const TASK := Step("t", "human_task", [], "", "", map[])
  const SEQUEL := Step("u", "agent", ["t"], "all", "", map[])
  const AST := [TASK, SEQUEL]
  const GRAPH: Graph := map["t" := TASK, "u" := SEQUEL]
  const RANK: map<string, nat> := map["t" := 0, "u" := 1]

  function Two(t: Row, u: State): Rows {
    map["t" := t, "u" := Row(u, "")]
  }

  lemma {:induction false} WorkflowIsWellFormed()
    ensures StepMap(AST) == GRAPH && Ranks(GRAPH, RANK) && WellFormed(AST)
  {
    assert AST[..1] == [TASK] && [TASK][..0] == [];
    assert StepMap([TASK]) == map["t" := TASK];
    RankedIsAcyclic(GRAPH, RANK);
  }

  lemma {:induction false} NothingRoutes(rows: Rows, id: string)
    requires id in GRAPH
    ensures !RoutedAway(GRAPH, rows, id)
  {
  }

  /** With the task under way its sequel waits. */
  lemma {:induction false} SequelWaits(now: Rows)
    requires now == Two(Row(Active, ""), Pending)
    ensures Covers(GRAPH, now) && Quiet(GRAPH, None, now, "t") && Quiet(GRAPH, None, now, "u")
  {
    WorkflowIsWellFormed();
    NothingRoutes(now, "u");
    assert "t" in SEQUEL.dependsOn && StatesOf(now)["t"] == Active;
  }

  /** The first evaluation activates the task. */
  lemma {:induction false} TaskIsActivated(rows: Rows)
    requires rows == Two(Row(Pending, ""), Pending)
    ensures Covers(GRAPH, rows) && Ranks(GRAPH, RANK) && Evaluation(GRAPH, RANK, rows, None, Activation(TASK))
    ensures Replay(rows, Activation(TASK)) == Two(Row(Active, ""), Pending)
  {
    WorkflowIsWellFormed();
    NothingRoutes(rows, "t");
    ActivationDerives(GRAPH, rows, "t");
    assert SetState(rows, "t", Active) == Two(Row(Active, ""), Pending);
    SequelWaits(Two(Row(Active, ""), Pending));
    QuietEvaluation(GRAPH, RANK, rows, None, Activation(TASK));
  }

  lemma {:induction false} SequelMayGo(rows: Rows)
    requires rows == Two(Row(Completed, "done"), Pending)
    ensures Covers(GRAPH, rows) && Join(SEQUEL, StatesOf(rows)) == Go
  {
    WorkflowIsWellFormed();
    assert "t" in SEQUEL.dependsOn && StatesOf(rows)["t"] == Completed;
    assert SomeIn(SEQUEL, StatesOf(rows), Completed);
  }

  /** Once the task is completed, evaluation activates the sequel. */
  lemma {:induction false} SequelIsActivated(rows: Rows)
    requires rows == Two(Row(Completed, "done"), Pending)
    ensures Covers(GRAPH, rows) && Ranks(GRAPH, RANK) && Evaluation(GRAPH, RANK, rows, None, Activation(SEQUEL))
    ensures Replay(rows, Activation(SEQUEL)) == Two(Row(Completed, "done"), Active)
  {
    WorkflowIsWellFormed();
    NothingRoutes(rows, "u");
    SequelMayGo(rows);
    ActivationDerives(GRAPH, rows, "u");
    var now := Two(Row(Completed, "done"), Active);
    assert SetState(rows, "u", Active) == now;
    assert Quiet(GRAPH, None, now, "t") && Quiet(GRAPH, None, now, "u");
    QuietEvaluation(GRAPH, RANK, rows, None, Activation(SEQUEL));
  }

  // ---- The transactions -----------------------------------------------------------------------------------

  const START := Evaluate(None, RANK, Activation(TASK))
  const FINISH := Complete("t", "done", None, "")
  const GO_ON := Evaluate(None, RANK, Activation(SEQUEL))
  const LATE := CreateTask("t")

  lemma {:induction false} CreatedRows(env: Env, data: Fields)
    ensures Created(env, AST, data).rows == Two(Row(Pending, ""), Pending)
  {
    WorkflowIsWellFormed();
  }

  /** The transaction is allowed, leads to `next`, and readies nothing by force. */
  ghost predicate Leads(env: Env, c: Case, a: Action, next: Case) {
    Allowed(AST, c, a) && next == Next(env, AST, c, a) && next.forced == c.forced
  }

  lemma {:induction false} Begins(env: Env, c: Case) returns (next: Case)
    requires c.rows == Two(Row(Pending, ""), Pending) && c.status != Cancelled
    ensures Leads(env, c, START, next)
    ensures next.rows == Two(Row(Active, ""), Pending) && next.status == c.status
  {
    next := Next(env, AST, c, START);
    WorkflowIsWellFormed();
    TaskIsActivated(c.rows);
  }

  lemma {:induction false} Cancels(env: Env, c: Case) returns (next: Case)
    requires c.rows == Two(Row(Active, ""), Pending)
    ensures Leads(env, c, Cancel, next)
    ensures next.rows == Two(Row(Skipped, ""), Skipped) && next.status == Cancelled
  {
    next := Next(env, AST, c, Cancel);
    WorkflowIsWellFormed();
  }

  lemma {:induction false} Finishes(env: Env, c: Case) returns (next: Case)
    requires c.rows == Two(Row(Active, ""), Pending)
    ensures Leads(env, c, FINISH, next)
    ensures next.rows == Two(Row(Completed, "done"), Pending) && next.status == c.status
  {
    next := Next(env, AST, c, FINISH);
    assert AuditPair("") == ("step", "completed") && IsRegistered("step", "completed");
  }

  lemma {:induction false} GoesOn(env: Env, c: Case) returns (next: Case)
    requires c.rows == Two(Row(Completed, "done"), Pending) && c.status == Open
    ensures Leads(env, c, GO_ON, next)
    ensures next.rows == Two(Row(Completed, "done"), Active) && next.status == Open
  {
    next := Next(env, AST, c, GO_ON);
    WorkflowIsWellFormed();
    SequelIsActivated(c.rows);
  }

  lemma {:induction false} TaskComesLate(env: Env, c: Case, t: Row, u: State) returns (next: Case)
    requires c.rows == Two(t, u)
    ensures Leads(env, c, LATE, next)
    ensures next.rows == Two(t.(state := Active), u) && next.status == c.status
  {
    next := Next(env, AST, c, LATE);
  }

  lemma {:induction false} Closes(env: Env, c: Case) returns (next: Case)
    ensures Leads(env, c, Close, next)
    ensures next.rows == c.rows && next.status == Finished
  {
    next := Next(env, AST, c, Close);
  }

  // ---- Building runs --------------------------------------------------------------------------------------

  /** A run goes on with any transaction that leads on. */
  lemma {:induction false} Continue(env: Env, run: Run, a: Action, next: Case) returns (longer: Run)
    requires IsRun(env, AST, run) && Leads(env, Last(run), a, next)
    ensures IsRun(env, AST, longer)
    ensures longer.cases == run.cases + [next] && longer.actions == run.actions + [a]
  {
    longer := Extended(run, a, next);
    RunContinues(env, AST, run, a, next);
  }

  /** A run so far: what it did, and how its case stands now. */
  ghost predicate Stands(env: Env, run: Run, actions: seq<Action>, status: Status, rows: Rows) {
    && IsRun(env, AST, run) && run.actions == actions
    && Last(run).status == status && Last(run).rows == rows && Last(run).forced == {}
  }

  lemma {:induction false} NewRun(env: Env, data: Fields) returns (run: Run)
    ensures Stands(env, run, [], Open, Two(Row(Pending, ""), Pending))
  {
    run := Run([Created(env, AST, data)], []);
    CreatedRows(env, data);
  }

  lemma {:induction false} StartedRun(env: Env, data: Fields) returns (run: Run)
    ensures Stands(env, run, [START], Open, Two(Row(Active, ""), Pending))
  {
    var before := NewRun(env, data);
    var next := Begins(env, Last(before));
    run := Continue(env, before, START, next);
  }

  lemma {:induction false} CancelledRun(env: Env, data: Fields) returns (run: Run)
    ensures Stands(env, run, [START, Cancel], Cancelled, Two(Row(Skipped, ""), Skipped))
  {
    var before := StartedRun(env, data);
    var next := Cancels(env, Last(before));
    run := Continue(env, before, Cancel, next);
  }

  lemma {:induction false} FinishedRun(env: Env, data: Fields) returns (run: Run)
    ensures Stands(env, run, [START, FINISH], Open, Two(Row(Completed, "done"), Pending))
  {
    var before := StartedRun(env, data);
    var next := Finishes(env, Last(before));
    run := Continue(env, before, FINISH, next);
  }

  lemma {:induction false} SequelRun(env: Env, data: Fields) returns (run: Run)
    ensures Stands(env, run, [START, FINISH, GO_ON], Open, Two(Row(Completed, "done"), Active))
  {
    var before := FinishedRun(env, data);
    var next := GoesOn(env, Last(before));
    run := Continue(env, before, GO_ON, next);
  }

  // ---- A task created late --------------------------------------------------------------------------------

  /** Created after the cancellation, the task brings the case back to life: a skipped step is active again. */
  lemma {:induction false} CancelledTaskComesBack(env: Env, data: Fields) returns (run: Run)
    ensures IsRun(env, AST, run) && run.actions == [START, Cancel, LATE]
    ensures run.cases[3].status == Cancelled && IsActive(run.cases[3].rows, "t")
    ensures !Lifts(run.cases[2].rows, run.cases[3].rows)
  {
    var before := CancelledRun(env, data);
    var next := TaskComesLate(env, Last(before), Row(Skipped, ""), Skipped);
    run := Continue(env, before, LATE, next);
  }

  lemma {:induction false} SequelIsUnjustified(c: Case)
    requires c.rows == Two(Row(Active, "done"), Active) && "u" !in c.forced
    ensures !DependencySafe(GRAPH, c)
  {
    WorkflowIsWellFormed();
    assert "t" in SEQUEL.dependsOn && StatesOf(c.rows)["t"] == Active;
    assert !AllTerminal(SEQUEL, StatesOf(c.rows));
    assert NormalizedJoin(SEQUEL.join) == "all";
    assert Covers(GRAPH, c.rows) ==> !Justified(GRAPH, c.rows, "u");
  }

  /** Created after its step was completed, the task leaves the sequel active although its dependency is to be done. */
  lemma {:induction false} SequelRunsAhead(env: Env, data: Fields) returns (run: Run)
    ensures WellFormed(AST) && IsRun(env, AST, run) && run.actions == [START, FINISH, GO_ON, LATE]
    ensures IsActive(run.cases[4].rows, "t") && IsActive(run.cases[4].rows, "u")
    ensures !DependencySafe(StepMap(AST), run.cases[4])
  {
    var before := SequelRun(env, data);
    var next := TaskComesLate(env, Last(before), Row(Completed, "done"), Active);
    run := Continue(env, before, LATE, next);
    SequelIsUnjustified(run.cases[4]);
    WorkflowIsWellFormed();
  }

  // ---- Closing --------------------------------------------------------------------------------------------

  /** Nothing is active when the steps are counted, an evaluation follows, and the closed case has a step active. */
  lemma {:induction false} ClosedWhileActive(env: Env, data: Fields) returns (run: Run)
    ensures IsRun(env, AST, run) && run.actions == [START, Close]
    ensures NothingActive(run.cases[0].rows)
    ensures run.cases[2].status == Finished && IsActive(run.cases[2].rows, "t")
  {
    var before := StartedRun(env, data);
    var next := Closes(env, Last(before));
    run := Continue(env, before, Close, next);
    CreatedIsIdle(env, run);
  }

  lemma {:induction false} CreatedIsIdle(env: Env, run: Run)
    requires IsRun(env, AST, run)
    ensures NothingActive(run.cases[0].rows)
  {
  }

  lemma {:induction false} ClosedRun(env: Env, data: Fields) returns (run: Run)
    ensures Stands(env, run, [Close], Finished, Two(Row(Pending, ""), Pending))
  {
    var before := NewRun(env, data);
    var next := Closes(env, Last(before));
    run := Continue(env, before, Close, next);
  }

  /** A case closed with an open step goes on: the next evaluation starts it. */
  lemma {:induction false} ClosedCaseGoesOn(env: Env, data: Fields) returns (run: Run)
    ensures IsRun(env, AST, run) && run.actions == [Close, START]
    ensures run.cases[2].status == Finished && IsActive(run.cases[2].rows, "t")
    ensures !StrayTask(run.cases[1], run.actions[1]) && Activates(run.cases[1].rows, run.cases[2].rows)
  {
    var before := ClosedRun(env, data);
    var next := Begins(env, Last(before));
    run := Continue(env, before, START, next);
  }
}
