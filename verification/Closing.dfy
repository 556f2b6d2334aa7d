/** When a step is active: what starts and what ends one, and what closing a case can and cannot promise. */
module Closing {
  import opened Common
  import opened Workflow
  import opened Settling
  import opened AuditChain
  import opened CaseMachine
  import opened CaseRuns

  // ---- Starting and ending a step -------------------------------------------------------------------------

  /** Evaluation dispatches the step, or a human task is created for it although it is not active. */
  predicate Starts(c: Case, a: Action, id: string) {
    || (a.Evaluate? && c.status != Cancelled && id in Activated(a.log))
    || (StrayTask(c, a) && a.stepId == id)
  }

  /** The transactions that end an active step; a completion needs a registered audit pair. */
  predicate Ends(ast: seq<Step>, a: Action, id: string) {
    match a
    case Complete(stepId, _, _, auditType) =>
      stepId == id && IsRegistered(AuditPair(auditType).0, AuditPair(auditType).1)
    case Fail(stepId) => stepId == id
    case SkipExhausted(stepId) => stepId == id
    case Cancel => IsHumanTask(StepMap(ast), id)
    case _ => false
  }

  /** Evaluation moves open steps only. */
  lemma {:induction false} DerivationKeepsClosed(
    g: Graph, evaluator: Evaluator, rows: Rows, log: seq<Transition>, id: string)
    requires Covers(g, rows) && Derives(g, evaluator, rows, log) && id in rows && !rows[id].state.Open()
    ensures Replay(rows, log)[id] == rows[id]
  {
    if log != [] {
      DerivesLast(g, evaluator, rows, log);
      DerivationKeepsClosed(g, evaluator, rows, log[..|log| - 1], id);
    }
  }

  lemma {:induction false} EvaluationActivatesExactly(
    g: Graph, evaluator: Evaluator, rows: Rows, log: seq<Transition>, id: string)
    requires Covers(g, rows) && Derives(g, evaluator, rows, log)
    ensures IsActive(Replay(rows, log), id) <==> id in Activated(log) || IsActive(rows, id)
  {
    DispatchIsActivation(g, evaluator, rows, log);
    if IsActive(rows, id) {
      DerivationKeepsClosed(g, evaluator, rows, log, id);
    }
  }

  lemma {:induction false} CompletionEndsExactly(env: Env, ast: seq<Step>, c: Case, a: Action, id: string)
    requires a.Complete?
    ensures IsActive(Next(env, ast, c, a).rows, id) <==> IsActive(c.rows, id) && !Ends(ast, a, id)
  {
  }

  lemma {:induction false} MovesActivateExactly(ast: seq<Step>, c: Case, a: Action, later: Rows, id: string)
    requires Allowed(ast, c, a) && Moves(ast, c, a, later) && !a.Complete?
    ensures IsActive(later, id) <==> Starts(c, a, id) || (IsActive(c.rows, id) && !Ends(ast, a, id))
  {
    if a.Evaluate? && c.status != Cancelled {
      EvaluationActivatesExactly(StepMap(ast), a.evaluator, c.rows, a.log, id);
    }
  }

  /** After a transaction a step is active exactly when the transaction started it, or it was and has not been ended. */
  lemma {:induction false} NextIsActiveExactly(env: Env, ast: seq<Step>, c: Case, a: Action, id: string)
    requires Allowed(ast, c, a)
    ensures IsActive(Next(env, ast, c, a).rows, id) <==>
            Starts(c, a, id) || (IsActive(c.rows, id) && !Ends(ast, a, id))
  {
    if a.Complete? {
      CompletionEndsExactly(env, ast, c, a, id);
    } else {
      NextMoves(env, ast, c, a);
      MovesActivateExactly(ast, c, a, Next(env, ast, c, a).rows, id);
    }
  }

  // ---- Active since a moment ------------------------------------------------------------------------------

  ghost predicate StartedAt(run: Run, k: nat, id: string)
    requires k < |run.actions| < |run.cases|
  {
    Starts(run.cases[k], run.actions[k], id)
  }

  ghost predicate EndedAt(ast: seq<Step>, run: Run, k: nat, id: string)
    requires k < |run.actions| < |run.cases|
  {
    Ends(ast, run.actions[k], id)
  }

  /** Between the two moments some transaction started the step, and none has ended it since. */
  ghost predicate UnderWay(ast: seq<Step>, run: Run, from: nat, to: nat, id: string)
    requires to <= |run.actions| < |run.cases|
  {
    exists k :: from <= k < to && StartedAt(run, k, id) && forall m :: k < m < to ==> !EndedAt(ast, run, m, id)
  }

  lemma {:induction false} UnderWayGoesOn(ast: seq<Step>, run: Run, from: nat, to: nat, id: string)
    requires from <= to < |run.actions| < |run.cases|
    ensures UnderWay(ast, run, from, to + 1, id) <==>
            StartedAt(run, to, id) || (UnderWay(ast, run, from, to, id) && !EndedAt(ast, run, to, id))
  {
    if UnderWay(ast, run, from, to, id) && !EndedAt(ast, run, to, id) {
      var k :| from <= k < to && StartedAt(run, k, id) && forall m :: k < m < to ==> !EndedAt(ast, run, m, id);
      assert forall m :: k < m < to + 1 ==> !EndedAt(ast, run, m, id);
    }
    if UnderWay(ast, run, from, to + 1, id) {
      var k :| from <= k < to + 1 && StartedAt(run, k, id) && forall m :: k < m < to + 1 ==> !EndedAt(ast, run, m, id);
      assert k < to ==> !EndedAt(ast, run, to, id);
    }
  }

  lemma {:induction false} RunIsActiveExactly(env: Env, ast: seq<Step>, run: Run, i: nat, id: string)
    requires IsRun(env, ast, run) && i < |run.actions|
    ensures IsActive(run.cases[i + 1].rows, id) <==>
            StartedAt(run, i, id) || (IsActive(run.cases[i].rows, id) && !EndedAt(ast, run, i, id))
  {
    assert Took(env, ast, run, i);
    NextIsActiveExactly(env, ast, run.cases[i], run.actions[i], id);
  }

  /** A step that was not active is active later exactly when it was started meanwhile and not ended since. */
  lemma {:induction false} ActiveSinceExactly(env: Env, ast: seq<Step>, run: Run, i: nat, j: nat, id: string)
    requires IsRun(env, ast, run) && i <= j <= |run.actions| && !IsActive(run.cases[i].rows, id)
    ensures IsActive(run.cases[j].rows, id) <==> UnderWay(ast, run, i, j, id)
  {
    if i < j {
      ActiveSinceExactly(env, ast, run, i, j - 1, id);
      RunIsActiveExactly(env, ast, run, j - 1, id);
      UnderWayGoesOn(ast, run, i, j - 1, id);
    }
  }

  // ---- Closing --------------------------------------------------------------------------------------------

  /** What `CloseCase` counts: nothing is active. */
  ghost predicate NothingActive(rows: Rows) {
    forall id :: !IsActive(rows, id)
  }

  lemma {:induction false} ClosingKeepsRows(env: Env, ast: seq<Step>, run: Run, j: nat)
    requires IsRun(env, ast, run) && j < |run.actions| && run.actions[j] == Close
    ensures run.cases[j + 1].rows == run.cases[j].rows && run.cases[j + 1].status == Finished
  {
    assert Took(env, ast, run, j);
  }

  /**
   * Closing after a count of zero, read at `i` and written at `j`: the closed case has no active step exactly when
   * whatever was dispatched or got a human task in between has also been ended in between.
   */
  lemma {:induction false} ClosingIsCleanExactly(env: Env, ast: seq<Step>, run: Run, i: nat, j: nat)
    requires IsRun(env, ast, run) && i <= j < |run.actions| && run.actions[j] == Close
    requires NothingActive(run.cases[i].rows)
    ensures NothingActive(run.cases[j + 1].rows) <==> forall id :: !UnderWay(ast, run, i, j, id)
  {
    ClosingKeepsRows(env, ast, run, j);
    if NothingActive(run.cases[j + 1].rows) {
      forall id
        ensures !UnderWay(ast, run, i, j, id)
      {
        ActiveSinceExactly(env, ast, run, i, j, id);
      }
    }
    if forall id :: !UnderWay(ast, run, i, j, id) {
      forall id
        ensures !IsActive(run.cases[j].rows, id)
      {
        ActiveSinceExactly(env, ast, run, i, j, id);
      }
    }
  }

  /**
   * What a closed case does afterwards: if no step is open when it is closed, none ever is again, and only a stray
   * human task can start one.
   */
  lemma {:induction false} ClosedStaysQuiet(env: Env, ast: seq<Step>, run: Run, j: nat, i: nat)
    requires IsRun(env, ast, run) && j < i <= |run.actions| && run.actions[j] == Close && Dormant(run.cases[j].rows)
    ensures Dormant(run.cases[i].rows)
    ensures i < |run.actions| ==>
              (Activates(run.cases[i].rows, run.cases[i + 1].rows) <==> StrayTask(run.cases[i], run.actions[i]))
  {
    ClosingKeepsRows(env, ast, run, j);
    DormancyIsFinal(env, ast, run, j + 1, i);
  }
}
