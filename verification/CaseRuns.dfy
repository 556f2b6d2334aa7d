/** What holds in every run of a case, however its transactions interleave. */
module CaseRuns {
  import opened Common
  import opened Workflow
  import opened Settling
  import opened MergeData
  import opened CaseMachine

  // ---- What a transaction does to the rows ----------------------------------------------------------------

  /** How the step rows move; a completion may also be rolled back. */
  ghost predicate Moves(ast: seq<Step>, c: Case, a: Action, later: Rows) {
    match a
    case Evaluate(_, _, log) => later == if c.status == Cancelled then c.rows else Replay(c.rows, log)
    case Complete(id, outcome, _, _) =>
      later == c.rows || (IsActive(c.rows, id) && later == c.rows[id := Row(Completed, outcome)])
    case Fail(id) => later == EndActive(c.rows, id, Failed)
    case SkipExhausted(id) => later == EndActive(c.rows, id, Skipped)
    case Fallback(id) =>
      later == if id in c.rows && c.rows[id].state == Pending then SetState(c.rows, id, Ready) else c.rows
    case Cancel => later == CancelledRows(StepMap(ast), c.rows)
    case CreateTask(id) => later == if id in c.rows then SetState(c.rows, id, Active) else c.rows
    case _ => later == c.rows
  }

  lemma {:induction false} NextMoves(env: Env, ast: seq<Step>, c: Case, a: Action)
    ensures Moves(ast, c, a, Next(env, ast, c, a).rows)
  {
  }

  // ---- The lifecycle only rises ---------------------------------------------------------------------------

  /** Every row is as it was, or has risen in the lifecycle; in particular terminal rows are frozen. */
  ghost predicate Lifts(rows: Rows, later: Rows) {
    && rows.Keys == later.Keys
    && forall id :: id in rows ==> rows[id] == later[id] || rows[id].state.Rank() < later[id].state.Rank()
  }

  /** Rising, state by state: an ended row is frozen, and nothing returns to where it was. */
  ghost predicate Rises(from: Row, to: Row) {
    || to == from
    || (from.state == Pending && to.state != Pending)
    || (from.state == Ready && to.state in {Active, Completed, Failed, Skipped})
    || (from.state == Active && to.state in {Completed, Failed, Skipped})
  }

  lemma {:induction false} LiftingPlainly(rows: Rows, later: Rows)
    ensures Lifts(rows, later) <==>
            rows.Keys == later.Keys && forall id :: id in rows ==> Rises(rows[id], later[id])
  {
  }

  /** A human task is created for a step that has already ended. */
  predicate Revives(c: Case, a: Action) {
    a.CreateTask? && a.stepId in c.rows && c.rows[a.stepId].state.Terminal()
  }

  lemma {:induction false} DerivationLifts(g: Graph, evaluator: Evaluator, rows: Rows, log: seq<Transition>)
    requires Covers(g, rows) && Derives(g, evaluator, rows, log)
    ensures Lifts(rows, Replay(rows, log))
  {
    if log != [] {
      DerivesLast(g, evaluator, rows, log);
      DerivationLifts(g, evaluator, rows, log[..|log| - 1]);
    }
  }

  lemma {:induction false} MovesLift(ast: seq<Step>, c: Case, a: Action, later: Rows)
    requires Allowed(ast, c, a) && Moves(ast, c, a, later)
    ensures Lifts(c.rows, later) <==> !Revives(c, a)
  {
    if a.Evaluate? && c.status != Cancelled {
      DerivationLifts(StepMap(ast), a.evaluator, c.rows, a.log);
    } else if a.CreateTask? && a.stepId in c.rows {
      assert later[a.stepId].state == Active;
      assert c.rows[a.stepId].state.Rank() == 3 <==> c.rows[a.stepId].state.Terminal();
    }
  }

  /** One transaction keeps the lifecycle rising exactly when it does not revive an ended step. */
  lemma {:induction false} NextLifts(env: Env, ast: seq<Step>, c: Case, a: Action)
    requires Allowed(ast, c, a)
    ensures Lifts(c.rows, Next(env, ast, c, a).rows) <==> !Revives(c, a)
  {
    NextMoves(env, ast, c, a);
    MovesLift(ast, c, a, Next(env, ast, c, a).rows);
  }

  ghost predicate NoRevival(run: Run, from: nat, to: nat)
    requires to <= |run.actions| < |run.cases|
  {
    forall i :: from <= i < to ==> !Revives(run.cases[i], run.actions[i])
  }

  lemma {:induction false} RunLiftsOnce(env: Env, ast: seq<Step>, run: Run, i: nat)
    requires IsRun(env, ast, run) && i < |run.actions|
    ensures Lifts(run.cases[i].rows, run.cases[i + 1].rows) <==> !Revives(run.cases[i], run.actions[i])
  {
    assert Took(env, ast, run, i);
    NextLifts(env, ast, run.cases[i], run.actions[i]);
  }

  lemma {:induction false} RunLifts(env: Env, ast: seq<Step>, run: Run, i: nat, j: nat)
    requires IsRun(env, ast, run) && i <= j <= |run.actions| && NoRevival(run, i, j)
    ensures Lifts(run.cases[i].rows, run.cases[j].rows)
  {
    if i < j {
      RunLifts(env, ast, run, i, j - 1);
      RunLiftsOnce(env, ast, run, j - 1);
    }
  }

  /** The lifecycle rises throughout a run exactly when the run revives no ended step. */
  lemma {:induction false} LifecycleIsMonotone(env: Env, ast: seq<Step>, run: Run)
    requires IsRun(env, ast, run)
    ensures NoRevival(run, 0, |run.actions|) <==>
            forall i, j :: 0 <= i <= j <= |run.actions| ==> Lifts(run.cases[i].rows, run.cases[j].rows)
  {
    if NoRevival(run, 0, |run.actions|) {
      forall i, j | 0 <= i <= j <= |run.actions|
        ensures Lifts(run.cases[i].rows, run.cases[j].rows)
      {
        RunLifts(env, ast, run, i, j);
      }
    } else {
      var i :| 0 <= i < |run.actions| && Revives(run.cases[i], run.actions[i]);
      RunLiftsOnce(env, ast, run, i);
      assert !Lifts(run.cases[i].rows, run.cases[i + 1].rows);
    }
  }

  // ---- Counting state changes -----------------------------------------------------------------------------

  function TotalRank(ast: seq<Step>, rows: Rows): nat {
    if ast == [] then 0
    else
      var id := ast[|ast| - 1].id;
      TotalRank(ast[..|ast| - 1], rows) + if id in rows then rows[id].state.Rank() else 0
  }

  lemma {:induction false} TotalRankBound(ast: seq<Step>, rows: Rows)
    ensures TotalRank(ast, rows) <= 3 * |ast|
  {
    if ast != [] {
      TotalRankBound(ast[..|ast| - 1], rows);
    }
  }

  lemma {:induction false} LiftingPays(ast: seq<Step>, rows: Rows, later: Rows)
    requires Lifts(rows, later)
    ensures TotalRank(ast, rows) + Changed(ast, rows, later) <= TotalRank(ast, later)
  {
    if ast != [] {
      LiftingPays(ast[..|ast| - 1], rows, later);
    }
  }

  lemma {:induction false} ChangeIsCounted(ast: seq<Step>, rows: Rows, later: Rows, i: nat)
    requires i < |ast| && ast[i].id in rows && ast[i].id in later
    requires rows[ast[i].id].state != later[ast[i].id].state
    ensures Changed(ast, rows, later) >= 1
  {
    if i < |ast| - 1 {
      assert ast[..|ast| - 1][i] == ast[i];
      ChangeIsCounted(ast[..|ast| - 1], rows, later, i);
    }
  }

  /** Raising one row of the workflow raises the total. */
  lemma {:induction false} OneRowPays(ast: seq<Step>, rows: Rows, later: Rows, id: string)
    requires Lifts(rows, later) && id in StepMap(ast) && id in rows && rows[id].state != later[id].state
    ensures TotalRank(ast, rows) + 1 <= TotalRank(ast, later)
  {
    StepMapHas(ast, id);
    var i :| 0 <= i < |ast| && ast[i].id == id;
    ChangeIsCounted(ast, rows, later, i);
    LiftingPays(ast, rows, later);
  }

  lemma {:induction false} FiringPays(ast: seq<Step>, evaluator: Evaluator, now: Rows, tr: Transition)
    requires Covers(StepMap(ast), now) && Enabled(StepMap(ast), evaluator, now, tr)
    ensures TotalRank(ast, now) + 1 <= TotalRank(ast, Apply(now, tr))
  {
    OneRowPays(ast, now, Apply(now, tr), tr.stepId);
  }

  lemma {:induction false} DerivationPays(ast: seq<Step>, evaluator: Evaluator, rows: Rows, log: seq<Transition>)
    requires Covers(StepMap(ast), rows) && Derives(StepMap(ast), evaluator, rows, log)
    ensures TotalRank(ast, rows) + |log| <= TotalRank(ast, Replay(rows, log))
  {
    if log != [] {
      var n := |log| - 1;
      DerivesLast(StepMap(ast), evaluator, rows, log);
      DerivationPays(ast, evaluator, rows, log[..n]);
      FiringPays(ast, evaluator, Replay(rows, log[..n]), log[n]);
    }
  }

  lemma {:induction false} HitsAreFew(rows: Rows, log: seq<Transition>)
    ensures Hits(rows, log) <= |log|
  {
    if log != [] {
      HitsAreFew(rows, log[..|log| - 1]);
    }
  }

  /** Every state change a transaction writes is paid for by rank, unless it revives a step. */
  lemma {:induction false} NextPays(env: Env, ast: seq<Step>, c: Case, a: Action)
    requires Allowed(ast, c, a) && !Revives(c, a) && c.rows.Keys <= StepMap(ast).Keys
    ensures Next(env, ast, c, a).changes - c.changes + TotalRank(ast, c.rows)
         <= TotalRank(ast, Next(env, ast, c, a).rows)
  {
    var d := Next(env, ast, c, a);
    NextLifts(env, ast, c, a);
    match a
    case Evaluate(evaluator, _, log) =>
      if c.status != Cancelled {
        DerivationPays(ast, evaluator, c.rows, log);
        HitsAreFew(c.rows, log);
      }
    case Cancel =>
      LiftingPays(ast, c.rows, d.rows);
    case Close =>
    case PatchData(_, _, _, _) =>
    case AppendData(_, _) =>
    case Remark(_, _, _, _) =>
    case _ =>
      if d.changes != c.changes {
        OneRowPays(ast, c.rows, d.rows, a.stepId);
      } else {
        LiftingPays(ast, c.rows, d.rows);
      }
  }

  lemma {:induction false} OtherRowsKeepRank(ast: seq<Step>, rows: Rows, id: string, s: State)
    requires id in rows && forall i :: 0 <= i < |ast| ==> ast[i].id != id
    ensures TotalRank(ast, SetState(rows, id, s)) == TotalRank(ast, rows)
  {
    if ast != [] {
      OtherRowsKeepRank(ast[..|ast| - 1], rows, id, s);
    }
  }

  /** Activating an ended step lowers the total by one. */
  lemma {:induction false} RevivalCosts(ast: seq<Step>, rows: Rows, id: string)
    requires Creatable(ast) && id in rows && id != ""
    ensures TotalRank(ast, rows) <= TotalRank(ast, SetState(rows, id, Active)) + 1
  {
    if ast != [] {
      var n := |ast| - 1;
      if ast[n].id == id {
        assert forall i :: 0 <= i < n ==> ast[..n][i].id != id;
        OtherRowsKeepRank(ast[..n], rows, id, Active);
      } else {
        RevivalCosts(ast[..n], rows, id);
      }
    }
  }

  lemma {:induction false} NextPaysForRevival(env: Env, ast: seq<Step>, c: Case, a: Action)
    requires Creatable(ast) && Revives(c, a) && a.stepId != ""
    ensures Next(env, ast, c, a).changes - c.changes + TotalRank(ast, c.rows)
         <= TotalRank(ast, Next(env, ast, c, a).rows) + 2
  {
    RevivalCosts(ast, c.rows, a.stepId);
  }

  lemma {:induction false} NextKeepsKeys(env: Env, ast: seq<Step>, c: Case, a: Action)
    ensures Next(env, ast, c, a).rows.Keys == c.rows.Keys
  {
    NextMoves(env, ast, c, a);
  }

  lemma {:induction false} RowsKeepTheirSteps(env: Env, ast: seq<Step>, run: Run, i: nat)
    requires IsRun(env, ast, run) && i <= |run.actions|
    ensures run.cases[i].rows.Keys == StepMap(ast).Keys - {""}
  {
    if i > 0 {
      assert Took(env, ast, run, i - 1);
      RowsKeepTheirSteps(env, ast, run, i - 1);
      NextKeepsKeys(env, ast, run.cases[i - 1], run.actions[i - 1]);
    }
  }

  /** How many of the first n transactions revived an ended step. */
  function Revivals(run: Run, n: nat): nat
    requires n <= |run.actions| < |run.cases|
  {
    if n == 0 then 0 else Revivals(run, n - 1) + Count(Revives(run.cases[n - 1], run.actions[n - 1]))
  }

  lemma {:induction false} RunPays(env: Env, ast: seq<Step>, run: Run, i: nat)
    requires IsRun(env, ast, run) && Creatable(ast) && i < |run.actions|
    ensures run.cases[i + 1].changes - run.cases[i].changes + TotalRank(ast, run.cases[i].rows)
         <= TotalRank(ast, run.cases[i + 1].rows) + 2 * Count(Revives(run.cases[i], run.actions[i]))
  {
    assert Took(env, ast, run, i);
    RowsKeepTheirSteps(env, ast, run, i);
    if Revives(run.cases[i], run.actions[i]) {
      NextPaysForRevival(env, ast, run.cases[i], run.actions[i]);
    } else {
      NextPays(env, ast, run.cases[i], run.actions[i]);
    }
  }

  /** A case of n steps sees at most 3n state changes in any run, and two more for every step that was revived. */
  lemma {:induction false} ChangesAreBounded(env: Env, ast: seq<Step>, run: Run, i: nat)
    requires IsRun(env, ast, run) && Creatable(ast) && i <= |run.actions|
    ensures run.cases[i].changes <= TotalRank(ast, run.cases[i].rows) + 2 * Revivals(run, i)
    ensures run.cases[i].changes <= 3 * |ast| + 2 * Revivals(run, i)
  {
    TotalRankBound(ast, run.cases[i].rows);
    if i > 0 {
      ChangesAreBounded(env, ast, run, i - 1);
      RunPays(env, ast, run, i - 1);
    }
  }

  // ---- Dispatch -------------------------------------------------------------------------------------------

  ghost predicate Distinct(ids: seq<string>) {
    forall i, j :: 0 <= i < j < |ids| ==> ids[i] != ids[j]
  }

  ghost predicate Started(rows: Rows, ids: seq<string>) {
    forall id :: id in ids ==> id in rows && rows[id].state.Rank() >= 2
  }

  /** Replaying the log with the conditional updates, every update matches its row. */
  lemma {:induction false} LogMatchesRows(g: Graph, evaluator: Evaluator, rows: Rows, log: seq<Transition>, i: nat)
    requires Covers(g, rows) && Derives(g, evaluator, rows, log) && i < |log|
    ensures Matches(Replay(rows, log[..i]), log[i])
    ensures Replay(rows, log[..i + 1]) == Apply(Replay(rows, log[..i]), log[i]) != Replay(rows, log[..i])
  {
    assert EnabledAt(g, evaluator, rows, log, i);
    assert log[..i + 1][..i] == log[..i];
  }

  /** The dispatch list of an evaluation is exactly the steps that moved to active, each once. */
  lemma {:induction false} DispatchIsActivation(g: Graph, evaluator: Evaluator, rows: Rows, log: seq<Transition>)
    requires Covers(g, rows) && Derives(g, evaluator, rows, log)
    ensures Distinct(Activated(log))
    ensures forall id :: id in Activated(log) <==>
              id in rows && rows[id].state != Active && Replay(rows, log)[id].state == Active
  {
    if log != [] {
      var n := |log| - 1;
      DerivesLast(g, evaluator, rows, log);
      DispatchIsActivation(g, evaluator, rows, log[..n]);
      DerivationLifts(g, evaluator, rows, log[..n]);
      LastActivation(rows, Replay(rows, log[..n]), log);
    }
  }

  lemma {:induction false} LastActivation(rows: Rows, now: Rows, log: seq<Transition>)
    requires log != [] && Lifts(rows, now)
    requires var tr := log[|log| - 1];
             && Matches(now, tr) && now[tr.stepId].state.Open()
             && (tr.kind == ToReady ==> tr.from == Pending)
    requires var done := Activated(log[..|log| - 1]);
             && Distinct(done)
             && forall id :: id in done <==> id in rows && rows[id].state != Active && now[id].state == Active
    ensures Distinct(Activated(log))
    ensures forall id :: id in Activated(log) <==>
              id in rows && rows[id].state != Active && Apply(now, log[|log| - 1])[id].state == Active
  {
  }

  /** Evaluation hands every step to an executor at most once in the whole run, whatever else happens. */
  lemma {:induction false} DispatchedAtMostOnce(env: Env, ast: seq<Step>, run: Run, i: nat)
    requires IsRun(env, ast, run) && i <= |run.actions|
    ensures Distinct(run.cases[i].dispatched) && Started(run.cases[i].rows, run.cases[i].dispatched)
  {
    if i > 0 {
      DispatchedAtMostOnce(env, ast, run, i - 1);
      assert Took(env, ast, run, i - 1);
      NextDispatches(env, ast, run.cases[i - 1], run.actions[i - 1]);
    }
  }

  lemma {:induction false} NextDispatches(env: Env, ast: seq<Step>, c: Case, a: Action)
    requires Allowed(ast, c, a) && Distinct(c.dispatched) && Started(c.rows, c.dispatched)
    ensures var d := Next(env, ast, c, a); Distinct(d.dispatched) && Started(d.rows, d.dispatched)
  {
    if a.Evaluate? && c.status != Cancelled {
      EvaluationDispatches(StepMap(ast), a.evaluator, c.rows, a.log, c.dispatched);
    } else {
      OthersDispatchNothing(env, ast, c, a);
      StartedStays(c.rows, Next(env, ast, c, a).rows, c.dispatched);
    }
  }

  lemma {:induction false} EvaluationDispatches(
    g: Graph, evaluator: Evaluator, rows: Rows, log: seq<Transition>, done: seq<string>)
    requires Covers(g, rows) && Derives(g, evaluator, rows, log) && Distinct(done) && Started(rows, done)
    ensures Distinct(done + Activated(log)) && Started(Replay(rows, log), done + Activated(log))
  {
    DispatchIsActivation(g, evaluator, rows, log);
    DerivationLifts(g, evaluator, rows, log);
    AppendDistinct(done, Activated(log), rows, Replay(rows, log));
  }

  /** No started step falls behind. */
  ghost predicate KeepsStarted(rows: Rows, later: Rows) {
    forall id :: id in rows && rows[id].state.Rank() >= 2 ==> id in later && later[id].state.Rank() >= 2
  }

  lemma StartedStays(rows: Rows, later: Rows, ids: seq<string>)
    requires Started(rows, ids) && KeepsStarted(rows, later)
    ensures Started(later, ids)
  {
  }

  lemma {:induction false} MovesKeepStarted(ast: seq<Step>, c: Case, a: Action, later: Rows)
    requires (!a.Evaluate? || c.status == Cancelled) && Moves(ast, c, a, later)
    ensures KeepsStarted(c.rows, later)
  {
  }

  lemma {:induction false} OthersDispatchNothing(env: Env, ast: seq<Step>, c: Case, a: Action)
    requires !a.Evaluate? || c.status == Cancelled
    ensures Next(env, ast, c, a).dispatched == c.dispatched && KeepsStarted(c.rows, Next(env, ast, c, a).rows)
  {
    NextMoves(env, ast, c, a);
    MovesKeepStarted(ast, c, a, Next(env, ast, c, a).rows);
  }

  /** Steps already started have rank two, and evaluation activates only steps below it. */
  lemma AppendDistinct(done: seq<string>, more: seq<string>, rows: Rows, later: Rows)
    requires Distinct(done) && Distinct(more) && Started(rows, done) && Lifts(rows, later)
    requires forall id :: id in more ==> id in rows && rows[id].state != Active && later[id].state == Active
    ensures Distinct(done + more) && Started(later, done + more)
  {
    forall id | id in more
      ensures id !in done
    {
      assert rows[id] != later[id];
    }
    forall i, j | 0 <= i < j < |done + more|
      ensures (done + more)[i] != (done + more)[j]
    {
      if i < |done| <= j {
        assert (done + more)[i] in done && (done + more)[j] in more;
      }
    }
  }

  // ---- Stalling -----------------------------------------------------------------------------------------------

  /** Right after an evaluation with nothing active, steps are pending exactly when a failure blocks one. */
  lemma {:induction false} RunStallsOnlyBehindFailure(env: Env, ast: seq<Step>, run: Run, i: nat)
    requires IsRun(env, ast, run) && i < |run.actions|
    requires run.actions[i].Evaluate? && run.cases[i].status != Cancelled
    ensures var g, now := StepMap(ast), run.cases[i + 1].rows;
            && Covers(g, now) && NoneIn(g, now, Ready)
            && (NoneIn(g, now, Active) ==> (!NoneIn(g, now, Pending) <==> SomeBlocked(g, now)))
            && (NoneIn(g, now, Active) && NoneIn(g, now, Failed) ==> NoneIn(g, now, Pending))
  {
    assert Took(env, ast, run, i);
    var a := run.actions[i];
    if NoneIn(StepMap(ast), run.cases[i + 1].rows, Active) {
      StallsOnlyBehindFailure(StepMap(ast), a.rank, run.cases[i].rows, a.evaluator, a.log);
    }
  }

  // ---- Cancellation ---------------------------------------------------------------------------------------

  /** A human task is created for a step that is not active at that moment. */
  predicate StrayTask(c: Case, a: Action) {
    a.CreateTask? && a.stepId in c.rows && c.rows[a.stepId].state != Active
  }

  ghost predicate Dormant(rows: Rows) {
    forall id :: id in rows ==> !rows[id].state.Open()
  }

  ghost predicate Activates(rows: Rows, later: Rows) {
    exists id :: id in rows && id in later && rows[id].state != Active && later[id].state == Active
  }

  lemma {:induction false} FirstFiresOpenStep(g: Graph, evaluator: Evaluator, rows: Rows, log: seq<Transition>)
    requires Covers(g, rows) && Derives(g, evaluator, rows, log) && log != []
    ensures log[0].stepId in rows && rows[log[0].stepId].state.Open()
  {
    assert EnabledAt(g, evaluator, rows, log, 0);
    assert log[..0] == [];
  }

  lemma {:induction false} DormantDerivesNothing(g: Graph, evaluator: Evaluator, rows: Rows, log: seq<Transition>)
    requires Covers(g, rows) && Derives(g, evaluator, rows, log) && Dormant(rows)
    ensures log == []
  {
    if log != [] {
      FirstFiresOpenStep(g, evaluator, rows, log);
    }
  }

  lemma {:induction false} MovesStayDormant(ast: seq<Step>, c: Case, a: Action, later: Rows)
    requires Allowed(ast, c, a) && Dormant(c.rows) && Moves(ast, c, a, later)
    ensures Dormant(later) && (Activates(c.rows, later) <==> StrayTask(c, a))
  {
    if a.Evaluate? && c.status != Cancelled {
      DormantDerivesNothing(StepMap(ast), a.evaluator, c.rows, a.log);
    } else if StrayTask(c, a) {
      assert later[a.stepId].state == Active;
    }
  }

  /** A dormant case stays dormant, and only a stray human task can activate a step of it. */
  lemma {:induction false} NextStaysDormant(env: Env, ast: seq<Step>, c: Case, a: Action)
    requires Allowed(ast, c, a) && Dormant(c.rows)
    ensures Dormant(Next(env, ast, c, a).rows)
    ensures Activates(c.rows, Next(env, ast, c, a).rows) <==> StrayTask(c, a)
  {
    NextMoves(env, ast, c, a);
    MovesStayDormant(ast, c, a, Next(env, ast, c, a).rows);
  }

  lemma {:induction false} CancelledIsDormant(env: Env, ast: seq<Step>, run: Run, k: nat)
    requires IsRun(env, ast, run) && k < |run.actions| && run.actions[k] == Cancel
    ensures Dormant(run.cases[k + 1].rows)
  {
    assert Took(env, ast, run, k);
  }

  lemma {:induction false} RunStaysDormant(env: Env, ast: seq<Step>, run: Run, i: nat)
    requires IsRun(env, ast, run) && i < |run.actions| && Dormant(run.cases[i].rows)
    ensures Dormant(run.cases[i + 1].rows)
    ensures Activates(run.cases[i].rows, run.cases[i + 1].rows) <==> StrayTask(run.cases[i], run.actions[i])
  {
    assert Took(env, ast, run, i);
    NextStaysDormant(env, ast, run.cases[i], run.actions[i]);
  }

  /** Once no step is open none ever is again, and only a stray human task activates one. */
  lemma {:induction false} DormancyIsFinal(env: Env, ast: seq<Step>, run: Run, k: nat, i: nat)
    requires IsRun(env, ast, run) && k <= i <= |run.actions| && Dormant(run.cases[k].rows)
    ensures Dormant(run.cases[i].rows)
    ensures i < |run.actions| ==>
              (Activates(run.cases[i].rows, run.cases[i + 1].rows) <==> StrayTask(run.cases[i], run.actions[i]))
  {
    if k < i {
      DormancyIsFinal(env, ast, run, k, i - 1);
      RunStaysDormant(env, ast, run, i - 1);
    }
    if i < |run.actions| {
      RunStaysDormant(env, ast, run, i);
    }
  }

  /**
   * After a cancellation no step is ever pending or ready again, and a later transaction activates a step
   * exactly when it creates a human task for a step that is not active, even once `CloseCase` has overwritten
   * the status.
   */
  lemma {:induction false} CancellationIsFinal(env: Env, ast: seq<Step>, run: Run, k: nat, i: nat)
    requires IsRun(env, ast, run) && k < i <= |run.actions| && run.actions[k] == Cancel
    ensures Dormant(run.cases[i].rows)
    ensures i < |run.actions| ==>
              (Activates(run.cases[i].rows, run.cases[i + 1].rows) <==> StrayTask(run.cases[i], run.actions[i]))
  {
    CancelledIsDormant(env, ast, run, k);
    DormancyIsFinal(env, ast, run, k + 1, i);
  }

  // ---- Versions and data ----------------------------------------------------------------------------------

  lemma {:induction false} NextRaisesVersion(env: Env, ast: seq<Step>, run: Run, i: nat)
    requires IsRun(env, ast, run) && i < |run.actions|
    ensures run.cases[i].version <= run.cases[i + 1].version
    ensures run.cases[i].version == run.cases[i + 1].version ==> run.cases[i].data == run.cases[i + 1].data
  {
    assert Took(env, ast, run, i);
  }

  lemma {:induction false} VersionsRise(env: Env, ast: seq<Step>, run: Run, i: nat, j: nat)
    requires IsRun(env, ast, run) && i <= j <= |run.actions|
    ensures run.cases[i].version <= run.cases[j].version
    ensures run.cases[i].version == run.cases[j].version ==> run.cases[i].data == run.cases[j].data
  {
    if i < j {
      VersionsRise(env, ast, run, i, j - 1);
      NextRaisesVersion(env, ast, run, j - 1);
    }
  }

  /** Two reads of the case that see one version see the same data. */
  lemma {:induction false} VersionIdentifiesData(env: Env, ast: seq<Step>, run: Run, i: nat, j: nat)
    requires IsRun(env, ast, run) && i <= |run.actions| && j <= |run.actions|
    requires run.cases[i].version == run.cases[j].version
    ensures run.cases[i].data == run.cases[j].data
  {
    if i <= j {
      VersionsRise(env, ast, run, i, j);
    } else {
      VersionsRise(env, ast, run, j, i);
    }
  }

  /** A successful patch merges into exactly the data its caller read, however long ago that was. */
  lemma {:induction false} PatchMergesWhatWasRead(env: Env, ast: seq<Step>, run: Run, read: nat, write: nat)
    requires IsRun(env, ast, run) && read <= write < |run.actions|
    requires run.actions[write].PatchData? && run.actions[write].expected == run.cases[read].version
    requires run.cases[write + 1].version != run.cases[write].version
    ensures MergedInto(run.cases[read].data, run.actions[write].patch, run.cases[write + 1].data)
  {
    MergedPlainly(run.cases[read].data, run.actions[write].patch);
    assert Took(env, ast, run, write);
    VersionIdentifiesData(env, ast, run, read, write);
  }
}
