/** Dependency safety: in a run, what was started was started with good reason. */
module DependencySafety {
  import opened Workflow
  import opened Settling
  import opened CaseMachine
  import opened CaseRuns

  // ---- Justified starts -----------------------------------------------------------------------------------

  /** The dependencies of a started step justify its start. */
  ghost predicate Justified(g: Graph, rows: Rows, id: string)
    requires Covers(g, rows) && id in g
  {
    var step, st := g[id], StatesOf(rows);
    || step.dependsOn == []
    || (NormalizedJoin(step.join) == "any" && SomeTerminal(step, st))
    || (NormalizedJoin(step.join) != "any" && AllTerminal(step, st) && SomeIn(step, st, State.Completed)
        && !RoutedAway(g, rows, id))
  }

  predicate HasStarted(s: State) {
    s == Active || s == State.Completed || s == Failed
  }

  ghost predicate DependencySafe(g: Graph, c: Case) {
    && Covers(g, c.rows)
    && (forall id :: id in g && c.rows[id].state == Ready ==> id in c.forced)
    && (forall id :: id in g && HasStarted(c.rows[id].state) && id !in c.forced ==> Justified(g, c.rows, id))
  }

  /** What justified a start stays, because terminal rows are frozen. */
  lemma {:induction false} JustificationStays(g: Graph, rows: Rows, later: Rows, id: string)
    requires Covers(g, rows) && Lifts(rows, later) && id in g && Justified(g, rows, id)
    ensures Justified(g, later, id)
  {
    var step := g[id];
    forall d | d in step.dependsOn && rows[d].state.Terminal()
      ensures later[d] == rows[d]
    {
    }
    if step.dependsOn != [] {
      if NormalizedJoin(step.join) == "any" {
        var d :| d in step.dependsOn && StatesOf(rows)[d].Terminal();
        assert StatesOf(later)[d].Terminal();
      } else {
        var d :| d in step.dependsOn && StatesOf(rows)[d] == State.Completed;
        assert StatesOf(later)[d] == State.Completed;
        assert forall s :: s in step.dependsOn ==> StatesOf(rows)[s].Terminal() && later[s] == rows[s];
        assert RoutedAway(g, later, id) <==> RoutedAway(g, rows, id);
      }
    }
  }

  /** Evaluation activates a pending step only when nothing routes it away and its join says go. */
  lemma {:induction false} ActiveMeansGo(
    g: Graph, rank: map<string, nat>, rows: Rows, evaluator: Evaluator, id: string)
    requires Covers(g, rows) && Ranks(g, rank) && id in g
    requires rows[id].state == Pending && Meaning(g, rank, rows, evaluator, id) == Active
    ensures !RoutedAway(g, rows, id) && Join(g[id], Below(g, rank, rows, evaluator, id)) == Go
  {
  }

  lemma {:induction false} GoJustifies(g: Graph, rows: Rows, id: string)
    requires Covers(g, rows) && id in g && !RoutedAway(g, rows, id) && Join(g[id], StatesOf(rows)) == Go
    ensures Justified(g, rows, id)
  {
  }

  /** A pending step that evaluation activates is justified by the settled dependencies. */
  lemma {:induction false} ActivationIsJustified(
    g: Graph, rank: map<string, nat>, rows: Rows, evaluator: Evaluator, log: seq<Transition>, id: string)
    requires Covers(g, rows) && Ranks(g, rank) && Evaluation(g, rank, rows, evaluator, log) && id in g
    requires rows[id].state == Pending && Replay(rows, log)[id].state == Active
    ensures Covers(g, Replay(rows, log)) && Justified(g, Replay(rows, log), id)
  {
    var now := Replay(rows, log);
    ActiveMeansGo(g, rank, rows, evaluator, id);
    DerivationStaysOnTrack(g, rank, rows, evaluator, log);
    RoutingIsFixed(g, rows, now, id);
    JoinReadsDependencies(g[id], StatesOf(now), Below(g, rank, rows, evaluator, id));
    GoJustifies(g, now, id);
  }

  lemma {:induction false} EvaluationIsSafe(env: Env, ast: seq<Step>, c: Case, a: Action)
    requires a.Evaluate? && c.status != Cancelled && Allowed(ast, c, a) && DependencySafe(StepMap(ast), c)
    ensures DependencySafe(StepMap(ast), Next(env, ast, c, a))
  {
    var g, now := StepMap(ast), Replay(c.rows, a.log);
    DerivationLifts(g, a.evaluator, c.rows, a.log);
    DerivationStaysOnTrack(g, a.rank, c.rows, a.evaluator, a.log);
    forall id | id in g && HasStarted(now[id].state) && id !in c.forced
      ensures Justified(g, now, id)
    {
      if HasStarted(c.rows[id].state) {
        JustificationStays(g, c.rows, now, id);
      } else {
        assert OnTrack(g, a.rank, c.rows, a.evaluator, now, id);
        ActivationIsJustified(g, a.rank, c.rows, a.evaluator, a.log, id);
      }
    }
  }

  /** No transaction but evaluation and a stray task starts a step, and only a fallback readies one. */
  lemma {:induction false} OthersStartNothing(env: Env, ast: seq<Step>, c: Case, a: Action, id: string)
    requires !a.Evaluate? && !StrayTask(c, a) && id in c.rows && id in Next(env, ast, c, a).rows
    ensures var d := Next(env, ast, c, a);
            && (HasStarted(d.rows[id].state) ==> HasStarted(c.rows[id].state))
            && (d.rows[id].state == Ready ==> c.rows[id].state == Ready || id in d.forced)
            && c.forced <= d.forced
  {
    NextMoves(env, ast, c, a);
  }

  lemma {:induction false} NextIsSafe(env: Env, ast: seq<Step>, c: Case, a: Action)
    requires Allowed(ast, c, a) && DependencySafe(StepMap(ast), c) && !StrayTask(c, a)
    ensures DependencySafe(StepMap(ast), Next(env, ast, c, a))
  {
    var g, d := StepMap(ast), Next(env, ast, c, a);
    if a.Evaluate? {
      if c.status != Cancelled {
        EvaluationIsSafe(env, ast, c, a);
      }
    } else {
      NextLifts(env, ast, c, a);
      StillSafe(g, c, d) by {
        forall id | id in g
          ensures (HasStarted(d.rows[id].state) ==> HasStarted(c.rows[id].state))
          ensures (d.rows[id].state == Ready ==> c.rows[id].state == Ready || id in d.forced) && c.forced <= d.forced
        {
          OthersStartNothing(env, ast, c, a, id);
        }
      }
    }
  }

  lemma {:induction false} StillSafe(g: Graph, c: Case, d: Case)
    requires DependencySafe(g, c) && Lifts(c.rows, d.rows)
    requires forall id :: id in g ==>
               && (HasStarted(d.rows[id].state) ==> HasStarted(c.rows[id].state))
               && (d.rows[id].state == Ready ==> c.rows[id].state == Ready || id in d.forced)
               && c.forced <= d.forced
    ensures DependencySafe(g, d)
  {
    forall id | id in g && HasStarted(d.rows[id].state) && id !in d.forced
      ensures Justified(g, d.rows, id)
    {
      JustificationStays(g, c.rows, d.rows, id);
    }
  }

  /** A justification reads nothing but the rows of the step's dependencies. */
  lemma {:induction false} JustificationReadsDependencies(g: Graph, rows: Rows, later: Rows, id: string)
    requires Covers(g, rows) && Covers(g, later) && id in g
    requires forall d :: d in g[id].dependsOn ==> rows[d] == later[d]
    ensures Justified(g, rows, id) <==> Justified(g, later, id)
  {
    var step := g[id];
    assert forall d :: d in step.dependsOn ==> StatesOf(rows)[d] == StatesOf(later)[d];
    assert SomeTerminal(step, StatesOf(rows)) <==> SomeTerminal(step, StatesOf(later));
    assert SomeIn(step, StatesOf(rows), State.Completed) <==> SomeIn(step, StatesOf(later), State.Completed);
    assert RoutedAway(g, rows, id) <==> RoutedAway(g, later, id);
  }

  /** Another dependency of `id` than `d` has ended. */
  ghost predicate OtherEnded(g: Graph, rows: Rows, id: string, d: string)
    requires Covers(g, rows) && id in g
  {
    exists e :: e in g[id].dependsOn && e != d && rows[e].state.Terminal()
  }

  /**
   * The task may be created although its step is not active: the step itself could have been started, and every
   * started step that waits on it is an any join with another dependency ended.
   */
  ghost predicate Harmless(g: Graph, c: Case, id: string)
    requires Covers(g, c.rows) && id in g
  {
    && (id in c.forced || Justified(g, c.rows, id))
    && forall y :: y in g && id in g[y].dependsOn && HasStarted(c.rows[y].state) && y !in c.forced ==>
         NormalizedJoin(g[y].join) == "any" && OtherEnded(g, c.rows, y, id)
  }

  /** A started dependent of a step that becomes active stays justified exactly if it is a served any join. */
  lemma {:induction false} DependentStaysJustified(g: Graph, rows: Rows, id: string, y: string)
    requires Covers(g, rows) && id in g && y in g && id in g[y].dependsOn
    ensures Justified(g, SetState(rows, id, Active), y) <==>
            NormalizedJoin(g[y].join) == "any" && OtherEnded(g, rows, y, id)
  {
    var later := SetState(rows, id, Active);
    assert StatesOf(later)[id] == Active;
    if NormalizedJoin(g[y].join) == "any" {
      if SomeTerminal(g[y], StatesOf(later)) {
        var e :| e in g[y].dependsOn && StatesOf(later)[e].Terminal();
        assert OtherEnded(g, rows, y, id);
      }
      if OtherEnded(g, rows, y, id) {
        var e :| e in g[y].dependsOn && e != id && rows[e].state.Terminal();
        assert StatesOf(later)[e].Terminal();
      }
    }
  }

  lemma {:induction false} ActivatedIsSafeExactly(g: Graph, c: Case, d: Case, id: string)
    requires DependencySafe(g, c) && id in g && id !in g[id].dependsOn
    requires d.rows == SetState(c.rows, id, Active) && d.forced == c.forced
    ensures DependencySafe(g, d) <==> Harmless(g, c, id)
  {
    JustificationReadsDependencies(g, c.rows, d.rows, id);
    forall y | y in g && y != id
      ensures d.rows[y] == c.rows[y]
      ensures id in g[y].dependsOn ==>
                (Justified(g, d.rows, y) <==> NormalizedJoin(g[y].join) == "any" && OtherEnded(g, c.rows, y, id))
      ensures id !in g[y].dependsOn ==> (Justified(g, d.rows, y) <==> Justified(g, c.rows, y))
    {
      if id in g[y].dependsOn {
        DependentStaysJustified(g, c.rows, id, y);
      } else {
        JustificationReadsDependencies(g, c.rows, d.rows, y);
      }
    }
  }

  /** Which tasks, created for a step that is not active, keep the case safe. */
  lemma {:induction false} StrayTaskIsSafeExactly(env: Env, ast: seq<Step>, c: Case, id: string)
    requires DependencySafe(StepMap(ast), c) && id in StepMap(ast) && id !in StepMap(ast)[id].dependsOn
    ensures DependencySafe(StepMap(ast), Next(env, ast, c, CreateTask(id))) <==> Harmless(StepMap(ast), c, id)
  {
    ActivatedIsSafeExactly(StepMap(ast), c, Next(env, ast, c, CreateTask(id)), id);
  }

  ghost predicate HarmlessAt(ast: seq<Step>, c: Case, a: Action) {
    StrayTask(c, a) && a.stepId in StepMap(ast) && Covers(StepMap(ast), c.rows) ==> Harmless(StepMap(ast), c, a.stepId)
  }

  lemma {:induction false} NextIsSafeExactly(env: Env, ast: seq<Step>, c: Case, a: Action)
    requires Allowed(ast, c, a) && DependencySafe(StepMap(ast), c) && c.rows.Keys <= StepMap(ast).Keys
    requires StrayTask(c, a) ==> a.stepId !in StepMap(ast)[a.stepId].dependsOn
    ensures DependencySafe(StepMap(ast), Next(env, ast, c, a)) <==> HarmlessAt(ast, c, a)
  {
    if StrayTask(c, a) {
      StrayTaskIsSafeExactly(env, ast, c, a.stepId);
    } else {
      NextIsSafe(env, ast, c, a);
    }
  }

  lemma {:induction false} NoStepDependsOnItself(ast: seq<Step>, id: string)
    requires WellFormed(ast) && id in StepMap(ast)
    ensures id !in StepMap(ast)[id].dependsOn
  {
    assert !IsCycle(StepMap(ast), [id]);
  }

  lemma {:induction false} RunIsSafeExactly(env: Env, ast: seq<Step>, run: Run, i: nat)
    requires IsRun(env, ast, run) && WellFormed(ast) && i < |run.actions|
    requires DependencySafe(StepMap(ast), run.cases[i])
    ensures DependencySafe(StepMap(ast), run.cases[i + 1]) <==> HarmlessAt(ast, run.cases[i], run.actions[i])
  {
    assert Took(env, ast, run, i);
    RowsKeepTheirSteps(env, ast, run, i);
    if StrayTask(run.cases[i], run.actions[i]) {
      NoStepDependsOnItself(ast, run.actions[i].stepId);
    }
    NextIsSafeExactly(env, ast, run.cases[i], run.actions[i]);
  }

  lemma {:induction false} CreationIsSafe(env: Env, ast: seq<Step>, run: Run)
    requires IsRun(env, ast, run) && WellFormed(ast)
    ensures DependencySafe(StepMap(ast), run.cases[0])
  {
    WellFormedIsClosed(ast);
    StepMapHas(ast, "");
  }

  /** From a safe case the k-th transaction leads to a safe one exactly when it is harmless. */
  ghost predicate SafeExactlyAt(ast: seq<Step>, run: Run, k: nat)
    requires k < |run.actions| < |run.cases|
  {
    DependencySafe(StepMap(ast), run.cases[k]) ==>
      (DependencySafe(StepMap(ast), run.cases[k + 1]) <==> HarmlessAt(ast, run.cases[k], run.actions[k]))
  }

  lemma {:induction false} SafeWhileHarmless(ast: seq<Step>, run: Run, i: nat)
    requires i <= |run.actions| < |run.cases| && DependencySafe(StepMap(ast), run.cases[0])
    requires forall k :: 0 <= k < i ==> SafeExactlyAt(ast, run, k)
    requires forall k :: 0 <= k < i ==> HarmlessAt(ast, run.cases[k], run.actions[k])
    ensures DependencySafe(StepMap(ast), run.cases[i])
  {
    if i > 0 {
      SafeWhileHarmless(ast, run, i - 1);
      assert SafeExactlyAt(ast, run, i - 1);
    }
  }

  /**
   * Dependency safety. Throughout a run every step that is active, completed or failed either was readied by a
   * fallback or has dependencies that justify it, exactly when every human task created for a step that is not
   * active is harmless.
   */
  lemma {:induction false} DependenciesAreRespected(env: Env, ast: seq<Step>, run: Run)
    requires IsRun(env, ast, run) && WellFormed(ast)
    ensures (forall k :: 0 <= k < |run.actions| ==> HarmlessAt(ast, run.cases[k], run.actions[k])) <==>
            (forall i :: 0 <= i <= |run.actions| ==> DependencySafe(StepMap(ast), run.cases[i]))
  {
    CreationIsSafe(env, ast, run);
    forall k | 0 <= k < |run.actions|
      ensures SafeExactlyAt(ast, run, k)
    {
      if DependencySafe(StepMap(ast), run.cases[k]) {
        RunIsSafeExactly(env, ast, run, k);
      }
    }
    SafeThroughoutExactly(ast, run);
  }

  lemma {:induction false} SafeThroughoutExactly(ast: seq<Step>, run: Run)
    requires |run.cases| == |run.actions| + 1 && DependencySafe(StepMap(ast), run.cases[0])
    requires forall k :: 0 <= k < |run.actions| ==> SafeExactlyAt(ast, run, k)
    ensures (forall k :: 0 <= k < |run.actions| ==> HarmlessAt(ast, run.cases[k], run.actions[k])) <==>
            (forall i :: 0 <= i <= |run.actions| ==> DependencySafe(StepMap(ast), run.cases[i]))
  {
    if forall k :: 0 <= k < |run.actions| ==> HarmlessAt(ast, run.cases[k], run.actions[k]) {
      forall i | 0 <= i <= |run.actions|
        ensures DependencySafe(StepMap(ast), run.cases[i])
      {
        SafeWhileHarmless(ast, run, i);
      }
    } else {
      var k :| 0 <= k < |run.actions| && !HarmlessAt(ast, run.cases[k], run.actions[k]);
      assert SafeExactlyAt(ast, run, k);
      assert !DependencySafe(StepMap(ast), run.cases[k]) || !DependencySafe(StepMap(ast), run.cases[k + 1]);
    }
  }
}
