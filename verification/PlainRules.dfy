/**
 * What a successful evaluation does to a step, rule by rule and in the words of the workflow language: outcomes,
 * guards, joins, and what the log says about it.
 */
module PlainRules {
  import opened Common
  import opened Workflow
  import opened Settling

  // ---- Routing --------------------------------------------------------------------------------------------

  /** The step is listed under that outcome of the source. */
  predicate ListedUnder(source: Step, outcome: string, id: string) {
    outcome in source.outcomes && id in source.outcomes[outcome]
  }

  ghost predicate Offers(source: Step, id: string) {
    exists o :: ListedUnder(source, o, id)
  }

  /** Every completed dependency that lists the step under some outcome has chosen one that lists it. */
  ghost predicate Chosen(g: Graph, rows: Rows, id: string)
    requires Covers(g, rows) && id in g
  {
    forall d :: d in g[id].dependsOn && rows[d].state == Completed && Offers(g[d], id) ==>
      ListedUnder(g[d], rows[d].outcome, id)
  }

  lemma {:induction false} ChosenIsKept(g: Graph, rows: Rows, id: string)
    requires Covers(g, rows) && id in g
    ensures Chosen(g, rows, id) <==> !RoutedAway(g, rows, id)
  {
    if RoutedAway(g, rows, id) {
      var d :| d in g[id].dependsOn && RoutesAway(g[d], rows[d], id);
      var o :| o in g[d].outcomes && id in g[d].outcomes[o];
      assert ListedUnder(g[d], o, id);
    }
    if !Chosen(g, rows, id) {
      var d :| d in g[id].dependsOn && rows[d].state == Completed && Offers(g[d], id)
               && !ListedUnder(g[d], rows[d].outcome, id);
      var o :| ListedUnder(g[d], o, id);
      assert RoutesAway(g[d], rows[d], id);
    }
  }

  /** An open step listed under some outcome of a completed dependency, but not under the chosen one, is skipped. */
  lemma {:induction false} UnchosenBranchIsSkipped(
    g: Graph, rank: map<string, nat>, rows: Rows, evaluator: Evaluator, log: seq<Transition>,
    id: string, d: string, o: string)
    requires Covers(g, rows) && Ranks(g, rank) && Evaluation(g, rank, rows, evaluator, log)
    requires id in g && rows[id].state in {Pending, Ready}
    requires d in g[id].dependsOn && rows[d].state == Completed
    requires ListedUnder(g[d], o, id) && !ListedUnder(g[d], rows[d].outcome, id)
    ensures Replay(rows, log)[id].state == Skipped
  {
    ChosenIsKept(g, rows, id);
    assert Offers(g[d], id);
  }

  lemma {:induction false} UnchosenIsSkipped(
    g: Graph, rank: map<string, nat>, rows: Rows, evaluator: Evaluator, log: seq<Transition>, id: string)
    requires Covers(g, rows) && Ranks(g, rank) && Evaluation(g, rank, rows, evaluator, log)
    requires id in g && rows[id].state in {Pending, Ready} && !Chosen(g, rows, id)
    ensures Replay(rows, log)[id].state == Skipped
  {
    ChosenIsKept(g, rows, id);
  }

  // ---- Guards and joins -----------------------------------------------------------------------------------

  /** What becomes of a step that may go: no guard lets it start, a guard lets it start or skips it. */
  predicate Obeys(evaluator: Evaluator, step: Step, final: State) {
    if step.condition == "" then final == Active
    else
      && evaluator.Some?
      && evaluator.value(step.condition) in {Holds, Fails}
      && final == if evaluator.value(step.condition) == Holds then Active else Skipped
  }

  lemma {:induction false} GuardedIsObeyed(evaluator: Evaluator, step: Step)
    requires Guarded(evaluator, step) != Ready
    ensures Obeys(evaluator, step, Guarded(evaluator, step))
  {
  }

  /** A ready step of the chosen branch starts, or is skipped by its guard. */
  lemma {:induction false} ReadyStepObeysItsGuard(
    g: Graph, rank: map<string, nat>, rows: Rows, evaluator: Evaluator, log: seq<Transition>, id: string)
    requires Covers(g, rows) && Ranks(g, rank) && Evaluation(g, rank, rows, evaluator, log)
    requires id in g && rows[id].state == Ready && Chosen(g, rows, id)
    ensures Obeys(evaluator, g[id], Replay(rows, log)[id].state)
  {
    ChosenIsKept(g, rows, id);
    var st := Below(g, rank, rows, evaluator, id);
    GuardedIsObeyed(evaluator, g[id]);
  }

  /** Some dependency ends in one of these states. */
  ghost predicate SomeDependencyIn(g: Graph, now: Rows, id: string, states: set<State>)
    requires Covers(g, now) && id in g
  {
    exists d :: d in g[id].dependsOn && now[d].state in states
  }

  /** How a pending step of the chosen branch ends, given how its dependencies end. */
  ghost predicate JoinsPlainly(g: Graph, evaluator: Evaluator, now: Rows, id: string)
    requires Covers(g, now) && id in g
  {
    var step, final := g[id], now[id].state;
    if step.dependsOn == [] then Obeys(evaluator, step, final)
    else if step.join == "any" then
      if SomeDependencyIn(g, now, id, {Completed, Failed, Skipped}) then Obeys(evaluator, step, final)
      else final == Pending
    else if SomeDependencyIn(g, now, id, {Pending, Ready, Active}) then final == Pending
    else if SomeDependencyIn(g, now, id, {Completed}) then Obeys(evaluator, step, final)
    else if SomeDependencyIn(g, now, id, {Failed}) then final == Pending
    else final == Skipped
  }

  lemma {:induction false} JoinReadsPlainly(g: Graph, now: Rows, id: string)
    requires Covers(g, now) && id in g
    ensures Join(g[id], StatesOf(now)) ==
            if g[id].dependsOn == [] then Go
            else if g[id].join == "any" then
              if SomeDependencyIn(g, now, id, {Completed, Failed, Skipped}) then Go else Wait
            else if SomeDependencyIn(g, now, id, {Pending, Ready, Active}) then Wait
            else if SomeDependencyIn(g, now, id, {Completed}) then Go
            else if SomeDependencyIn(g, now, id, {Failed}) then Wait
            else Skip
  {
    var step, st := g[id], StatesOf(now);
    assert forall d :: d in step.dependsOn ==> st[d] == now[d].state;
    assert SomeTerminal(step, st) <==> SomeDependencyIn(g, now, id, {Completed, Failed, Skipped});
    assert AllTerminal(step, st) <==> !SomeDependencyIn(g, now, id, {Pending, Ready, Active});
    assert SomeIn(step, st, Completed) <==> SomeDependencyIn(g, now, id, {Completed});
    if step.dependsOn != [] {
      assert step.dependsOn[0] in step.dependsOn;
    }
  }

  /** A pending step of the chosen branch ends as its join and guard say, read off the final states. */
  lemma {:induction false} PendingStepObeysItsJoin(
    g: Graph, rank: map<string, nat>, rows: Rows, evaluator: Evaluator, log: seq<Transition>, id: string)
    requires Covers(g, rows) && Ranks(g, rank) && Evaluation(g, rank, rows, evaluator, log)
    requires id in g && rows[id].state == Pending && Chosen(g, rows, id)
    ensures Covers(g, Replay(rows, log)) && JoinsPlainly(g, evaluator, Replay(rows, log), id)
  {
    var now := Replay(rows, log);
    ChosenIsKept(g, rows, id);
    JoinReadsDependencies(g[id], StatesOf(now), Below(g, rank, rows, evaluator, id));
    JoinReadsPlainly(g, now, id);
    if Join(g[id], StatesOf(now)) == Go {
      GuardedIsObeyed(evaluator, g[id]);
    }
  }

  /** A step that has started or ended is left alone, and no evaluation writes an outcome. */
  lemma {:induction false} StartedStepsStay(
    g: Graph, rank: map<string, nat>, rows: Rows, evaluator: Evaluator, log: seq<Transition>, id: string)
    requires Covers(g, rows) && Ranks(g, rank) && Evaluation(g, rank, rows, evaluator, log) && id in g
    ensures Replay(rows, log)[id].outcome == rows[id].outcome
    ensures rows[id].state in {Active, Completed, Failed, Skipped} ==> Replay(rows, log)[id] == rows[id]
  {
    DerivationStaysOnTrack(g, rank, rows, evaluator, log);
  }

  // ---- The log --------------------------------------------------------------------------------------------

  /** What a logged transition says about its step. */
  ghost predicate SaysPlainly(g: Graph, evaluator: Evaluator, rows: Rows, tr: Transition)
    requires Covers(g, rows)
  {
    && tr.stepId in g
    && var step := g[tr.stepId];
       match tr.kind
       case ToReady =>
         && tr.from == Pending && tr.to == Ready && tr.outcome == ""
         && tr.reason ==
            (if step.dependsOn != [] && step.join == "any" then JoinAnySatisfied else DependenciesSatisfied)
       case ToActive =>
         tr.from == Ready && tr.to == Active && tr.outcome == "" && tr.reason == DependenciesSatisfied
       case ToSkipped =>
         && tr.to == Skipped
         && match tr.reason
            case OutcomeRouting =>
              && tr.from in {Pending, Ready}
              && exists d :: d in step.dependsOn && rows[d].state == Completed && rows[d].outcome == tr.outcome
                             && !ListedUnder(g[d], tr.outcome, tr.stepId)
            case SkipPropagation => tr.from == Pending && tr.outcome == "" && step.dependsOn != []
            case GuardFalse =>
              && tr.from == Ready && tr.outcome == "" && step.condition != ""
              && evaluator.Some? && evaluator.value(step.condition) == Fails
            case _ => false
  }

  lemma {:induction false} EnabledSaysPlainly(g: Graph, evaluator: Evaluator, now: Rows, tr: Transition)
    requires Covers(g, now) && Enabled(g, evaluator, now, tr)
    ensures SaysPlainly(g, evaluator, now, tr)
  {
    if tr.reason == OutcomeRouting && tr.kind == ToSkipped {
      var d :| d in g[tr.stepId].dependsOn && RoutesAway(g[d], now[d], tr.stepId) && tr.outcome == now[d].outcome;
      assert !ListedUnder(g[d], tr.outcome, tr.stepId);
    }
  }

  /** Every transition of a log names its true reason. */
  lemma {:induction false} LogSaysPlainly(
    g: Graph, rank: map<string, nat>, rows: Rows, evaluator: Evaluator, log: seq<Transition>, i: nat)
    requires Covers(g, rows) && Ranks(g, rank) && Evaluation(g, rank, rows, evaluator, log) && i < |log|
    ensures SaysPlainly(g, evaluator, rows, log[i])
  {
    assert EnabledAt(g, evaluator, rows, log, i);
    var now := Replay(rows, log[..i]);
    EnabledSaysPlainly(g, evaluator, now, log[i]);
    DerivesPrefix(g, evaluator, rows, log, i);
    DerivationStaysOnTrack(g, rank, rows, evaluator, log[..i]);
    if log[i].kind == ToSkipped && log[i].reason == OutcomeRouting {
      var d :| d in g[log[i].stepId].dependsOn && now[d].state == Completed && now[d].outcome == log[i].outcome
               && !ListedUnder(g[d], log[i].outcome, log[i].stepId);
      assert rows[d].state == Completed && rows[d].outcome == log[i].outcome;
    }
  }
}
