/**
 * What evaluating a workflow means. Three views are related here: the rules that fire one transition at
 * a time, the recursive meaning over the dependency graph, and the replay of a transition log.
 */
module Settling {
  import opened Common
  import opened Workflow

  /** What evaluating a guard yields; a missing evaluator or an evaluation error is `Broken`. */
  datatype Verdict = Holds | Fails | Broken

  type Evaluator = Option<string -> Verdict>

  datatype Kind = ToReady | ToActive | ToSkipped

  datatype Reason = DependenciesSatisfied | JoinAnySatisfied | GuardFalse | SkipPropagation | OutcomeRouting

  datatype Transition = Transition(
    stepId: string,
    from: State,
    to: State,
    kind: Kind,
    reason: Reason,
    outcome: string)

  datatype JoinVerdict = Go | Skip | Wait

  type States = map<string, State>

  function StatesOf(rows: Rows): States {
    map id | id in rows :: rows[id].state
  }

  function GuardVerdict(evaluator: Evaluator, step: Step): Verdict {
    if step.condition == "" then Holds
    else if evaluator.None? then Broken
    else evaluator.value(step.condition)
  }

  // ---- Joins and routing --------------------------------------------------------------------------

  predicate Joinable(step: Step, st: States) {
    forall d :: d in step.dependsOn ==> d in st
  }

  predicate AllTerminal(step: Step, st: States)
    requires Joinable(step, st)
  {
    forall d :: d in step.dependsOn ==> st[d].Terminal()
  }

  predicate SomeIn(step: Step, st: States, s: State)
    requires Joinable(step, st)
  {
    exists d :: d in step.dependsOn && st[d] == s
  }

  predicate SomeTerminal(step: Step, st: States)
    requires Joinable(step, st)
  {
    exists d :: d in step.dependsOn && st[d].Terminal()
  }

  function Join(step: Step, st: States): JoinVerdict
    requires Joinable(step, st)
  {
    if step.dependsOn == [] then Go
    else if NormalizedJoin(step.join) == "any" then
      if SomeTerminal(step, st) then Go else Wait
    else if AllTerminal(step, st) && SomeIn(step, st, Completed) then Go
    else if forall d :: d in step.dependsOn ==> st[d] == Skipped then Skip
    else Wait
  }

  predicate Targets(source: Step, id: string) {
    exists o :: o in source.outcomes && id in source.outcomes[o]
  }

  /** The completed `source` names `id` under some outcome, but not under the one it chose. */
  predicate RoutesAway(source: Step, row: Row, id: string) {
    && row.state == Completed
    && Targets(source, id)
    && !(row.outcome in source.outcomes && id in source.outcomes[row.outcome])
  }

  ghost predicate RoutedAway(g: Graph, rows: Rows, id: string)
    requires id in g
  {
    exists d :: d in g[id].dependsOn && d in g && d in rows && RoutesAway(g[d], rows[d], id)
  }

  ghost predicate Covers(g: Graph, rows: Rows) {
    Closed(g) && g.Keys <= rows.Keys
  }

  // ---- The recursive meaning ----------------------------------------------------------------------

  /** Where a ready step goes; a broken guard leaves it ready and makes the evaluation fail. */
  function Guarded(evaluator: Evaluator, step: Step): State {
    match GuardVerdict(evaluator, step)
    case Holds => Active
    case Fails => Skipped
    case Broken => Ready
  }

  /** The settled state of one step, given the settled states of its dependencies. */
  ghost function Settle(g: Graph, rows: Rows, evaluator: Evaluator, id: string, st: States): State
    requires id in g && id in rows && Joinable(g[id], st)
  {
    var s := rows[id].state;
    if !s.Open() then s
    else if RoutedAway(g, rows, id) then Skipped
    else if s.Ready? then Guarded(evaluator, g[id])
    else
      match Join(g[id], st)
      case Go => Guarded(evaluator, g[id])
      case Skip => Skipped
      case Wait => Pending
  }

  /** The meaning of a workflow, by recursion along a topological rank. */
  ghost function Meaning(g: Graph, rank: map<string, nat>, rows: Rows, evaluator: Evaluator, id: string): State
    requires Covers(g, rows) && Ranks(g, rank) && id in g
    decreases rank[id]
  {
    Settle(g, rows, evaluator, id, map d | d in g[id].dependsOn :: Meaning(g, rank, rows, evaluator, d))
  }

  /** The meaning of a step's dependencies. */
  ghost function Below(g: Graph, rank: map<string, nat>, rows: Rows, evaluator: Evaluator, id: string): (st: States)
    requires Covers(g, rows) && Ranks(g, rank) && id in g
    ensures Joinable(g[id], st)
    ensures forall d :: d in g[id].dependsOn ==> st[d] == Meaning(g, rank, rows, evaluator, d)
    ensures Meaning(g, rank, rows, evaluator, id) == Settle(g, rows, evaluator, id, st)
  {
    map d | d in g[id].dependsOn :: Meaning(g, rank, rows, evaluator, d)
  }

  /** The same meaning as equations, without any rank. */
  ghost predicate Solution(g: Graph, rows: Rows, evaluator: Evaluator, st: States)
    requires Covers(g, rows)
  {
    && g.Keys <= st.Keys
    && forall id :: id in g ==> st[id] == Settle(g, rows, evaluator, id, st)
  }

  lemma {:induction false} JoinReadsDependencies(step: Step, st: States, other: States)
    requires Joinable(step, st) && Joinable(step, other)
    requires forall d :: d in step.dependsOn ==> st[d] == other[d]
    ensures Join(step, st) == Join(step, other)
  {
    assert SomeTerminal(step, st) <==> SomeTerminal(step, other);
    assert SomeIn(step, st, Completed) <==> SomeIn(step, other, Completed);
  }

  /** The equations have one solution on an acyclic graph, whatever the rank. */
  lemma {:induction false} SolutionIsMeaning(
    g: Graph, rank: map<string, nat>, rows: Rows, evaluator: Evaluator, st: States, id: string)
    requires Covers(g, rows) && Ranks(g, rank) && id in g
    requires Solution(g, rows, evaluator, st)
    ensures st[id] == Meaning(g, rank, rows, evaluator, id)
    decreases rank[id]
  {
    forall d | d in g[id].dependsOn
      ensures st[d] == Meaning(g, rank, rows, evaluator, d)
    {
      SolutionIsMeaning(g, rank, rows, evaluator, st, d);
    }
    JoinReadsDependencies(g[id], st, Below(g, rank, rows, evaluator, id));
  }

  ghost function FinalStates(g: Graph, rank: map<string, nat>, rows: Rows, evaluator: Evaluator): States
    requires Covers(g, rows) && Ranks(g, rank)
  {
    map id | id in g :: Meaning(g, rank, rows, evaluator, id)
  }

  lemma {:induction false} MeaningIsSolution(g: Graph, rank: map<string, nat>, rows: Rows, evaluator: Evaluator)
    requires Covers(g, rows) && Ranks(g, rank)
    ensures Solution(g, rows, evaluator, FinalStates(g, rank, rows, evaluator))
  {
    var st := FinalStates(g, rank, rows, evaluator);
    forall id | id in g
      ensures st[id] == Settle(g, rows, evaluator, id, st)
    {
      JoinReadsDependencies(g[id], st, Below(g, rank, rows, evaluator, id));
    }
  }

  /** Any two ranks give the same meaning. */
  lemma {:induction false} MeaningIgnoresRank(
    g: Graph, rank: map<string, nat>, other: map<string, nat>, rows: Rows, evaluator: Evaluator, id: string)
    requires Covers(g, rows) && Ranks(g, rank) && Ranks(g, other) && id in g
    ensures Meaning(g, rank, rows, evaluator, id) == Meaning(g, other, rows, evaluator, id)
  {
    MeaningIsSolution(g, rank, rows, evaluator);
    SolutionIsMeaning(g, other, rows, evaluator, FinalStates(g, rank, rows, evaluator), id);
  }

  // ---- Transitions as conditional row updates -------------------------------------------------------

  /** The `WHERE` clause of `applyTransitionTx`. */
  predicate Matches(rows: Rows, tr: Transition) {
    && tr.stepId in rows
    && match tr.kind
       case ToReady => rows[tr.stepId].state == tr.from
       case ToSkipped => rows[tr.stepId].state.Open()
       case ToActive => rows[tr.stepId].state == Ready
  }

  function Written(kind: Kind): State {
    match kind
    case ToReady => Ready
    case ToSkipped => Skipped
    case ToActive => Active
  }

  function Apply(rows: Rows, tr: Transition): Rows {
    if Matches(rows, tr) then rows[tr.stepId := rows[tr.stepId].(state := Written(tr.kind))] else rows
  }

  function Replay(rows: Rows, log: seq<Transition>): (r: Rows)
    ensures r.Keys == rows.Keys
  {
    if log == [] then rows else Apply(Replay(rows, log[..|log| - 1]), log[|log| - 1])
  }

  // ---- The rules ------------------------------------------------------------------------------------

  /** `tr` is an instance, with its exact reason and outcome, of a rule that may fire in `rows`. */
  ghost predicate Enabled(g: Graph, evaluator: Evaluator, rows: Rows, tr: Transition)
    requires Covers(g, rows)
  {
    && tr.stepId in g
    && tr.from == rows[tr.stepId].state
    && tr.to == Written(tr.kind)
    && (tr.reason == OutcomeRouting
        || (!RoutedAway(g, rows, tr.stepId) && tr.outcome == ""))
    && var step := g[tr.stepId];
       match tr.kind
       case ToReady =>
         && tr.from == Pending
         && Join(step, StatesOf(rows)) == Go
         && tr.reason == ReadyReason(step)
       case ToActive =>
         && tr.from == Ready
         && GuardVerdict(evaluator, step) == Holds
         && tr.reason == DependenciesSatisfied
       case ToSkipped =>
         match tr.reason
         case OutcomeRouting =>
           && tr.from.Open()
           && exists d :: d in step.dependsOn && RoutesAway(g[d], rows[d], tr.stepId) && tr.outcome == rows[d].outcome
         case SkipPropagation => tr.from == Pending && Join(step, StatesOf(rows)) == Skip
         case GuardFalse => tr.from == Ready && GuardVerdict(evaluator, step) == Fails
         case _ => false
  }

  function ReadyReason(step: Step): Reason {
    if step.dependsOn != [] && NormalizedJoin(step.join) == "any" then JoinAnySatisfied else DependenciesSatisfied
  }

  /** The i-th transition of the log was enabled where it was fired. */
  ghost predicate EnabledAt(g: Graph, evaluator: Evaluator, rows: Rows, log: seq<Transition>, i: nat)
    requires Covers(g, rows) && i < |log|
  {
    Enabled(g, evaluator, Replay(rows, log[..i]), log[i])
  }

  ghost predicate Derives(g: Graph, evaluator: Evaluator, rows: Rows, log: seq<Transition>)
    requires Covers(g, rows)
  {
    forall i :: 0 <= i < |log| ==> EnabledAt(g, evaluator, rows, log, i)
  }

  /** A derivation is a shorter derivation followed by an enabled transition. */
  lemma {:induction false} DerivesOneMore(
    g: Graph, evaluator: Evaluator, rows: Rows, log: seq<Transition>, tr: Transition)
    requires Covers(g, rows)
    ensures Derives(g, evaluator, rows, log + [tr]) <==>
            Derives(g, evaluator, rows, log) && Enabled(g, evaluator, Replay(rows, log), tr)
    ensures Replay(rows, log + [tr]) == Apply(Replay(rows, log), tr)
  {
    var n, all := |log|, log + [tr];
    assert all[..n] == log && all[n] == tr;
    assert EnabledAt(g, evaluator, rows, all, n) <==> Enabled(g, evaluator, Replay(rows, log), tr);
    forall i | 0 <= i < n
      ensures EnabledAt(g, evaluator, rows, all, i) <==> EnabledAt(g, evaluator, rows, log, i)
    {
      assert all[..i] == log[..i] && all[i] == log[i];
    }
    if Derives(g, evaluator, rows, all) {
      assert EnabledAt(g, evaluator, rows, all, n);
      assert forall i :: 0 <= i < n ==> EnabledAt(g, evaluator, rows, all, i);
    }
  }

  lemma {:induction false} DerivesLast(g: Graph, evaluator: Evaluator, rows: Rows, log: seq<Transition>)
    requires Covers(g, rows) && log != [] && Derives(g, evaluator, rows, log)
    ensures Derives(g, evaluator, rows, log[..|log| - 1])
    ensures Enabled(g, evaluator, Replay(rows, log[..|log| - 1]), log[|log| - 1])
  {
    var n := |log| - 1;
    assert log == log[..n] + [log[n]];
    DerivesOneMore(g, evaluator, rows, log[..n], log[n]);
  }

  lemma {:induction false} DerivesPrefix(g: Graph, evaluator: Evaluator, rows: Rows, log: seq<Transition>, n: nat)
    requires Covers(g, rows) && Derives(g, evaluator, rows, log) && n <= |log|
    ensures Derives(g, evaluator, rows, log[..n])
  {
    forall i | 0 <= i < n
      ensures EnabledAt(g, evaluator, rows, log[..n], i)
    {
      assert EnabledAt(g, evaluator, rows, log, i);
      assert log[..n][..i] == log[..i];
    }
  }

  /** No rule can move the step, except that a broken guard may hold it at ready. */
  ghost predicate Quiet(g: Graph, evaluator: Evaluator, rows: Rows, id: string)
    requires Covers(g, rows) && id in g
  {
    var s := rows[id].state;
    && (s.Open() ==> !RoutedAway(g, rows, id))
    && (s.Pending? ==> Join(g[id], StatesOf(rows)) == Wait)
    && (s.Ready? ==> GuardVerdict(evaluator, g[id]) == Broken)
  }

  /** Evaluation neither completes a step nor touches an outcome, so routing is fixed from the start. */
  ghost predicate SameCompletions(rows: Rows, later: Rows) {
    && rows.Keys == later.Keys
    && forall id :: id in rows ==>
         && rows[id].outcome == later[id].outcome
         && (rows[id].state == Completed <==> later[id].state == Completed)
  }

  lemma {:induction false} RoutingIsFixed(g: Graph, rows: Rows, later: Rows, id: string)
    requires id in g && SameCompletions(rows, later)
    ensures RoutedAway(g, rows, id) <==> RoutedAway(g, later, id)
  {
    forall d | d in g && d in rows
      ensures RoutesAway(g[d], rows[d], id) <==> RoutesAway(g[d], later[d], id)
    {
    }
  }

  // ---- Rules and meaning agree ----------------------------------------------------------------------

  /** How far one step may have got on its way from `rows` to the meaning. */
  ghost predicate OnTrack(
    g: Graph, rank: map<string, nat>, rows: Rows, evaluator: Evaluator, now: Rows, id: string)
    requires Covers(g, rows) && Covers(g, now) && Ranks(g, rank) && id in g
  {
    var start, s, final := rows[id].state, now[id].state, Meaning(g, rank, rows, evaluator, id);
    || s == final
    || (start.Open() && s == start)
    || (start.Pending? && s.Ready? && !RoutedAway(g, rows, id) && final == Guarded(evaluator, g[id]))
  }

  ghost predicate Tracks(g: Graph, rank: map<string, nat>, rows: Rows, evaluator: Evaluator, now: Rows)
    requires Covers(g, rows) && Ranks(g, rank)
  {
    && SameCompletions(rows, now)
    && forall id :: id in g ==> OnTrack(g, rank, rows, evaluator, now, id)
  }

  /** A join that has been decided on the way is decided the same by the meaning. */
  lemma {:induction false} DecidedJoinIsFinal(
    g: Graph, rank: map<string, nat>, rows: Rows, evaluator: Evaluator, now: Rows, id: string)
    requires Covers(g, rows) && Ranks(g, rank) && id in g
    requires Tracks(g, rank, rows, evaluator, now)
    requires Join(g[id], StatesOf(now)) != Wait
    ensures Join(g[id], Below(g, rank, rows, evaluator, id))
         == Join(g[id], StatesOf(now))
  {
    var step := g[id];
    var st := Below(g, rank, rows, evaluator, id);
    forall d | d in step.dependsOn && now[d].state.Terminal()
      ensures st[d] == now[d].state
    {
      assert OnTrack(g, rank, rows, evaluator, now, d);
    }
    if AllTerminal(step, StatesOf(now)) {
      JoinReadsDependencies(step, st, StatesOf(now));
    } else {
      assert SomeTerminal(step, StatesOf(now));
      var d :| d in step.dependsOn && now[d].state.Terminal();
      assert SomeTerminal(step, st);
    }
  }

  lemma {:induction false} FiredStepOnTrack(
    g: Graph, rank: map<string, nat>, rows: Rows, evaluator: Evaluator, now: Rows, tr: Transition)
    requires Covers(g, rows) && Ranks(g, rank)
    requires Tracks(g, rank, rows, evaluator, now) && Enabled(g, evaluator, now, tr)
    ensures OnTrack(g, rank, rows, evaluator, Apply(now, tr), tr.stepId)
  {
    RoutingIsFixed(g, rows, now, tr.stepId);
    assert OnTrack(g, rank, rows, evaluator, now, tr.stepId);
    if tr.from == Pending && tr.reason != OutcomeRouting {
      DecidedJoinIsFinal(g, rank, rows, evaluator, now, tr.stepId);
    }
  }

  /** Firing an enabled rule stays on the way to the meaning. */
  lemma {:induction false} FiringStaysOnTrack(
    g: Graph, rank: map<string, nat>, rows: Rows, evaluator: Evaluator, now: Rows, tr: Transition)
    requires Covers(g, rows) && Ranks(g, rank)
    requires Tracks(g, rank, rows, evaluator, now) && Enabled(g, evaluator, now, tr)
    ensures Tracks(g, rank, rows, evaluator, Apply(now, tr))
  {
    var next := Apply(now, tr);
    FiredStepOnTrack(g, rank, rows, evaluator, now, tr);
    forall other | other in g && other != tr.stepId
      ensures OnTrack(g, rank, rows, evaluator, next, other)
    {
      assert OnTrack(g, rank, rows, evaluator, now, other);
    }
  }

  lemma {:induction false} DerivationStaysOnTrack(
    g: Graph, rank: map<string, nat>, rows: Rows, evaluator: Evaluator, log: seq<Transition>)
    requires Covers(g, rows) && Ranks(g, rank) && Derives(g, evaluator, rows, log)
    ensures Tracks(g, rank, rows, evaluator, Replay(rows, log))
  {
    if log == [] {
      assert forall id :: id in g ==> OnTrack(g, rank, rows, evaluator, rows, id);
    } else {
      var n := |log| - 1;
      DerivesLast(g, evaluator, rows, log);
      DerivationStaysOnTrack(g, rank, rows, evaluator, log[..n]);
      FiringStaysOnTrack(g, rank, rows, evaluator, Replay(rows, log[..n]), log[n]);
    }
  }

  /** When no rule can fire, the states are the meaning. */
  lemma {:induction false} QuietIsMeaning(
    g: Graph, rank: map<string, nat>, rows: Rows, evaluator: Evaluator, now: Rows, id: string)
    requires Covers(g, rows) && Ranks(g, rank) && id in g
    requires Tracks(g, rank, rows, evaluator, now)
    requires forall x :: x in g ==> Quiet(g, evaluator, now, x)
    ensures now[id].state == Meaning(g, rank, rows, evaluator, id)
    decreases rank[id]
  {
    forall d | d in g[id].dependsOn
      ensures now[d].state == Meaning(g, rank, rows, evaluator, d)
    {
      QuietIsMeaning(g, rank, rows, evaluator, now, d);
    }
    JoinReadsDependencies(
      g[id], StatesOf(now), Below(g, rank, rows, evaluator, id));
    RoutingIsFixed(g, rows, now, id);
    assert OnTrack(g, rank, rows, evaluator, now, id) && Quiet(g, evaluator, now, id);
  }

  /**
   * Confluence: whichever enabled rules are fired, in whatever order, once none is left the states are
   * those of the recursive meaning.
   */
  lemma {:induction false} AnyMaximalDerivationMeans(
    g: Graph, rank: map<string, nat>, rows: Rows, evaluator: Evaluator, log: seq<Transition>, id: string)
    requires Covers(g, rows) && Ranks(g, rank) && id in g
    requires Derives(g, evaluator, rows, log)
    requires forall x :: x in g ==> Quiet(g, evaluator, Replay(rows, log), x)
    ensures Replay(rows, log)[id].state == Meaning(g, rank, rows, evaluator, id)
  {
    DerivationStaysOnTrack(g, rank, rows, evaluator, log);
    QuietIsMeaning(g, rank, rows, evaluator, Replay(rows, log), id);
  }

  // ---- What a successful evaluation is ----------------------------------------------------------------

  /** The contract of a successful evaluation: a derivation that ends in the meaning, with nothing left ready. */
  ghost predicate Evaluation(
    g: Graph, rank: map<string, nat>, rows: Rows, evaluator: Evaluator, log: seq<Transition>)
    requires Covers(g, rows) && Ranks(g, rank)
  {
    && Derives(g, evaluator, rows, log)
    && forall id :: id in g ==>
         && Replay(rows, log)[id].state == Meaning(g, rank, rows, evaluator, id)
         && Replay(rows, log)[id].state != Ready
  }

  /** Two successful evaluations of one graph, whatever ranks they were measured with, end in the same rows. */
  lemma {:induction false} EvaluationsAgree(
    g: Graph, rank: map<string, nat>, rank': map<string, nat>, rows: Rows, evaluator: Evaluator,
    log: seq<Transition>, log': seq<Transition>)
    requires Covers(g, rows) && Ranks(g, rank) && Ranks(g, rank')
    requires Evaluation(g, rank, rows, evaluator, log) && Evaluation(g, rank', rows, evaluator, log')
    ensures Replay(rows, log) == Replay(rows, log')
  {
    DerivationStaysOnTrack(g, rank, rows, evaluator, log);
    DerivationStaysOnTrack(g, rank, rows, evaluator, log');
    DerivationKeepsOthers(g, evaluator, rows, log);
    DerivationKeepsOthers(g, evaluator, rows, log');
    forall id | id in rows
      ensures Replay(rows, log)[id] == Replay(rows, log')[id]
    {
      if id in g {
        MeaningIgnoresRank(g, rank, rank', rows, evaluator, id);
      }
    }
  }

  /**
   * The order in which a workflow lists its steps decides nothing: if evaluation succeeds for one listing, every
   * other listing is well formed, no broken guard stops its evaluation, and it ends in the same rows.
   */
  lemma {:induction false} EvaluationIgnoresOrder(
    ast: seq<Step>, other: seq<Step>, rank: map<string, nat>, rank': map<string, nat>,
    rows: Rows, evaluator: Evaluator, log: seq<Transition>)
    requires WellFormed(ast) && multiset(ast) == multiset(other)
    requires Covers(StepMap(ast), rows) && Ranks(StepMap(ast), rank)
    requires Evaluation(StepMap(ast), rank, rows, evaluator, log)
    ensures WellFormed(other) && Covers(StepMap(other), rows)
    ensures Ranks(StepMap(other), rank') ==>
              && (forall id :: id in StepMap(other) ==> Meaning(StepMap(other), rank', rows, evaluator, id) != Ready)
              && (forall log' :: Evaluation(StepMap(other), rank', rows, evaluator, log') ==>
                    Replay(rows, log') == Replay(rows, log))
  {
    WellFormedIgnoresOrder(ast, other);
    var g := StepMap(ast);
    if Ranks(g, rank') {
      forall id | id in g
        ensures Meaning(g, rank', rows, evaluator, id) != Ready
      {
        MeaningIgnoresRank(g, rank, rank', rows, evaluator, id);
      }
      forall log' | Evaluation(g, rank', rows, evaluator, log')
        ensures Replay(rows, log') == Replay(rows, log)
      {
        EvaluationsAgree(g, rank, rank', rows, evaluator, log, log');
      }
    }
  }

  /** Rows of steps outside the workflow are left alone. */
  lemma {:induction false} DerivationKeepsOthers(g: Graph, evaluator: Evaluator, rows: Rows, log: seq<Transition>)
    requires Covers(g, rows) && Derives(g, evaluator, rows, log)
    ensures Replay(rows, log).Keys == rows.Keys
    ensures forall id :: id in rows && id !in g ==> Replay(rows, log)[id] == rows[id]
  {
    if log != [] {
      DerivesLast(g, evaluator, rows, log);
      DerivationKeepsOthers(g, evaluator, rows, log[..|log| - 1]);
    }
  }

  /** Every firing raises the rank of its step, so a derivation never lowers one. */
  lemma {:induction false} DerivationRaises(g: Graph, evaluator: Evaluator, rows: Rows, log: seq<Transition>)
    requires Covers(g, rows) && Derives(g, evaluator, rows, log)
    ensures Replay(rows, log).Keys == rows.Keys
    ensures forall id :: id in rows ==> rows[id].state.Rank() <= Replay(rows, log)[id].state.Rank()
    ensures log != [] ==>
              var id := log[|log| - 1].stepId;
              id in g && rows[id].state.Rank() < Replay(rows, log)[id].state.Rank()
  {
    if log != [] {
      DerivesLast(g, evaluator, rows, log);
      DerivationRaises(g, evaluator, rows, log[..|log| - 1]);
    }
  }

  /** A settled step keeps its state when evaluation starts from the settled rows. */
  lemma {:induction false} SettledStaysSettled(
    g: Graph, rank: map<string, nat>, rows: Rows, evaluator: Evaluator, settled: Rows, id: string)
    requires Covers(g, rows) && Ranks(g, rank) && id in g
    requires SameCompletions(rows, settled)
    requires forall x :: x in g ==>
               settled[x].state == Meaning(g, rank, rows, evaluator, x) && settled[x].state != Ready
    ensures settled[id].state == Settle(g, settled, evaluator, id, StatesOf(settled))
  {
    RoutingIsFixed(g, rows, settled, id);
    JoinReadsDependencies(g[id], StatesOf(settled), Below(g, rank, rows, evaluator, id));
  }

  /**
   * Evaluating a settled workflow again, with the same guards, succeeds and finds nothing to do: the empty log is
   * an evaluation of the settled rows, and the only one.
   */
  lemma {:induction false} EvaluationIsIdempotent(
    g: Graph, rank: map<string, nat>, rows: Rows, evaluator: Evaluator, log: seq<Transition>)
    requires Covers(g, rows) && Ranks(g, rank)
    requires Evaluation(g, rank, rows, evaluator, log)
    ensures Covers(g, Replay(rows, log)) && Evaluation(g, rank, Replay(rows, log), evaluator, [])
    ensures forall again :: Evaluation(g, rank, Replay(rows, log), evaluator, again) ==> again == []
  {
    var settled := Replay(rows, log);
    DerivationStaysOnTrack(g, rank, rows, evaluator, log);
    forall id | id in g
      ensures settled[id].state == Settle(g, settled, evaluator, id, StatesOf(settled))
    {
      SettledStaysSettled(g, rank, rows, evaluator, settled, id);
    }
    forall id | id in g
      ensures settled[id].state == Meaning(g, rank, settled, evaluator, id)
    {
      SolutionIsMeaning(g, rank, settled, evaluator, StatesOf(settled), id);
    }
    assert Replay(settled, []) == settled;
    forall again | Evaluation(g, rank, settled, evaluator, again)
      ensures again == []
    {
      NothingRaised(g, rank, settled, evaluator, again);
    }
  }

  lemma {:induction false} NothingRaised(
    g: Graph, rank: map<string, nat>, rows: Rows, evaluator: Evaluator, log: seq<Transition>)
    requires Covers(g, rows) && Ranks(g, rank) && Evaluation(g, rank, rows, evaluator, log)
    requires forall id :: id in g ==> rows[id].state == Meaning(g, rank, rows, evaluator, id)
    ensures log == []
  {
    DerivationRaises(g, evaluator, rows, log);
  }

  // ---- Stalling -----------------------------------------------------------------------------------------

  /** A pending all-join step whose dependencies are done, none of them well and one of them failed. */
  ghost predicate Blocked(g: Graph, rows: Rows, id: string)
    requires Covers(g, rows)
  {
    && id in g
    && rows[id].state == Pending
    && NormalizedJoin(g[id].join) != "any"
    && AllTerminal(g[id], StatesOf(rows))
    && !SomeIn(g[id], StatesOf(rows), Completed)
    && SomeIn(g[id], StatesOf(rows), Failed)
  }

  ghost predicate NoneIn(g: Graph, rows: Rows, s: State)
    requires Covers(g, rows)
  {
    forall id :: id in g ==> rows[id].state != s
  }

  ghost predicate SomeBlocked(g: Graph, rows: Rows)
    requires Covers(g, rows)
  {
    exists id :: Blocked(g, rows, id)
  }

  lemma {:induction false} PendingLeadsToBlocked(
    g: Graph, rank: map<string, nat>, rows: Rows, evaluator: Evaluator, id: string)
    requires Covers(g, rows) && Ranks(g, rank) && id in g
    requires forall x :: x in g ==> Quiet(g, evaluator, rows, x)
    requires NoneIn(g, rows, Ready) && NoneIn(g, rows, Active)
    requires rows[id].state == Pending
    ensures SomeBlocked(g, rows)
    decreases rank[id]
  {
    assert Quiet(g, evaluator, rows, id);
    if d :| d in g[id].dependsOn && rows[d].state == Pending {
      PendingLeadsToBlocked(g, rank, rows, evaluator, d);
    } else {
      assert g[id].dependsOn != [] && g[id].dependsOn[0] in g[id].dependsOn;
      assert forall d :: d in g[id].dependsOn ==> rows[d].state.Terminal();
      assert Blocked(g, rows, id);
    }
  }

  /**
   * Stall freedom: with nothing active, an evaluated workflow still has a pending step exactly when some
   * pending all-join step is blocked by a failure. Without a failure every step is completed or skipped.
   */
  lemma {:induction false} StallsOnlyBehindFailure(
    g: Graph, rank: map<string, nat>, rows: Rows, evaluator: Evaluator, log: seq<Transition>)
    requires Covers(g, rows) && Ranks(g, rank) && Evaluation(g, rank, rows, evaluator, log)
    requires NoneIn(g, Replay(rows, log), Active)
    ensures !NoneIn(g, Replay(rows, log), Pending) <==> SomeBlocked(g, Replay(rows, log))
    ensures NoneIn(g, Replay(rows, log), Failed) ==>
              forall id :: id in g ==> Replay(rows, log)[id].state in {Completed, Skipped}
  {
    var now := Replay(rows, log);
    forall id | id in g
      ensures Quiet(g, evaluator, now, id)
    {
      EvaluatedIsQuiet(g, rank, rows, evaluator, log, id);
    }
    forall id | id in g && now[id].state == Pending
      ensures SomeBlocked(g, now)
    {
      PendingLeadsToBlocked(g, rank, now, evaluator, id);
    }
    if SomeBlocked(g, now) {
      var b :| Blocked(g, now, b);
      assert !NoneIn(g, now, Pending) && !NoneIn(g, now, Failed);
    }
  }

  lemma {:induction false} EvaluatedIsQuiet(
    g: Graph, rank: map<string, nat>, rows: Rows, evaluator: Evaluator, log: seq<Transition>, id: string)
    requires Covers(g, rows) && Ranks(g, rank) && Evaluation(g, rank, rows, evaluator, log) && id in g
    ensures Covers(g, Replay(rows, log)) && Quiet(g, evaluator, Replay(rows, log), id)
  {
    var now := Replay(rows, log);
    DerivationStaysOnTrack(g, rank, rows, evaluator, log);
    RoutingIsFixed(g, rows, now, id);
    JoinReadsDependencies(
      g[id], StatesOf(now), Below(g, rank, rows, evaluator, id));
  }
}
