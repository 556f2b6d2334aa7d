/** `computeTransitions`: the three-phase loop that fires transitions until nothing changes. */
module Compute {
  import opened Common
  import opened Workflow
  import opened AstValidation
  import opened Settling

  datatype ComputeError = InvalidAst(error: AstError) | GuardError(stepId: string)

  /** The variables the phases update: `virtual`, `seen`, `transitions` and `changed`. */
  datatype Progress = Progress(virtual: Rows, seen: set<string>, log: seq<Transition>, changed: bool)

  function KindText(kind: Kind): string {
    match kind
    case ToReady => "to_ready"
    case ToActive => "to_active"
    case ToSkipped => "to_skipped"
  }

  function Key(id: string, kind: Kind): string {
    id + ":" + KindText(kind)
  }

  /** The textual keys of the `seen` set never confuse two steps or two kinds. */
  lemma KeyIsInjective(id: string, kind: Kind, id': string, kind': Kind)
    requires Key(id, kind) == Key(id', kind')
    ensures id == id' && kind == kind'
  {
    var key := Key(id, kind);
    assert key[|key| - 1] == KindText(kind)[|KindText(kind)| - 1];
    assert key[|key| - 1] == KindText(kind')[|KindText(kind')| - 1];
    assert id == key[..|key| - |KindText(kind)| - 1];
  }

  /** The state a step must have reached once a kind of transition has been seen for it. */
  predicate Reached(kind: Kind, s: State) {
    match kind
    case ToReady => s != Pending
    case ToActive => s == Active
    case ToSkipped => s == Skipped
  }

  ghost predicate SeenTruthfully(p: Progress) {
    forall id, kind :: id in p.virtual && Key(id, kind) in p.seen ==> Reached(kind, p.virtual[id].state)
  }

  /** The steps that some completed dependency routes away; fixed during the whole evaluation. */
  ghost function Away(g: Graph, rows: Rows): set<string> {
    set id | id in g && RoutedAway(g, rows, id)
  }

  /** The loop invariant: the log derives the virtual rows, and `seen` holds only what was fired. */
  ghost predicate Running(g: Graph, evaluator: Evaluator, rows: Rows, p: Progress) {
    && Covers(g, rows)
    && Derives(g, evaluator, rows, p.log)
    && p.virtual == Replay(rows, p.log)
    && SameCompletions(rows, p.virtual)
    && SeenTruthfully(p)
  }

  function Fire(p: Progress, tr: Transition): Progress
    requires tr.stepId in p.virtual
  {
    Progress(
      p.virtual[tr.stepId := p.virtual[tr.stepId].(state := tr.to)],
      p.seen + {Key(tr.stepId, tr.kind)},
      p.log + [tr],
      true)
  }

  function OpenSteps(rows: Rows): set<string> {
    set id | id in rows && rows[id].state.Open()
  }

  function PendingSteps(rows: Rows): set<string> {
    set id | id in rows && rows[id].state.Pending?
  }

  function ReadySteps(rows: Rows): set<string> {
    set id | id in rows && rows[id].state.Ready?
  }

  /** How a pass moves on from its start: fewer open steps, or as many open but fewer pending ones. */
  ghost predicate Advances(start: Progress, p: Progress) {
    && OpenSteps(p.virtual) <= OpenSteps(start.virtual)
    && PendingSteps(p.virtual) <= PendingSteps(start.virtual)
    && (if p.changed then
          OpenSteps(p.virtual) < OpenSteps(start.virtual) || PendingSteps(p.virtual) < PendingSteps(start.virtual)
        else p.virtual == start.virtual)
  }

  lemma {:induction false} FiringIsSeenTruthfully(p: Progress, tr: Transition)
    requires SeenTruthfully(p) && tr.stepId in p.virtual && p.virtual[tr.stepId].state.Open()
    requires tr.to == Written(tr.kind) && (tr.kind == ToReady ==> p.virtual[tr.stepId].state == Pending)
    ensures SeenTruthfully(Fire(p, tr))
  {
    var q := Fire(p, tr);
    forall id, kind | id in q.virtual && Key(id, kind) in q.seen
      ensures Reached(kind, q.virtual[id].state)
    {
      if Key(id, kind) == Key(tr.stepId, tr.kind) {
        KeyIsInjective(id, kind, tr.stepId, tr.kind);
      } else {
        assert Key(id, kind) in p.seen;
      }
    }
  }

  /** Firing an enabled rule keeps the invariant. */
  lemma {:induction false} FiringKeepsRunning(
    g: Graph, evaluator: Evaluator, rows: Rows, p: Progress, tr: Transition)
    requires Running(g, evaluator, rows, p) && Enabled(g, evaluator, p.virtual, tr)
    ensures Running(g, evaluator, rows, Fire(p, tr))
  {
    DerivesOneMore(g, evaluator, rows, p.log, tr);
    FiringIsSeenTruthfully(p, tr);
    assert Fire(p, tr).virtual == Apply(p.virtual, tr);
  }

  /** An enabled rule is never suppressed by `seen`. */
  method TryFire(
    p: Progress, tr: Transition,
    ghost g: Graph, ghost evaluator: Evaluator, ghost rows: Rows, ghost start: Progress)
    returns (q: Progress)
    requires Running(g, evaluator, rows, p) && Advances(start, p)
    requires Enabled(g, evaluator, p.virtual, tr)
    ensures q == Fire(p, tr)
    ensures Running(g, evaluator, rows, q) && Advances(start, q)
    ensures OpenSteps(q.virtual) <= OpenSteps(p.virtual)
  {
    q := p;
    if Key(tr.stepId, tr.kind) !in p.seen {
      q := Fire(p, tr);
    }
    FiringKeepsRunning(g, evaluator, rows, p, tr);
    Shrinks(g, evaluator, p, tr);
  }

  lemma {:induction false} Shrinks(g: Graph, evaluator: Evaluator, p: Progress, tr: Transition)
    requires Covers(g, p.virtual) && Enabled(g, evaluator, p.virtual, tr)
    ensures OpenSteps(Fire(p, tr).virtual) <= OpenSteps(p.virtual)
    ensures PendingSteps(Fire(p, tr).virtual) <= PendingSteps(p.virtual)
    ensures OpenSteps(Fire(p, tr).virtual) < OpenSteps(p.virtual)
         || PendingSteps(Fire(p, tr).virtual) < PendingSteps(p.virtual)
  {
    var q := Fire(p, tr);
    if tr.to.Open() {
      assert tr.stepId in PendingSteps(p.virtual) && tr.stepId !in PendingSteps(q.virtual);
    } else {
      assert tr.stepId in OpenSteps(p.virtual) && tr.stepId !in OpenSteps(q.virtual);
    }
  }

  // ---- Reverse dependencies -----------------------------------------------------------------------------

  ghost predicate DependsOn(ast: seq<Step>, id: string, d: string) {
    exists i :: 0 <= i < |ast| && ast[i].id == id && d in ast[i].dependsOn
  }

  method ReverseDependencies(ast: seq<Step>) returns (rev: map<string, seq<string>>)
    ensures forall d, id :: id in Dependents(rev, d) <==> DependsOn(ast, id, d)
  {
    rev := map[];
    for i := 0 to |ast|
      invariant forall d, id :: id in Dependents(rev, d) <==> DependsOn(ast[..i], id, d)
    {
      var step := ast[i];
      ghost var before := rev;
      for k := 0 to |step.dependsOn|
        invariant forall d, id ::
          id in Dependents(rev, d) <==> id in Dependents(before, d) || (id == step.id && d in step.dependsOn[..k])
      {
        var dep := step.dependsOn[k];
        assert step.dependsOn[..k + 1] == step.dependsOn[..k] + [dep];
        ghost var sofar := rev;
        rev := rev[dep := Dependents(rev, dep) + [step.id]];
        assert forall d ::
            Dependents(rev, d) == if d == dep then Dependents(sofar, d) + [step.id] else Dependents(sofar, d);
      }
      assert step.dependsOn[..|step.dependsOn|] == step.dependsOn;
      forall d, id
        ensures id in Dependents(rev, d) <==> DependsOn(ast[..i + 1], id, d)
      {
        DependsOnExtends(ast, i, id, d);
      }
    }
    assert ast[..|ast|] == ast;
  }

  lemma DependsOnExtends(ast: seq<Step>, i: nat, id: string, d: string)
    requires i < |ast|
    ensures
      DependsOn(ast[..i + 1], id, d) <==> DependsOn(ast[..i], id, d) || (id == ast[i].id && d in ast[i].dependsOn)
  {
    var longer := ast[..i + 1];
    assert forall j :: 0 <= j < i ==> ast[..i][j] == longer[j];
    if DependsOn(ast[..i], id, d) {
      var j :| 0 <= j < i && ast[..i][j].id == id && d in ast[..i][j].dependsOn;
      assert longer[j].id == id && d in longer[j].dependsOn;
    }
    if id == ast[i].id && d in ast[i].dependsOn {
      assert longer[i].id == id && d in longer[i].dependsOn;
    }
  }

  /** The list `reverse[id]`, empty when the key is absent. */
  function Dependents(rev: map<string, seq<string>>, id: string): seq<string> {
    if id in rev then rev[id] else []
  }

  // ---- The three phases ---------------------------------------------------------------------------------

  /** The graph holds every listed step under its id, and nothing else. */
  ghost predicate Listed(ast: seq<Step>, g: Graph) {
    g == StepMap(ast) && forall i :: 0 <= i < |ast| ==> ast[i].id in g && g[ast[i].id] == ast[i]
  }

  /** What the loop relies on about the workflow once it has been validated. */
  ghost predicate Validated(ast: seq<Step>, g: Graph) {
    && Listed(ast, g)
    && (forall i :: 0 <= i < |ast| ==> ValidJoin(ast[i]))
    && (forall id :: id in g ==> exists i :: 0 <= i < |ast| && ast[i].id == id)
  }

  /** Every step that `source` routes away is no longer open. */
  ghost predicate SourceRouted(g: Graph, rows: Rows, virtual: Rows, source: string)
    requires source in g && source in rows
  {
    forall id :: id in g && source in g[id].dependsOn && RoutesAway(g[source], rows[source], id) ==>
      id !in OpenSteps(virtual)
  }

  /** Routing one dependent of a completed source. */
  method RouteOne(
    source: Step, id: string, p: Progress,
    ghost g: Graph, ghost evaluator: Evaluator, ghost rows: Rows, ghost start: Progress)
    returns (q: Progress)
    requires Running(g, evaluator, rows, p) && Advances(start, p)
    requires source.id in g && g[source.id] == source && rows[source.id].state == Completed
    requires id in g && source.id in g[id].dependsOn
    ensures Running(g, evaluator, rows, q) && Advances(start, q)
    ensures OpenSteps(q.virtual) <= OpenSteps(p.virtual)
    ensures RoutesAway(source, rows[source.id], id) ==> id !in OpenSteps(q.virtual)
    ensures !q.changed ==> q == p
  {
    q := p;
    var outcome := p.virtual[source.id].outcome;
    var allowed := if outcome in source.outcomes then source.outcomes[outcome] else [];
    var from := p.virtual[id].state;
    if Targets(source, id) && id !in allowed && from.Open() {
      var tr := Transition(id, from, Skipped, ToSkipped, OutcomeRouting, outcome);
      assert RoutesAway(g[source.id], p.virtual[source.id], id);
      q := TryFire(p, tr, g, evaluator, rows, start);
    }
  }

  /** The dependents that a source routes away. */
  ghost function AwayFrom(source: Step, row: Row, dependents: seq<string>): set<string> {
    set id | id in dependents && RoutesAway(source, row, id)
  }

  /** Routing from one completed source, over its reverse dependencies. */
  method RouteFrom(
    source: Step, dependents: seq<string>, p: Progress,
    ghost g: Graph, ghost evaluator: Evaluator, ghost rows: Rows, ghost start: Progress)
    returns (q: Progress)
    requires Running(g, evaluator, rows, p) && Advances(start, p)
    requires source.id in g && g[source.id] == source && rows[source.id].state == Completed
    requires forall k :: 0 <= k < |dependents| ==> dependents[k] in g && source.id in g[dependents[k]].dependsOn
    ensures Running(g, evaluator, rows, q) && Advances(start, q)
    ensures OpenSteps(q.virtual) <= OpenSteps(p.virtual)
    ensures AwayFrom(source, rows[source.id], dependents) !! OpenSteps(q.virtual)
    ensures !q.changed ==> q == p
  {
    q := p;
    for k := 0 to |dependents|
      invariant Running(g, evaluator, rows, q) && Advances(start, q)
      invariant OpenSteps(q.virtual) <= OpenSteps(p.virtual)
      invariant AwayFrom(source, rows[source.id], dependents[..k]) !! OpenSteps(q.virtual)
      invariant !q.changed ==> q == p
    {
      q := RouteOne(source, dependents[k], q, g, evaluator, rows, start);
      assert dependents[..k + 1] == dependents[..k] + [dependents[k]];
    }
    assert dependents[..|dependents|] == dependents;
  }

  /** Routing from one step, which does nothing unless it is completed and has outcomes. */
  method RouteSource(
    source: Step, dependents: seq<string>, p: Progress,
    ghost g: Graph, ghost evaluator: Evaluator, ghost rows: Rows, ghost start: Progress)
    returns (q: Progress)
    requires Running(g, evaluator, rows, p) && Advances(start, p)
    requires source.id in g && g[source.id] == source
    requires forall id :: id in dependents <==> id in g && source.id in g[id].dependsOn
    ensures Running(g, evaluator, rows, q) && Advances(start, q)
    ensures OpenSteps(q.virtual) <= OpenSteps(p.virtual)
    ensures SourceRouted(g, rows, q.virtual, source.id)
    ensures !q.changed ==> q == p
  {
    if p.virtual[source.id].state == Completed && |source.outcomes| != 0 {
      assert forall k :: 0 <= k < |dependents| ==> dependents[k] in dependents;
      q := RouteFrom(source, dependents, p, g, evaluator, rows, start);
    } else {
      q := p;
      NothingToRoute(g, rows, p.virtual, source.id);
    }
  }

  /** Phase one: completed steps route away the dependents their chosen outcome does not name. */
  method RoutePhase(
    ast: seq<Step>, rev: map<string, seq<string>>, p: Progress,
    ghost g: Graph, ghost evaluator: Evaluator, ghost rows: Rows, ghost start: Progress)
    returns (q: Progress)
    requires Validated(ast, g) && Running(g, evaluator, rows, p) && Advances(start, p)
    requires forall d, id :: id in Dependents(rev, d) <==> DependsOn(ast, id, d)
    ensures Running(g, evaluator, rows, q) && Advances(start, q)
    ensures OpenSteps(q.virtual) !! Away(g, rows)
    ensures !q.changed ==> q == p
  {
    q := p;
    for i := 0 to |ast|
      invariant Running(g, evaluator, rows, q) && Advances(start, q)
      invariant RoutedSoFar(ast, g, rows, q.virtual, i)
      invariant !q.changed ==> q == p
    {
      ghost var before := q.virtual;
      DependentsAre(ast, g, rev, ast[i].id);
      q := RouteSource(ast[i], Dependents(rev, ast[i].id), q, g, evaluator, rows, start);
      StillRouted(ast, g, rows, before, q.virtual, i);
    }
    AllRouted(ast, g, rows, q.virtual);
  }

  /** The first `n` steps have routed what they route. */
  ghost predicate RoutedSoFar(ast: seq<Step>, g: Graph, rows: Rows, virtual: Rows, n: nat)
    requires Validated(ast, g) && Covers(g, rows) && n <= |ast|
  {
    forall k :: 0 <= k < n ==> SourceRouted(g, rows, virtual, ast[k].id)
  }

  lemma StillRouted(ast: seq<Step>, g: Graph, rows: Rows, before: Rows, after: Rows, n: nat)
    requires Validated(ast, g) && Covers(g, rows) && n < |ast|
    requires RoutedSoFar(ast, g, rows, before, n) && OpenSteps(after) <= OpenSteps(before)
    requires SourceRouted(g, rows, after, ast[n].id)
    ensures RoutedSoFar(ast, g, rows, after, n + 1)
  {
    forall k | 0 <= k < n
      ensures SourceRouted(g, rows, after, ast[k].id)
    {
      assert SourceRouted(g, rows, before, ast[k].id);
    }
  }

  lemma NothingToRoute(g: Graph, rows: Rows, virtual: Rows, source: string)
    requires source in g && SameCompletions(rows, virtual) && source in rows
    requires virtual[source].state != Completed || |g[source].outcomes| == 0
    ensures SourceRouted(g, rows, virtual, source)
  {
    if |g[source].outcomes| == 0 {
      assert g[source].outcomes.Keys == {};
    }
  }

  lemma AllRouted(ast: seq<Step>, g: Graph, rows: Rows, virtual: Rows)
    requires Validated(ast, g) && Covers(g, rows)
    requires RoutedSoFar(ast, g, rows, virtual, |ast|)
    ensures OpenSteps(virtual) !! Away(g, rows)
  {
    forall id | id in Away(g, rows)
      ensures id !in OpenSteps(virtual)
    {
      var d :| d in g[id].dependsOn && d in g && d in rows && RoutesAway(g[d], rows[d], id);
      var k :| 0 <= k < |ast| && ast[k].id == d;
      assert SourceRouted(g, rows, virtual, ast[k].id);
    }
  }

  lemma DependentsAre(ast: seq<Step>, g: Graph, rev: map<string, seq<string>>, d: string)
    requires Validated(ast, g)
    requires forall d, id :: id in Dependents(rev, d) <==> DependsOn(ast, id, d)
    ensures forall id :: id in Dependents(rev, d) <==> id in g && d in g[id].dependsOn
  {
    forall id
      ensures id in Dependents(rev, d) <==> id in g && d in g[id].dependsOn
    {
      if id in g {
        var i :| 0 <= i < |ast| && ast[i].id == id;
        assert d in ast[i].dependsOn ==> DependsOn(ast, id, d);
      }
    }
  }

  /** The dependency counters of the join phase. */
  method CountDependencies(step: Step, virtual: Rows)
    returns (terminal: nat, completed: nat, skipped: nat, allTerminal: bool)
    requires Joinable(step, StatesOf(virtual))
    ensures terminal > 0 <==> SomeTerminal(step, StatesOf(virtual))
    ensures completed > 0 <==> SomeIn(step, StatesOf(virtual), Completed)
    ensures skipped == |step.dependsOn| <==> forall d :: d in step.dependsOn ==> virtual[d].state == Skipped
    ensures allTerminal <==> AllTerminal(step, StatesOf(virtual))
  {
    var deps := step.dependsOn;
    assert forall d :: d in deps ==> d in StatesOf(virtual) && d in virtual;
    terminal, completed, skipped, allTerminal := 0, 0, 0, true;
    for k := 0 to |deps|
      invariant terminal > 0 <==> exists d :: d in deps[..k] && virtual[d].state.Terminal()
      invariant completed > 0 <==> exists d :: d in deps[..k] && virtual[d].state == Completed
      invariant skipped <= k
      invariant skipped == k <==> forall d :: d in deps[..k] ==> virtual[d].state == Skipped
      invariant allTerminal <==> forall d :: d in deps[..k] ==> virtual[d].state.Terminal()
    {
      var s := virtual[deps[k]].state;
      assert deps[..k + 1] == deps[..k] + [deps[k]];
      if s.Terminal() {
        terminal := terminal + 1;
      }
      if s == Completed {
        completed := completed + 1;
      }
      if s == Skipped {
        skipped := skipped + 1;
      }
      if !s.Terminal() {
        allTerminal := false;
      }
    }
    assert deps[..|deps|] == deps;
  }

  /** The join rule for one pending step; `None` when its dependencies do not decide yet. */
  method DecideJoin(step: Step, virtual: Rows) returns (decision: Option<(Kind, Reason)>)
    requires Joinable(step, StatesOf(virtual)) && ValidJoin(step)
    ensures Join(step, StatesOf(virtual)) == Go ==> decision == Some((ToReady, ReadyReason(step)))
    ensures Join(step, StatesOf(virtual)) == Skip ==> decision == Some((ToSkipped, SkipPropagation))
    ensures Join(step, StatesOf(virtual)) == Wait ==> decision == None
  {
    decision := None;
    if |step.dependsOn| == 0 {
      return Some((ToReady, DependenciesSatisfied));
    }
    var terminal, completed, skipped, allTerminal := CountDependencies(step, virtual);
    assert step.dependsOn[0] in step.dependsOn;
    if NormalizedJoin(step.join) == "all" {
      if allTerminal && completed > 0 {
        decision := Some((ToReady, DependenciesSatisfied));
      } else if allTerminal && skipped == |step.dependsOn| {
        decision := Some((ToSkipped, SkipPropagation));
      }
    } else if terminal > 0 {
      decision := Some((ToReady, JoinAnySatisfied));
    }
  }

  /** If the step is pending, its dependencies do not decide its join. */
  ghost predicate Waits(g: Graph, virtual: Rows, id: string) {
    && id in g && id in virtual && Joinable(g[id], StatesOf(virtual))
    && (virtual[id].state == Pending ==> Join(g[id], StatesOf(virtual)) == Wait)
  }

  /** The join rule applied to one step. */
  method JoinOne(
    step: Step, p: Progress,
    ghost g: Graph, ghost evaluator: Evaluator, ghost rows: Rows, ghost start: Progress)
    returns (q: Progress)
    requires Running(g, evaluator, rows, p) && Advances(start, p) && OpenSteps(p.virtual) !! Away(g, rows)
    requires step.id in g && g[step.id] == step && ValidJoin(step)
    ensures Running(g, evaluator, rows, q) && Advances(start, q) && OpenSteps(q.virtual) <= OpenSteps(p.virtual)
    ensures !q.changed ==> q == p
    ensures !q.changed ==> Waits(g, p.virtual, step.id)
  {
    q := p;
    if p.virtual[step.id].state == Pending {
      var decision := DecideJoin(step, p.virtual);
      if decision.Some? {
        var (kind, reason) := decision.value;
        var tr := Transition(step.id, Pending, Written(kind), kind, reason, "");
        assert step.id in OpenSteps(p.virtual);
        RoutingIsFixed(g, rows, p.virtual, step.id);
        q := TryFire(p, tr, g, evaluator, rows, start);
      }
    }
  }

  /** Phase two: pending steps whose join is decided become ready or are skipped. */
  method JoinPhase(
    ast: seq<Step>, p: Progress,
    ghost g: Graph, ghost evaluator: Evaluator, ghost rows: Rows, ghost start: Progress)
    returns (q: Progress)
    requires Validated(ast, g) && Running(g, evaluator, rows, p) && Advances(start, p)
    requires OpenSteps(p.virtual) !! Away(g, rows)
    ensures Running(g, evaluator, rows, q) && Advances(start, q) && OpenSteps(q.virtual) <= OpenSteps(p.virtual)
    ensures !q.changed ==> q == p
    ensures !q.changed ==>
              forall id :: id in g ==> Waits(g, p.virtual, id)
  {
    q := p;
    for i := 0 to |ast|
      invariant Running(g, evaluator, rows, q) && Advances(start, q)
      invariant OpenSteps(q.virtual) <= OpenSteps(p.virtual)
      invariant !q.changed ==> q == p
      invariant !q.changed ==>
        forall id :: id in StepMap(ast[..i]) ==> Waits(g, p.virtual, id)
    {
      assert ast[..i + 1][..i] == ast[..i];
      q := JoinOne(ast[i], q, g, evaluator, rows, start);
    }
    assert ast[..|ast|] == ast;
  }

  /** The guard rule applied to one step; `true` when the guard could not be evaluated. */
  method GuardOne(
    step: Step, evaluator: Evaluator, p: Progress,
    ghost g: Graph, ghost rows: Rows, ghost start: Progress)
    returns (q: Progress, broken: bool)
    requires Running(g, evaluator, rows, p) && Advances(start, p) && OpenSteps(p.virtual) !! Away(g, rows)
    requires step.id in g && g[step.id] == step
    ensures Running(g, evaluator, rows, q) && Advances(start, q) && OpenSteps(q.virtual) <= OpenSteps(p.virtual)
    ensures !q.changed ==> q == p
    ensures !broken ==> ReadySteps(q.virtual) <= ReadySteps(p.virtual) - {step.id}
    ensures broken ==> q == p && p.virtual[step.id].state == Ready && GuardVerdict(evaluator, step) == Broken
  {
    q, broken := p, false;
    if p.virtual[step.id].state == Ready {
      var verdict := GuardVerdict(evaluator, step);
      if verdict == Broken {
        return p, true;
      }
      var tr := if verdict == Fails
        then Transition(step.id, Ready, Skipped, ToSkipped, GuardFalse, "")
        else Transition(step.id, Ready, Active, ToActive, DependenciesSatisfied, "");
      assert step.id in OpenSteps(p.virtual);
      RoutingIsFixed(g, rows, p.virtual, step.id);
      q := TryFire(p, tr, g, evaluator, rows, start);
    }
  }

  /** Phase three: ready steps pass or fail their guard; a broken guard is an error. */
  method GuardPhase(
    ast: seq<Step>, evaluator: Evaluator, p: Progress,
    ghost g: Graph, ghost rows: Rows, ghost start: Progress)
    returns (q: Progress, broken: Option<string>)
    requires Listed(ast, g) && Running(g, evaluator, rows, p) && Advances(start, p)
    requires OpenSteps(p.virtual) !! Away(g, rows)
    ensures Running(g, evaluator, rows, q) && Advances(start, q) && OpenSteps(q.virtual) !! Away(g, rows)
    ensures !q.changed ==> q == p
    ensures broken.None? ==> g.Keys !! ReadySteps(q.virtual)
    ensures broken.Some? ==>
              && broken.value in g && q.virtual[broken.value].state == Ready
              && GuardVerdict(evaluator, g[broken.value]) == Broken
  {
    q, broken := p, None;
    for i := 0 to |ast|
      invariant Running(g, evaluator, rows, q) && Advances(start, q)
      invariant OpenSteps(q.virtual) !! Away(g, rows)
      invariant !q.changed ==> q == p
      invariant StepMap(ast[..i]).Keys !! ReadySteps(q.virtual)
    {
      assert ast[..i + 1][..i] == ast[..i];
      var stuck;
      q, stuck := GuardOne(ast[i], evaluator, q, g, rows, start);
      if stuck {
        return q, Some(ast[i].id);
      }
    }
    assert ast[..|ast|] == ast;
  }

  // ---- The whole computation ----------------------------------------------------------------------------

  /** The rows evaluation starts from: a workflow step without a row counts as pending. */
  function Filled(g: Graph, states: Rows): Rows {
    map id | id in states.Keys + g.Keys :: if id in states then states[id] else Row(Pending, "")
  }

  method FillMissing(ast: seq<Step>, states: Rows) returns (virtual: Rows)
    ensures virtual == Filled(StepMap(ast), states)
  {
    virtual := states;
    for i := 0 to |ast|
      invariant virtual == Filled(StepMap(ast[..i]), states)
    {
      assert ast[..i + 1][..i] == ast[..i];
      if ast[i].id !in virtual {
        virtual := virtual[ast[i].id := Row(Pending, "")];
      }
    }
    assert ast[..|ast|] == ast;
  }

  lemma WellFormedIsValidated(ast: seq<Step>)
    requires WellFormed(ast)
    ensures Validated(ast, StepMap(ast))
  {
    WellFormedIsClosed(ast);
    forall i | 0 <= i < |ast|
      ensures ast[i].id in StepMap(ast) && StepMap(ast)[ast[i].id] == ast[i]
    {
      StepMapAt(ast, i);
    }
    forall id | id in StepMap(ast)
      ensures exists i :: 0 <= i < |ast| && ast[i].id == id
    {
      StepMapHas(ast, id);
    }
  }

  /** A pass that changed nothing has shown that no rule can fire. */
  lemma {:induction false} PassIsQuiet(g: Graph, evaluator: Evaluator, rows: Rows, virtual: Rows)
    requires Covers(g, rows) && SameCompletions(rows, virtual)
    requires OpenSteps(virtual) !! Away(g, rows)
    requires forall id :: id in g ==> Waits(g, virtual, id) && virtual[id].state != Ready
    ensures forall id :: id in g ==> Quiet(g, evaluator, virtual, id)
  {
    forall id | id in g
      ensures Quiet(g, evaluator, virtual, id)
    {
      RoutingIsFixed(g, rows, virtual, id);
      assert virtual[id].state.Open() ==> id in OpenSteps(virtual);
    }
  }

  /** A step held at ready by a broken guard is ready in the meaning too. */
  lemma {:induction false} BrokenIsReady(
    g: Graph, rank: map<string, nat>, rows: Rows, evaluator: Evaluator, log: seq<Transition>, id: string)
    requires Covers(g, rows) && Ranks(g, rank) && Derives(g, evaluator, rows, log) && id in g
    requires Replay(rows, log)[id].state == Ready && GuardVerdict(evaluator, g[id]) == Broken
    requires !RoutedAway(g, rows, id)
    ensures Meaning(g, rank, rows, evaluator, id) == Ready
  {
    DerivationStaysOnTrack(g, rank, rows, evaluator, log);
    assert OnTrack(g, rank, rows, evaluator, Replay(rows, log), id);
    var st := Below(g, rank, rows, evaluator, id);
  }

  /** One pass of the loop body: it advances, or has shown that nothing can move, or meets a broken guard. */
  method Pass(
    ast: seq<Step>, rev: map<string, seq<string>>, evaluator: Evaluator, start: Progress,
    ghost g: Graph, ghost rows: Rows)
    returns (p: Progress, broken: Option<string>)
    requires Validated(ast, g) && Running(g, evaluator, rows, start) && !start.changed
    requires forall d, id :: id in Dependents(rev, d) <==> DependsOn(ast, id, d)
    ensures Running(g, evaluator, rows, p)
    ensures p.changed ==>
              || OpenSteps(p.virtual) < OpenSteps(start.virtual)
              || (OpenSteps(p.virtual) == OpenSteps(start.virtual)
                  && PendingSteps(p.virtual) < PendingSteps(start.virtual))
    ensures !p.changed ==> p == start
    ensures broken.None? ==> forall id :: id in g ==> p.virtual[id].state != Ready
    ensures broken.None? && !p.changed ==> forall id :: id in g ==> Quiet(g, evaluator, p.virtual, id)
    ensures broken.Some? ==>
              && broken.value in g && p.virtual[broken.value].state == Ready
              && GuardVerdict(evaluator, g[broken.value]) == Broken && !RoutedAway(g, rows, broken.value)
  {
    p := RoutePhase(ast, rev, start, g, evaluator, rows, start);
    p := JoinPhase(ast, p, g, evaluator, rows, start);
    p, broken := GuardPhase(ast, evaluator, p, g, rows, start);
    if broken.Some? {
      assert broken.value in OpenSteps(p.virtual);
    } else {
      assert forall id :: id in g && p.virtual[id].state == Ready ==> id in ReadySteps(p.virtual);
      if !p.changed {
        PassIsQuiet(g, evaluator, rows, p.virtual);
      }
    }
  }

  /**
   * The loop refines the recursive meaning. It succeeds exactly when the workflow is well formed and no
   * step's meaning is to be held at ready by a broken guard; the log is then a derivation of the rules
   * that ends in the meaning.
   */
  method ComputeTransitions(ast: seq<Step>, states: Rows, evaluator: Evaluator)
    returns (r: Result<seq<Transition>, ComputeError>, ghost rank: map<string, nat>)
    ensures (r.Err? && r.error.InvalidAst?) <==> !WellFormed(ast)
    ensures WellFormed(ast) ==> Ranks(StepMap(ast), rank) && Covers(StepMap(ast), Filled(StepMap(ast), states))
    ensures r.Ok? ==> Evaluation(StepMap(ast), rank, Filled(StepMap(ast), states), evaluator, r.value)
    ensures r.Err? && r.error.GuardError? ==>
              && r.error.stepId in StepMap(ast) && StepMap(ast)[r.error.stepId].condition != ""
              && (evaluator.None? || evaluator.value(StepMap(ast)[r.error.stepId].condition) == Broken)
              && Meaning(StepMap(ast), rank, Filled(StepMap(ast), states), evaluator, r.error.stepId) == Ready
  {
    var valid;
    valid, rank := ValidateAST(ast);
    if valid.Err? {
      return Err(InvalidAst(valid.error)), rank;
    }
    WellFormedIsValidated(ast);
    ghost var g := StepMap(ast);
    var rev := ReverseDependencies(ast);
    var rows := FillMissing(ast, states);
    var p := Progress(rows, {}, [], true);
    while p.changed
      invariant Running(g, evaluator, rows, p)
      invariant !p.changed ==>
        forall id :: id in g ==> Quiet(g, evaluator, p.virtual, id) && p.virtual[id].state != Ready
      decreases OpenSteps(p.virtual), PendingSteps(p.virtual), p.changed
    {
      var broken;
      p, broken := Pass(ast, rev, evaluator, p.(changed := false), g, rows);
      if broken.Some? {
        BrokenIsReady(g, rank, rows, evaluator, p.log, broken.value);
        return Err(GuardError(broken.value)), rank;
      }
    }
    forall id | id in g
      ensures Replay(rows, p.log)[id].state == Meaning(g, rank, rows, evaluator, id)
    {
      AnyMaximalDerivationMeans(g, rank, rows, evaluator, p.log, id);
    }
    r := Ok(p.log);
  }

  lemma {:induction false} StoredRowsEndAsComputed(g: Graph, evaluator: Evaluator, states: Rows, log: seq<Transition>)
    requires Covers(g, Filled(g, states)) && Derives(g, evaluator, Filled(g, states), log)
    ensures forall id :: id in states ==> Replay(states, log)[id] == Replay(Filled(g, states), log)[id]
  {
    if log != [] {
      DerivesLast(g, evaluator, Filled(g, states), log);
      StoredRowsEndAsComputed(g, evaluator, states, log[..|log| - 1]);
    }
  }

  /**
   * Replaying the log on the stored rows: a transition finds its row exactly when the step has one, and every
   * stored row ends as computed. Only the steps without a row lose their transitions.
   */
  lemma {:induction false} ReplayOnStoredRows(
    g: Graph, evaluator: Evaluator, states: Rows, log: seq<Transition>, i: nat)
    requires Covers(g, Filled(g, states)) && Derives(g, evaluator, Filled(g, states), log) && i < |log|
    ensures Matches(Replay(states, log[..i]), log[i]) <==> log[i].stepId in states
    ensures forall id :: id in states ==> Replay(states, log)[id] == Replay(Filled(g, states), log)[id]
  {
    StoredRowsEndAsComputed(g, evaluator, states, log);
    DerivesPrefix(g, evaluator, Filled(g, states), log, i);
    StoredRowsEndAsComputed(g, evaluator, states, log[..i]);
    assert EnabledAt(g, evaluator, Filled(g, states), log, i);
  }
}
