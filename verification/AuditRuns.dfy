/** The audit trail of a case, in every run. */
module AuditRuns {
  import opened Common
  import opened Workflow
  import opened Settling
  import opened JsonText
  import opened AuditChain
  import opened AuditCommitment
  import opened MergeData
  import opened CaseMachine

  ghost predicate Sound(env: Env, events: seq<Event>) {
    Increasing(events) && Chain(env.sch, env.caseId, events)
  }

  /** The n-th event was recorded while the clock stood at or before Go's zero time, right after one stamped with it. */
  predicate ClockLostAt(env: Env, events: seq<Event>, n: nat)
    requires n < |events|
  {
    ClockLost(events[..n], env.clock(n) / 1000)
  }

  ghost predicate ClockKept(env: Env, events: seq<Event>) {
    forall n :: 0 <= n < |events| ==> !ClockLostAt(env, events, n)
  }

  /** The clock was kept, or the trail happens to be a chain all the same. */
  ghost predicate Verifies(env: Env, events: seq<Event>) {
    ClockKept(env, events) || Chain(env.sch, env.caseId, events)
  }

  /** The trail is sound exactly if the clock was kept, and otherwise its timestamps do not increase. */
  ghost predicate Judged(env: Env, events: seq<Event>) {
    && (Increasing(events) <==> ClockKept(env, events))
    && (ClockKept(env, events) ==> Sound(env, events))
  }

  lemma {:induction false} ClockKeptGrows(env: Env, events: seq<Event>, e: Event)
    ensures ClockKept(env, events + [e]) <==>
            ClockKept(env, events) && !ClockLost(events, env.clock(|events|) / 1000)
  {
    var longer := events + [e];
    assert longer[..|events|] == events;
    forall n | 0 <= n < |events|
      ensures ClockLostAt(env, longer, n) <==> ClockLostAt(env, events, n)
    {
      assert longer[..n] == events[..n];
    }
    if ClockKept(env, longer) {
      assert !ClockLostAt(env, longer, |events|);
      assert forall n :: 0 <= n < |events| ==> !ClockLostAt(env, longer, n);
    }
  }

  lemma {:induction false} NoteIsJudged(
    env: Env, events: seq<Event>, stepId: string, eventType: string, actorType: string, action: string)
    requires Judged(env, events)
    ensures Judged(env, Note(env, events, stepId, eventType, actorType, action))
  {
    var n := |events|;
    var entry := EntryFor(env, n, stepId, eventType, actorType, action);
    TrailGrows(env.sch, env.caseId, events, entry, env.clock(n) / 1000);
    if IsRegistered(eventType, action) {
      ClockKeptGrows(env, events, NewEvent(env.sch, env.caseId, events, entry, env.clock(n) / 1000));
    }
  }

  lemma {:induction false} NoteLogIsJudged(env: Env, events: seq<Event>, log: seq<Transition>)
    requires Judged(env, events)
    ensures Judged(env, NoteLog(env, events, log))
  {
    if log != [] {
      var n := |log| - 1;
      NoteLogIsJudged(env, events, log[..n]);
      NoteIsJudged(env, NoteLog(env, events, log[..n]), log[n].stepId, "step", "system", "activated");
      NoteIsJudged(env, NoteLog(env, events, log[..n]), log[n].stepId, "step", "system", "skipped");
    }
  }

  lemma {:induction false} TrailIsJudged(env: Env, ast: seq<Step>, run: Run, i: nat)
    requires IsRun(env, ast, run) && i <= |run.actions|
    ensures Judged(env, run.cases[i].events)
  {
    if i == 0 {
      NoteIsJudged(env, [], "", "case", "human", "created");
    } else {
      TrailIsJudged(env, ast, run, i - 1);
      RunGrows(env, ast, run, i - 1);
      GrowthIsJudged(env, run.cases[i - 1].events, run.cases[i].events);
    }
  }

  /**
   * In every run the audit trail of the case is a chain with strictly increasing timestamps exactly when no event
   * was recorded while the clock was lost at Go's zero time.
   */
  lemma {:induction false} TrailIsSoundExactly(env: Env, ast: seq<Step>, run: Run, i: nat)
    requires IsRun(env, ast, run) && i <= |run.actions|
    ensures Sound(env, run.cases[i].events) <==> ClockKept(env, run.cases[i].events)
  {
    TrailIsJudged(env, ast, run, i);
  }

  /** The trail stands as it was, or got one more event, or those of a transition log. */
  ghost predicate Grew(env: Env, events: seq<Event>, later: seq<Event>) {
    || later == events
    || (exists stepId, eventType, actorType, action ::
          later == Note(env, events, stepId, eventType, actorType, action))
    || (exists log :: later == NoteLog(env, events, log))
  }

  lemma {:induction false} NextGrows(env: Env, ast: seq<Step>, c: Case, a: Action)
    ensures Grew(env, c.events, Next(env, ast, c, a).events)
  {
    match a
    case Evaluate(_, _, log) =>
      assert c.status != Cancelled ==> Next(env, ast, c, a).events == NoteLog(env, c.events, log);
    case Complete(id, _, _, auditType) =>
      var (eventType, action) := AuditPair(auditType);
      assert Next(env, ast, c, a).events in {c.events, Note(env, c.events, id, eventType, "system", action)};
    case Fail(id) => assert Next(env, ast, c, a).events == Note(env, c.events, id, "step", "system", "failed");
    case SkipExhausted(id) =>
      assert Next(env, ast, c, a).events == Note(env, c.events, id, "step", "system", "skipped");
    case Fallback(_) =>
    case Cancel => assert Next(env, ast, c, a).events == Note(env, c.events, "", "case", "human", "cancelled");
    case Close => assert Next(env, ast, c, a).events == Note(env, c.events, "", "case", "human", "closed");
    case PatchData(_, _, _, actorType) =>
      assert Next(env, ast, c, a).events in {c.events, Note(env, c.events, "", "case", actorType, "updated")};
    case AppendData(_, _) =>
    case Remark(id, eventType, actorType, action) =>
      assert Next(env, ast, c, a).events == Note(env, c.events, id, eventType, actorType, action);
    case CreateTask(id) => assert Next(env, ast, c, a).events == Note(env, c.events, id, "task", "system", "created");
  }

  lemma {:induction false} RunGrows(env: Env, ast: seq<Step>, run: Run, i: nat)
    requires IsRun(env, ast, run) && i < |run.actions|
    ensures Grew(env, run.cases[i].events, run.cases[i + 1].events)
  {
    assert Took(env, ast, run, i);
    NextGrows(env, ast, run.cases[i], run.actions[i]);
  }

  lemma {:induction false} GrowthIsJudged(env: Env, events: seq<Event>, later: seq<Event>)
    requires Judged(env, events) && Grew(env, events, later)
    ensures Judged(env, later)
  {
    if stepId, eventType, actorType, action :| later == Note(env, events, stepId, eventType, actorType, action) {
      NoteIsJudged(env, events, stepId, eventType, actorType, action);
    } else if log :| later == NoteLog(env, events, log) {
      NoteLogIsJudged(env, events, log);
    }
  }

  lemma {:induction false} GrowthKeepsProper(env: Env, events: seq<Event>, later: seq<Event>)
    requires ProperEnv(env) && AllProper(events) && Grew(env, events, later)
    ensures AllProper(later)
  {
    if stepId, eventType, actorType, action :| later == Note(env, events, stepId, eventType, actorType, action) {
      NoteIsProper(env, events, stepId, eventType, actorType, action);
    } else if log :| later == NoteLog(env, events, log) {
      NoteLogIsProper(env, events, log);
    }
  }

  /** Actors are identified by UUIDs and payloads are JSON objects. */
  ghost predicate ProperEnv(env: Env) {
    forall n: nat :: ProperAt(env, n)
  }

  ghost predicate ProperAt(env: Env, n: nat) {
    IsUuid(env.actor(n)) && env.payload(n).Obj? && JsonOk(env.payload(n))
  }

  lemma {:induction false} NoteIsProper(
    env: Env, events: seq<Event>, stepId: string, eventType: string, actorType: string, action: string)
    requires ProperEnv(env) && AllProper(events)
    ensures AllProper(Note(env, events, stepId, eventType, actorType, action))
  {
    var after := Note(env, events, stepId, eventType, actorType, action);
    assert ProperAt(env, |events|);
    assert IsRegistered(eventType, action) ==> after[..|events|] == events;
  }

  lemma {:induction false} NoteLogIsProper(env: Env, events: seq<Event>, log: seq<Transition>)
    requires ProperEnv(env) && AllProper(events)
    ensures AllProper(NoteLog(env, events, log))
  {
    if log != [] {
      var n := |log| - 1;
      NoteLogIsProper(env, events, log[..n]);
      NoteIsProper(env, NoteLog(env, events, log[..n]), log[n].stepId, "step", "system", "activated");
      NoteIsProper(env, NoteLog(env, events, log[..n]), log[n].stepId, "step", "system", "skipped");
    }
  }

  /** In every run each recorded event has a registered pair, an actor id and object data. */
  lemma {:induction false} TrailIsAlwaysProper(env: Env, ast: seq<Step>, run: Run, i: nat)
    requires IsRun(env, ast, run) && i <= |run.actions| && ProperEnv(env)
    ensures AllProper(run.cases[i].events)
  {
    if i == 0 {
      CreationIsProper(env, ast, run.cases[0].data);
    } else {
      TrailIsAlwaysProper(env, ast, run, i - 1);
      RunGrows(env, ast, run, i - 1);
      GrowthKeepsProper(env, run.cases[i - 1].events, run.cases[i].events);
    }
  }

  lemma {:induction false} CreationIsProper(env: Env, ast: seq<Step>, data: Fields)
    requires ProperEnv(env)
    ensures AllProper(Created(env, ast, data).events)
  {
    NoteIsProper(env, [], "", "case", "human", "created");
  }

  /**
   * Any two runs, of any two cases, whose trails verify and end in the same hash have recorded the same history of
   * the same case, unless their trails exhibit a collision of the hash.
   */
  lemma {:induction false} RunHeadsCommit(
    env: Env, ast: seq<Step>, run: Run, i: nat, env': Env, ast': seq<Step>, run': Run, j: nat)
    requires IsRun(env, ast, run) && i <= |run.actions| && ProperEnv(env)
    requires IsRun(env', ast', run') && j <= |run'.actions| && ProperEnv(env')
    requires Verifies(env, run.cases[i].events) && Verifies(env', run'.cases[j].events)
    requires env.sch == env'.sch && Faithful(env.sch)
    requires Head(env.sch, env.caseId, run.cases[i].events) == Head(env.sch, env'.caseId, run'.cases[j].events)
    ensures (env.caseId == env'.caseId && SameHistory(run.cases[i].events, run'.cases[j].events))
         || Collision(env.sch, Hashed(env.sch, env.caseId, run.cases[i].events),
                      Hashed(env.sch, env'.caseId, run'.cases[j].events))
  {
    TrailIsJudged(env, ast, run, i);
    TrailIsJudged(env', ast', run', j);
    TrailIsAlwaysProper(env, ast, run, i);
    TrailIsAlwaysProper(env', ast', run', j);
    HeadCommits(env.sch, env.caseId, run.cases[i].events, env'.caseId, run'.cases[j].events);
  }
}
