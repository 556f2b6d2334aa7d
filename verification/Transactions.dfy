/** What each transaction does to the stored case, field by field and in plain terms. */
module Transactions {
  import opened Common
  import opened Workflow
  import opened Settling
  import opened AuditChain
  import opened MergeData
  import opened CaseMachine
  import opened CaseRuns

  // ---- Audit events ---------------------------------------------------------------------------------------

  /** Exactly one event was added, and this is what it says. */
  ghost predicate OneEvent(
    env: Env, events: seq<Event>, later: seq<Event>, stepId: string, eventType: string, actorType: string,
    action: string)
  {
    var n := |events|;
    && |later| == n + 1 && events <= later
    && var e := later[n];
       && e.caseId == env.caseId && e.stepId == stepId && e.eventType == eventType && e.action == action
       && e.actorType == actorType && e.actorId == env.actor(n) && e.id == env.ids(n)
       && e.data == Some(env.payload(n))
  }

  lemma {:induction false} NotePlainly(
    env: Env, events: seq<Event>, stepId: string, eventType: string, actorType: string, action: string)
    requires IsRegistered(eventType, action)
    ensures OneEvent(
              env, events, Note(env, events, stepId, eventType, actorType, action),
              stepId, eventType, actorType, action)
  {
    var n := |events|;
    RecordedPlainly(
      env.sch, env.caseId, events, EntryFor(env, n, stepId, eventType, actorType, action), env.clock(n) / 1000);
  }

  /** The text splits at its first separator into two parts that are not empty. */
  predicate SplitsAs(s: string, c: char, left: string, right: string) {
    s == left + [c] + right && c !in left && left != "" && right != ""
  }

  ghost predicate SplitsAt(s: string, c: char) {
    exists left, right :: SplitsAs(s, c, left, right)
  }

  /** The pair an executor's audit type stands for: split at the first dot, else at the first slash, else as it is. */
  ghost predicate StandsForPair(auditType: string, eventType: string, action: string) {
    if SplitsAt(auditType, '.') then SplitsAs(auditType, '.', eventType, action)
    else if SplitsAt(auditType, '/') then SplitsAs(auditType, '/', eventType, action)
    else if auditType == "" || '.' in auditType || '/' in auditType then eventType == "step" && action == "completed"
    else eventType == auditType && action == "completed"
  }

  lemma {:induction false} SplitIsFirst(s: string, c: char, left: string, right: string)
    requires SplitsAs(s, c, left, right)
    ensures Before(s, c) == left && After(s, c) == right && Splits(s, c)
  {
    assert s == left + ([c] + right);
    IndexOfAfter(left, [c] + right, c);
    assert s[..|left|] == left && s[|left|] == c && s[|left| + 1..] == right;
  }

  lemma {:induction false} FirstIsSplit(s: string, c: char)
    requires Splits(s, c)
    ensures SplitsAs(s, c, Before(s, c), After(s, c))
  {
    var i := IndexOf(s, c);
    assert s == s[..i] + [s[i]] + s[i + 1..];
  }

  lemma {:induction false} SplitPlainly(s: string, c: char)
    ensures Splits(s, c) <==> SplitsAt(s, c)
    ensures Splits(s, c) ==> SplitsAs(s, c, Before(s, c), After(s, c))
  {
    if Splits(s, c) {
      FirstIsSplit(s, c);
    }
    if SplitsAt(s, c) {
      var left, right :| SplitsAs(s, c, left, right);
      SplitIsFirst(s, c, left, right);
    }
  }

  lemma {:induction false} AuditPairPlainly(auditType: string)
    ensures StandsForPair(auditType, AuditPair(auditType).0, AuditPair(auditType).1)
  {
    SplitPlainly(auditType, '.');
    SplitPlainly(auditType, '/');
  }

  // ---- Rows and data --------------------------------------------------------------------------------------

  /** Only this row changed, and to this. */
  ghost predicate OneRow(rows: Rows, later: Rows, id: string, row: Row) {
    && rows.Keys == later.Keys && id in later && later[id] == row
    && forall other :: other in rows && other != id ==> later[other] == rows[other]
  }

  // ---- The transactions -----------------------------------------------------------------------------------

  ghost predicate SameRest(c: Case, d: Case) {
    d.status == c.status && d.data == c.data && d.version == c.version
    && d.forced == c.forced && d.dispatched == c.dispatched
  }

  /** The `WHERE` clause of each transition: which states of its row it finds, and what it writes there. */
  ghost predicate UpdatesRow(rows: Rows, tr: Transition, later: Rows) {
    var id, found, s :=
      tr.stepId,
      (match tr.kind case ToReady => {tr.from} case ToSkipped => {Pending, Ready} case ToActive => {Ready}),
      (match tr.kind case ToReady => Ready case ToSkipped => Skipped case ToActive => Active);
    if id in rows && rows[id].state in found then OneRow(rows, later, id, Row(s, rows[id].outcome))
    else later == rows
  }

  lemma {:induction false} UpdatePlainly(rows: Rows, tr: Transition)
    ensures UpdatesRow(rows, tr, Apply(rows, tr))
  {
  }

  /** A completion writes state, outcome, output, version and event together. */
  ghost predicate Completes(
    env: Env, c: Case, id: string, outcome: string, output: Option<Fields>, auditType: string, d: Case)
  {
    && d.status == c.status && d.forced == c.forced && d.dispatched == c.dispatched && d.changes == c.changes + 1
    && OneRow(c.rows, d.rows, id, Row(Completed, outcome))
    && (exists eventType, action ::
          && StandsForPair(auditType, eventType, action)
          && OneEvent(env, c.events, d.events, id, eventType, "system", action))
    && if output.Some? then d.version == c.version + 1 && Overwritten(c.data, output.value, d.data)
       else d.version == c.version && d.data == c.data
  }

  lemma {:induction false} CompletionPlainly(
    env: Env, ast: seq<Step>, c: Case, id: string, outcome: string, output: Option<Fields>, auditType: string)
    ensures var d := Next(env, ast, c, Complete(id, outcome, output, auditType));
            if id in c.rows && c.rows[id].state == Active
               && IsRegistered(AuditPair(auditType).0, AuditPair(auditType).1)
            then Completes(env, c, id, outcome, output, auditType, d)
            else d == c
  {
    var (eventType, action) := AuditPair(auditType);
    AuditPairPlainly(auditType);
    if IsRegistered(eventType, action) {
      NotePlainly(env, c.events, id, eventType, "system", action);
    }
  }

  /** An active row ends in the state; the event is written whether or not there was one. */
  ghost predicate EndsStep(env: Env, c: Case, id: string, s: State, action: string, d: Case) {
    && SameRest(c, d) && OneEvent(env, c.events, d.events, id, "step", "system", action)
    && if id in c.rows && c.rows[id].state == Active
       then OneRow(c.rows, d.rows, id, Row(s, c.rows[id].outcome)) && d.changes == c.changes + 1
       else d.rows == c.rows && d.changes == c.changes
  }

  lemma {:induction false} EndingPlainly(env: Env, ast: seq<Step>, c: Case, id: string)
    ensures EndsStep(env, c, id, Failed, "failed", Next(env, ast, c, Fail(id)))
    ensures EndsStep(env, c, id, Skipped, "skipped", Next(env, ast, c, SkipExhausted(id)))
  {
    NotePlainly(env, c.events, id, "step", "system", "failed");
    NotePlainly(env, c.events, id, "step", "system", "skipped");
  }

  /** A pending row becomes ready, and nothing else happens. */
  lemma {:induction false} FallbackPlainly(env: Env, ast: seq<Step>, c: Case, id: string)
    ensures var d := Next(env, ast, c, Fallback(id));
            if id in c.rows && c.rows[id].state == Pending then
              && OneRow(c.rows, d.rows, id, Row(Ready, c.rows[id].outcome))
              && d == c.(rows := d.rows, forced := c.forced + {id}, changes := c.changes + 1)
            else d == c
  {
  }

  /** What a cancellation makes of a row. */
  ghost predicate CancelsRow(g: Graph, id: string, row: Row, later: Row) {
    && later.outcome == row.outcome
    && later.state ==
       if row.state in {Pending, Ready} then Skipped
       else if row.state == Active && id in g && g[id].kind == "human_task" then Skipped
       else row.state
  }

  lemma {:induction false} CancelPlainly(env: Env, ast: seq<Step>, c: Case)
    ensures var d := Next(env, ast, c, Cancel);
            && d.status == Cancelled && d.version == c.version + 1 && d.data == c.data
            && d.forced == c.forced && d.dispatched == c.dispatched
            && OneEvent(env, c.events, d.events, "", "case", "human", "cancelled")
            && d.changes == c.changes + Changed(ast, c.rows, d.rows)
            && d.rows.Keys == c.rows.Keys
            && forall id :: id in c.rows ==> CancelsRow(StepMap(ast), id, c.rows[id], d.rows[id])
  {
    NotePlainly(env, c.events, "", "case", "human", "cancelled");
  }

  lemma {:induction false} ClosePlainly(env: Env, ast: seq<Step>, c: Case)
    ensures var d := Next(env, ast, c, Close);
            && d == c.(status := Finished, events := d.events)
            && OneEvent(env, c.events, d.events, "", "case", "human", "closed")
  {
    NotePlainly(env, c.events, "", "case", "human", "closed");
  }

  lemma {:induction false} PatchPlainly(
    env: Env, ast: seq<Step>, c: Case, patch: Fields, expected: int, accepted: bool, actorType: string)
    ensures var d := Next(env, ast, c, PatchData(patch, expected, accepted, actorType));
            if c.version == expected && accepted then
              && d == c.(data := d.data, version := c.version + 1, events := d.events)
              && MergedInto(c.data, patch, d.data)
              && OneEvent(env, c.events, d.events, "", "case", actorType, "updated")
            else d == c
  {
    NotePlainly(env, c.events, "", "case", actorType, "updated");
    MergedPlainly(c.data, patch);
  }

  lemma {:induction false} AppendPlainly(env: Env, ast: seq<Step>, c: Case, patch: Fields, expected: int)
    ensures var d := Next(env, ast, c, AppendData(patch, expected));
            if c.version == expected then
              d == c.(data := d.data, version := c.version + 1) && Overwritten(c.data, patch, d.data)
            else d == c
  {
  }

  /** The row becomes active whatever it was, and the event is written whether or not there is a row. */
  lemma {:induction false} TaskPlainly(env: Env, ast: seq<Step>, c: Case, id: string)
    ensures var d := Next(env, ast, c, CreateTask(id));
            && SameRest(c, d) && OneEvent(env, c.events, d.events, id, "task", "system", "created")
            && if id in c.rows then
                 && OneRow(c.rows, d.rows, id, Row(Active, c.rows[id].outcome))
                 && d.changes == c.changes + if c.rows[id].state == Active then 0 else 1
               else d.rows == c.rows && d.changes == c.changes
  {
    NotePlainly(env, c.events, id, "task", "system", "created");
  }

  /** The registry: what may be recorded under each type, and under no other. */
  lemma {:induction false} RegistryPlainly(eventType: string, action: string)
    ensures IsRegistered("case", action) <==> action in ["created", "updated", "closed", "cancelled"]
    ensures IsRegistered("step", action) <==> action in ["activated", "completed", "failed", "skipped"]
    ensures IsRegistered("task", action) <==>
            action in ["created", "claimed", "completed", "reassigned", "escalated", "escalation_suppressed"]
    ensures IsRegistered("agent", action) <==> action in ["completed", "escalated"]
    ensures IsRegistered("document", action) <==> action in ["uploaded", "downloaded", "deleted"]
    ensures IsRegistered("auth", action) <==> action in ["denied", "login", "logout", "password_changed"]
    ensures IsRegistered("system", action) <==> action in ["sla_breach", "workflow_published", "erasure_completed"]
    ensures eventType !in ["case", "step", "task", "agent", "document", "auth", "system"] ==>
              !IsRegistered(eventType, action)
  {
  }

  /** The audit-only transactions of the system, all of them registered. */
  const REMARKS := [
    ("task", "claimed"), ("task", "reassigned"), ("task", "escalated"), ("task", "escalation_suppressed"),
    ("agent", "escalated"), ("document", "uploaded"), ("document", "downloaded"), ("document", "deleted"),
    ("system", "sla_breach"), ("system", "erasure_completed")]

  lemma {:induction false} RemarkPlainly(
    env: Env, ast: seq<Step>, c: Case, id: string, eventType: string, actorType: string, action: string)
    requires (eventType, action) in REMARKS
    ensures var d := Next(env, ast, c, Remark(id, eventType, actorType, action));
            d == c.(events := d.events) && OneEvent(env, c.events, d.events, id, eventType, actorType, action)
  {
    NotePlainly(env, c.events, id, eventType, actorType, action);
  }

  // ---- Evaluation -----------------------------------------------------------------------------------------

  /** A step made ready leaves no event; one activated or skipped leaves exactly one that says so. */
  lemma {:induction false} TransitionNotedPlainly(env: Env, events: seq<Event>, tr: Transition)
    ensures var later := NoteTransition(env, events, tr);
            match tr.kind
            case ToReady => later == events
            case ToActive => OneEvent(env, events, later, tr.stepId, "step", "system", "activated")
            case ToSkipped => OneEvent(env, events, later, tr.stepId, "step", "system", "skipped")
  {
    NotePlainly(env, events, tr.stepId, "step", "system", "activated");
    NotePlainly(env, events, tr.stepId, "step", "system", "skipped");
  }

  /** The transitions of a log that leave an event, in order. */
  function Noteworthy(log: seq<Transition>): seq<Transition> {
    if log == [] then []
    else
      var n := |log| - 1;
      Noteworthy(log[..n]) + if log[n].kind in {ToActive, ToSkipped} then [log[n]] else []
  }

  ghost predicate NotesLog(env: Env, events: seq<Event>, log: seq<Transition>, later: seq<Event>) {
    Notes(env, events, Noteworthy(log), later)
  }

  ghost predicate Notes(env: Env, events: seq<Event>, notes: seq<Transition>, later: seq<Event>) {
    var n := |events|;
    && |later| == n + |notes| && events <= later
    && forall i :: 0 <= i < |notes| ==> NotesStep(env, notes[i], n + i, later[n + i])
  }

  lemma {:induction false} NotesOneMore(
    env: Env, events: seq<Event>, notes: seq<Transition>, later: seq<Event>, tr: Transition, all: seq<Event>)
    requires Notes(env, events, notes, later) && |all| == |later| + 1 && later <= all
    requires NotesStep(env, tr, |later|, all[|later|])
    ensures Notes(env, events, notes + [tr], all)
  {
    var n := |events|;
    forall i | 0 <= i < |notes| + 1
      ensures NotesStep(env, (notes + [tr])[i], n + i, all[n + i])
    {
      if i < |notes| {
        assert all[n + i] == later[n + i];
      }
    }
  }

  ghost predicate NotesStep(env: Env, tr: Transition, n: nat, e: Event) {
    && e.stepId == tr.stepId && e.eventType == "step" && e.actorType == "system"
    && e.action == (if tr.kind == ToActive then "activated" else "skipped")
    && e.caseId == env.caseId && e.actorId == env.actor(n) && e.id == env.ids(n)
  }

  /** The events of an evaluation are those of its activations and skips, one each and in order. */
  lemma {:induction false} LogNotedPlainly(env: Env, events: seq<Event>, log: seq<Transition>)
    ensures NotesLog(env, events, log, NoteLog(env, events, log))
  {
    if log != [] {
      var n := |log| - 1;
      LogNotedPlainly(env, events, log[..n]);
      var before := NoteLog(env, events, log[..n]);
      TransitionNotedPlainly(env, before, log[n]);
      if log[n].kind != ToReady {
        NotesOneMore(env, events, Noteworthy(log[..n]), before, log[n], NoteLog(env, events, log));
      }
    }
  }

  lemma {:induction false} AllUpdatesHit(g: Graph, evaluator: Evaluator, rows: Rows, log: seq<Transition>)
    requires Covers(g, rows) && Derives(g, evaluator, rows, log)
    ensures Hits(rows, log) == |log|
  {
    if log != [] {
      DerivesLast(g, evaluator, rows, log);
      AllUpdatesHit(g, evaluator, rows, log[..|log| - 1]);
    }
  }

  /** An evaluation writes rows, events and nothing else, and hands over exactly the steps that became active. */
  lemma {:induction false} EvaluationPlainly(env: Env, ast: seq<Step>, c: Case, a: Action)
    requires a.Evaluate? && Allowed(ast, c, a)
    ensures var d := Next(env, ast, c, a);
            if c.status == Cancelled then d == c
            else
              && d.status == c.status && d.data == c.data && d.version == c.version && d.forced == c.forced
              && d.rows == Replay(c.rows, a.log) && NotesLog(env, c.events, a.log, d.events)
              && d.changes == c.changes + |a.log|
              && c.dispatched <= d.dispatched && Distinct(d.dispatched[|c.dispatched|..])
              && forall id :: id in d.dispatched[|c.dispatched|..] <==>
                   id in c.rows && c.rows[id].state != Active && d.rows[id].state == Active
  {
    if c.status != Cancelled {
      var d := Next(env, ast, c, a);
      LogNotedPlainly(env, c.events, a.log);
      AllUpdatesHit(StepMap(ast), a.evaluator, c.rows, a.log);
      DispatchIsActivation(StepMap(ast), a.evaluator, c.rows, a.log);
      assert d.dispatched[|c.dispatched|..] == Activated(a.log);
    }
  }

  /** A new case: pending rows for the steps that have an id, version one, open, and one event. */
  lemma {:induction false} CreationPlainly(env: Env, ast: seq<Step>, data: Fields)
    ensures var d := Created(env, ast, data);
            && d.status == Open && d.data == data && d.version == 1
            && d.forced == {} && d.dispatched == [] && d.changes == 0
            && OneEvent(env, [], d.events, "", "case", "human", "created")
            && (forall id :: id in d.rows <==> id != "" && exists i :: 0 <= i < |ast| && ast[i].id == id)
            && forall id :: id in d.rows ==> d.rows[id] == Row(Pending, "")
  {
    NotePlainly(env, [], "", "case", "human", "created");
    forall id
      ensures id in StepMap(ast) <==> exists i :: 0 <= i < |ast| && ast[i].id == id
    {
      StepMapHas(ast, id);
    }
  }
}
