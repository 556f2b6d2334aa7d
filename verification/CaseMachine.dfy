/**
 * The life of one case as a state machine. Every action is one committed transaction, serialised by the
 * lock on the case row.
 */
module CaseMachine {
  import opened Common
  import opened Workflow
  import opened Settling
  import opened JsonText
  import opened AuditChain
  import opened MergeData

  datatype Status = Open | InProgress | Finished | Cancelled

  /**
   * The stored case. The last three fields are history: steps made ready by a `goto` fallback, steps handed
   * to an executor by evaluation, and the number of state changes written to step rows.
   */
  datatype Case = Case(
    status: Status,
    rows: Rows,
    data: Fields,
    version: int,
    events: seq<Event>,
    forced: set<string>,
    dispatched: seq<string>,
    changes: nat)

  /** What the n-th audit event takes from outside: its actor, id, clock reading in nanoseconds and payload. */
  datatype Env = Env(
    sch: Scheme,
    caseId: string,
    actor: nat -> string,
    ids: nat -> int,
    clock: nat -> int,
    payload: nat -> Json)

  /**
   * A committed transaction. `Evaluate` carries the log it applied. A `Remark` writes nothing but an audit event:
   * a task claimed, reassigned or escalated, a document uploaded, a deadline missed, an erasure.
   */
  datatype Action =
    | Evaluate(evaluator: Evaluator, rank: map<string, nat>, log: seq<Transition>)
    | Complete(stepId: string, outcome: string, output: Option<Fields>, auditType: string)
    | Fail(stepId: string)
    | SkipExhausted(stepId: string)
    | Fallback(stepId: string)
    | Cancel
    | Close
    | PatchData(patch: Fields, expected: int, accepted: bool, actorType: string)
    | AppendData(patch: Fields, expected: int)
    | CreateTask(stepId: string)
    | Remark(stepId: string, eventType: string, actorType: string, action: string)

  // ---- Audit ----------------------------------------------------------------------------------------------

  function EntryFor(
    env: Env, n: nat, stepId: string, eventType: string, actorType: string, action: string): Entry
  {
    Entry(env.ids(n), stepId, eventType, env.actor(n), actorType, action, Option.Some(env.payload(n)))
  }

  /** The trail after the event was recorded. */
  function Note(
    env: Env, events: seq<Event>, stepId: string, eventType: string, actorType: string, action: string): seq<Event>
  {
    var n := |events|;
    Recorded(env.sch, env.caseId, events, EntryFor(env, n, stepId, eventType, actorType, action), env.clock(n) / 1000)
  }

  function NoteTransition(env: Env, events: seq<Event>, tr: Transition): seq<Event> {
    match tr.kind
    case ToReady => events
    case ToActive => Note(env, events, tr.stepId, "step", "system", "activated")
    case ToSkipped => Note(env, events, tr.stepId, "step", "system", "skipped")
  }

  function NoteLog(env: Env, events: seq<Event>, log: seq<Transition>): seq<Event> {
    if log == [] then events
    else NoteTransition(env, NoteLog(env, events, log[..|log| - 1]), log[|log| - 1])
  }

  /** The ids moved to active, in order: the dispatch list. */
  function Activated(log: seq<Transition>): seq<string> {
    if log == [] then []
    else
      var tr := log[|log| - 1];
      Activated(log[..|log| - 1]) + if tr.kind == ToActive then [tr.stepId] else []
  }

  function Before(s: string, c: char): string {
    s[..IndexOf(s, c)]
  }

  function After(s: string, c: char): string {
    if c in s then s[IndexOf(s, c) + 1..] else ""
  }

  predicate Splits(s: string, c: char) {
    c in s && Before(s, c) != "" && After(s, c) != ""
  }

  /** The audit pair `completeStep` derives from the executor's `AuditEventType`. */
  function AuditPair(auditType: string): (string, string) {
    if auditType == "" then ("step", "completed")
    else if Splits(auditType, '.') then (Before(auditType, '.'), After(auditType, '.'))
    else if Splits(auditType, '/') then (Before(auditType, '/'), After(auditType, '/'))
    else if '.' !in auditType && '/' !in auditType then (auditType, "completed")
    else ("step", "completed")
  }

  // ---- Transactions ---------------------------------------------------------------------------------------

  predicate IsActive(rows: Rows, id: string) {
    id in rows && rows[id].state == Active
  }

  function SetState(rows: Rows, id: string, s: State): Rows
    requires id in rows
  {
    rows[id := rows[id].(state := s)]
  }

  /** An update of one row, conditional on the row being active. */
  function EndActive(rows: Rows, id: string, s: State): Rows {
    if IsActive(rows, id) then SetState(rows, id, s) else rows
  }

  /** How many of the conditional updates of a log find their row. */
  function Hits(rows: Rows, log: seq<Transition>): nat {
    if log == [] then 0
    else
      var n := |log| - 1;
      Hits(rows, log[..n]) + Count(Matches(Replay(rows, log[..n]), log[n]))
  }

  function AfterEvaluation(env: Env, c: Case, log: seq<Transition>): Case {
    c.(rows := Replay(c.rows, log),
       events := NoteLog(env, c.events, log),
       dispatched := c.dispatched + Activated(log),
       changes := c.changes + Hits(c.rows, log))
  }

  function AfterCompletion(
    env: Env, c: Case, id: string, outcome: string, patch: Option<Fields>, auditType: string): Case
  {
    var (eventType, action) := AuditPair(auditType);
    if IsActive(c.rows, id) && IsRegistered(eventType, action) then
      c.(rows := c.rows[id := Row(Completed, outcome)],
         data := if patch.Some? then c.data + patch.value else c.data,
         version := if patch.Some? then c.version + 1 else c.version,
         events := Note(env, c.events, id, eventType, "system", action),
         changes := c.changes + 1)
    else c
  }

  /** Failing or giving up on a step records its event even when no active row was found. */
  function AfterEnding(env: Env, c: Case, id: string, s: State, action: string): Case {
    c.(rows := EndActive(c.rows, id, s),
       events := Note(env, c.events, id, "step", "system", action),
       changes := c.changes + Count(IsActive(c.rows, id)))
  }

  function AfterFallback(c: Case, id: string): Case {
    if id in c.rows && c.rows[id].state == Pending then
      c.(rows := SetState(c.rows, id, Ready), forced := c.forced + {id}, changes := c.changes + 1)
    else c
  }

  predicate IsHumanTask(g: Graph, id: string) {
    id in g && g[id].kind == "human_task"
  }

  function CancelledState(g: Graph, id: string, s: State): State {
    if s.Open() || (s == Active && IsHumanTask(g, id)) then Skipped else s
  }

  function CancelledRows(g: Graph, rows: Rows): Rows {
    map id | id in rows :: rows[id].(state := CancelledState(g, id, rows[id].state))
  }

  /** The rows, among those of the workflow, whose state differs. */
  function Changed(ast: seq<Step>, rows: Rows, later: Rows): nat {
    if ast == [] then 0
    else
      var id := ast[|ast| - 1].id;
      Changed(ast[..|ast| - 1], rows, later) +
      Count(id in rows && id in later && rows[id].state != later[id].state)
  }

  function AfterCancel(env: Env, ast: seq<Step>, c: Case): Case {
    var rows := CancelledRows(StepMap(ast), c.rows);
    c.(status := Cancelled,
       version := c.version + 1,
       rows := rows,
       events := Note(env, c.events, "", "case", "human", "cancelled"),
       changes := c.changes + Changed(ast, c.rows, rows))
  }

  /** `CloseCase` writes the status without a version check; its test for active steps runs before the transaction. */
  function AfterClose(env: Env, c: Case): Case {
    c.(status := Finished, events := Note(env, c.events, "", "case", "human", "closed"))
  }

  function MergedFields(base: Fields, patch: Fields): Fields {
    FieldsOf(Merge(Value.Obj(base), Value.Obj(patch)))
  }

  lemma {:induction false} MergedPlainly(data: Fields, patch: Fields)
    ensures MergedInto(data, patch, MergedFields(data, patch))
  {
    MergePlainly(data, patch);
  }

  function AfterPatch(env: Env, c: Case, patch: Fields, expected: int, accepted: bool, actorType: string): Case {
    if c.version == expected && accepted then
      c.(data := MergedFields(c.data, patch),
         version := c.version + 1,
         events := Note(env, c.events, "", "case", actorType, "updated"))
    else c
  }

  function AfterAppend(c: Case, patch: Fields, expected: int): Case {
    if c.version == expected then c.(data := c.data + patch, version := c.version + 1) else c
  }

  /** Creating a human task sets the row to active whatever its state is. */
  function AfterTaskCreation(env: Env, c: Case, id: string): Case {
    c.(rows := if id in c.rows then SetState(c.rows, id, Active) else c.rows,
       events := Note(env, c.events, id, "task", "system", "created"),
       changes := c.changes + Count(id in c.rows && c.rows[id].state != Active))
  }

  function Next(env: Env, ast: seq<Step>, c: Case, a: Action): Case {
    match a
    case Evaluate(_, _, log) => if c.status == Cancelled then c else AfterEvaluation(env, c, log)
    case Complete(id, outcome, patch, auditType) => AfterCompletion(env, c, id, outcome, patch, auditType)
    case Fail(id) => AfterEnding(env, c, id, Failed, "failed")
    case SkipExhausted(id) => AfterEnding(env, c, id, Skipped, "skipped")
    case Fallback(id) => AfterFallback(c, id)
    case Cancel => AfterCancel(env, ast, c)
    case Close => AfterClose(env, c)
    case PatchData(patch, expected, accepted, actorType) => AfterPatch(env, c, patch, expected, accepted, actorType)
    case AppendData(patch, expected) => AfterAppend(c, patch, expected)
    case CreateTask(id) => AfterTaskCreation(env, c, id)
    case Remark(id, eventType, actorType, action) =>
      c.(events := Note(env, c.events, id, eventType, actorType, action))
  }

  /** Evaluation applies a successful evaluation's log; a failed one rolls back and is no action. */
  ghost predicate Allowed(ast: seq<Step>, c: Case, a: Action) {
    a.Evaluate? && c.status != Cancelled ==>
      && Covers(StepMap(ast), c.rows)
      && Ranks(StepMap(ast), a.rank)
      && Evaluation(StepMap(ast), a.rank, c.rows, a.evaluator, a.log)
  }

  // ---- Creation and runs ----------------------------------------------------------------------------------

  /** No two steps share an id; steps without one are passed over. */
  ghost predicate Creatable(ast: seq<Step>) {
    forall i, j :: 0 <= i < j < |ast| && ast[i].id != "" ==> ast[i].id != ast[j].id
  }

  function PendingRows(ast: seq<Step>): Rows {
    map id | id in StepMap(ast) && id != "" :: Row(Pending, "")
  }

  /** What `CreateCase` stores: a pending row for every step that has an id, and the first audit event. */
  function Created(env: Env, ast: seq<Step>, data: Fields): Case {
    Case(
      Open,
      PendingRows(ast),
      data,
      1,
      Note(env, [], "", "case", "human", "created"),
      {},
      [],
      0)
  }

  datatype Run = Run(cases: seq<Case>, actions: seq<Action>)

  /** A run of a case: any interleaving of allowed transactions since its creation. */
  ghost predicate IsRun(env: Env, ast: seq<Step>, run: Run) {
    && |run.cases| == |run.actions| + 1
    && run.cases[0] == Created(env, ast, run.cases[0].data)
    && forall i :: 0 <= i < |run.actions| ==> Took(env, ast, run, i)
  }

  ghost predicate Took(env: Env, ast: seq<Step>, run: Run, i: nat)
    requires i < |run.actions| < |run.cases|
  {
    && Allowed(ast, run.cases[i], run.actions[i])
    && run.cases[i + 1] == Next(env, ast, run.cases[i], run.actions[i])
  }

  function Last(run: Run): Case
    requires run.cases != []
  {
    run.cases[|run.cases| - 1]
  }

  /** The run with one more transaction. */
  function Extended(run: Run, a: Action, next: Case): Run {
    Run(run.cases + [next], run.actions + [a])
  }

  lemma {:induction false} TookStays(env: Env, ast: seq<Step>, run: Run, longer: Run, i: nat)
    requires i < |run.actions| < |run.cases| && Took(env, ast, run, i)
    requires run.cases <= longer.cases && run.actions <= longer.actions && |longer.actions| < |longer.cases|
    ensures Took(env, ast, longer, i)
  {
    assert longer.cases[i] == run.cases[i] && longer.cases[i + 1] == run.cases[i + 1];
    assert longer.actions[i] == run.actions[i];
  }

  /** A run goes on with any allowed transaction. */
  lemma {:induction false} RunContinues(env: Env, ast: seq<Step>, run: Run, a: Action, next: Case)
    requires IsRun(env, ast, run) && Allowed(ast, Last(run), a) && next == Next(env, ast, Last(run), a)
    ensures IsRun(env, ast, Extended(run, a, next))
  {
    var longer := Extended(run, a, next);
    forall i | 0 <= i < |longer.actions|
      ensures Took(env, ast, longer, i)
    {
      if i < |run.actions| {
        TookStays(env, ast, run, longer, i);
      }
    }
  }
}
