/** The stored case and the methods that write it; each is one transaction of the state machine. */
module CaseStore {
  import opened Common
  import opened Workflow
  import opened AstValidation
  import opened Settling
  import opened Compute
  import opened AuditChain
  import opened MergeData
  import opened CaseMachine
  import opened CaseRuns
  import opened AuditRuns
  import opened Transactions
  import opened PlainRules
  import opened Retry

  datatype StoreError =
    | DuplicateStep
    | EvaluationFailed
    | StepNotActive
    | UnregisteredEvent
    | ActiveSteps
    | Conflict
    | Refused

  class Store {
    const env: Env
    const ast: seq<Step>
    var status: Status
    var rows: Rows
    var data: Fields
    var version: int
    var events: seq<Event>
    ghost var forced: set<string>
    ghost var dispatched: seq<string>
    ghost var changes: nat
    ghost var run: Run

    /** The case this object holds. */
    ghost function Abs(): Case
      reads this
    {
      Case(status, rows, data, version, events, forced, dispatched, changes)
    }

    /** The object holds the last case of the run it has been through. */
    ghost predicate Valid()
      reads this
    {
      Creatable(ast) && IsRun(env, ast, run) && Abs() == Last(run)
    }

    /** A committed transaction is the next of the run. */
    ghost method Commit(a: Action, before: Case)
      requires Creatable(ast) && IsRun(env, ast, run) && Last(run) == before
      requires Allowed(ast, before, a) && Abs() == Next(env, ast, before, a)
      modifies this`run
      ensures Valid() && run == Extended(old(run), a, Abs())
    {
      RunContinues(env, ast, run, a, Abs());
      run := Extended(run, a, Abs());
    }

    /** The case row alone, as `CreateCase` inserts it first. */
    constructor (env: Env, ast: seq<Step>, data: Fields)
      ensures this.env == env && this.ast == ast
      ensures Abs() == Case(Open, map[], data, 1, [], {}, [], 0)
    {
      this.env, this.ast, this.data := env, ast, data;
      status, rows, version, events := Open, map[], 1, [];
      forced, dispatched, changes, run := {}, [], 0, Run([], []);
    }

    /** The loop of `CreateCase`: a pending row per step id, in order. A repeated id violates the table's key. */
    method InsertSteps() returns (ok: bool)
      requires rows == map[]
      modifies this`rows
      ensures ok <==> Creatable(ast)
      ensures ok ==> rows == PendingRows(ast)
    {
      for i := 0 to |ast|
        invariant Creatable(ast[..i]) && rows == PendingRows(ast[..i])
      {
        var id := ast[i].id;
        PendingRowsGrow(ast, i);
        if id == "" {
          continue;
        }
        if id in rows {
          return false;
        }
        rows := rows[id := Row(Pending, "")];
      }
      assert ast[..|ast|] == ast;
      ok := true;
    }

    /** Appends an audit event, or fails and leaves the trail alone when the pair is not registered. */
    method Record(stepId: string, eventType: string, actorType: string, action: string) returns (ok: bool)
      modifies this`events
      ensures ok <==> IsRegistered(eventType, action)
      ensures events == Note(env, old(events), stepId, eventType, actorType, action)
    {
      var n := |events|;
      var entry := EntryFor(env, n, stepId, eventType, actorType, action);
      var r := RecordCaseEvent(env.sch, env.caseId, events, entry, env.clock(n));
      ok := r.Ok?;
      if ok {
        events := r.value;
      }
    }

    /** `applyTransitionTx`, with the audit event of the transition. */
    method ApplyTransition(tr: Transition)
      modifies this`rows, this`events
      ensures rows == Apply(old(rows), tr) && UpdatesRow(old(rows), tr, rows)
      ensures events == NoteTransition(env, old(events), tr)
    {
      UpdatePlainly(rows, tr);
      match tr.kind {
        case ToReady =>
          if tr.stepId in rows && rows[tr.stepId].state == tr.from {
            rows := SetState(rows, tr.stepId, Ready);
          }
        case ToSkipped =>
          if tr.stepId in rows && rows[tr.stepId].state in {Pending, Ready} {
            rows := SetState(rows, tr.stepId, Skipped);
          }
          var _ := Record(tr.stepId, "step", "system", "skipped");
        case ToActive =>
          if tr.stepId in rows && rows[tr.stepId].state == Ready {
            rows := SetState(rows, tr.stepId, Active);
          }
          var _ := Record(tr.stepId, "step", "system", "activated");
      }
    }

    /** `evaluateDAG` on a case that was created and changed by transactions: it is the next one, or nothing at all. */
    method EvaluateDAG(evaluator: Evaluator) returns (r: Result<seq<Step>, StoreError>, ghost action: Action)
      requires Valid()
      modifies this
      ensures Valid()
      ensures r.Err? || old(status) == Cancelled ==> Abs() == old(Abs()) && run == old(run)
      ensures r.Ok? && old(status) != Cancelled ==>
                && action.Evaluate? && action.evaluator == evaluator && Ids(r.value) == Activated(action.log)
                && Allowed(ast, old(Abs()), action) && Abs() == Next(env, ast, old(Abs()), action)
                && run == Extended(old(run), action, Abs())
    {
      r, action := EvaluateRows(evaluator);
      if r.Ok? && old(status) != Cancelled {
        EveryStepHasItsRow(env, ast, old(run));
        EvaluationIsTransaction(env, ast, old(Abs()), action);
        Commit(action, old(Abs()));
      }
    }

    /**
     * What `evaluateDAG` does to any rows: it replays the computed log on the stored rows and returns the steps to
     * dispatch. A cancelled case and a failed computation leave everything as it was. Steps without a row count as
     * pending in the computation.
     */
    method EvaluateRows(evaluator: Evaluator) returns (r: Result<seq<Step>, StoreError>, ghost action: Action)
      modifies this`rows, this`events, this`dispatched, this`changes
      ensures old(status) == Cancelled ==> r == Ok([])
      ensures r.Err? || old(status) == Cancelled ==> Abs() == old(Abs())
      ensures r.Ok? && old(status) != Cancelled ==>
                && WellFormed(ast) && Evaluates(ast, old(rows), action) && action.evaluator == evaluator
                && Abs() == AfterEvaluation(env, old(Abs()), action.log)
                && Ids(r.value) == Activated(action.log)
                && (forall step :: step in r.value ==> step in ast)
    {
      action := Evaluate(evaluator, map[], []);
      if status == Cancelled {
        return Ok([]), action;
      }
      var computed;
      ghost var rank;
      computed, rank := ComputeTransitions(ast, rows, evaluator);
      if computed.Err? {
        return Err(EvaluationFailed), action;
      }
      action := Evaluate(evaluator, rank, computed.value);
      LoggedStepsAreKnown(ast, rows, action);
      var toDispatch := ApplyLog(computed.value);
      r := Ok(toDispatch);
    }

    /** The loop of `evaluateDAG`: it writes the rows and the trail, and collects the steps to dispatch. */
    method ApplyLog(log: seq<Transition>) returns (toDispatch: seq<Step>)
      requires forall i :: 0 <= i < |log| ==> log[i].stepId in StepMap(ast)
      modifies this`rows, this`events, this`dispatched, this`changes
      ensures Abs() == AfterEvaluation(env, old(Abs()), log)
      ensures Ids(toDispatch) == Activated(log)
      ensures forall step :: step in toDispatch ==> step in ast
    {
      toDispatch := WriteLog(log);
      dispatched := dispatched + Activated(log);
      changes := changes + Hits(old(rows), log);
    }

    method WriteLog(log: seq<Transition>) returns (toDispatch: seq<Step>)
      requires forall i :: 0 <= i < |log| ==> log[i].stepId in StepMap(ast)
      modifies this`rows, this`events
      ensures rows == Replay(old(rows), log)
      ensures events == NoteLog(env, old(events), log)
      ensures Ids(toDispatch) == Activated(log)
      ensures forall step :: step in toDispatch ==> step in ast
    {
      var stepsByID := StepMap(ast);
      toDispatch := [];
      for i := 0 to |log|
        invariant rows == Replay(old(rows), log[..i])
        invariant events == NoteLog(env, old(events), log[..i])
        invariant Ids(toDispatch) == Activated(log[..i])
        invariant forall step :: step in toDispatch ==> step in ast
      {
        assert log[..i + 1][..i] == log[..i] && log[..i + 1][i] == log[i];
        ApplyTransition(log[i]);
        StepMapHas(ast, log[i].stepId);
        if log[i].kind == ToActive && log[i].stepId in stepsByID {
          toDispatch := toDispatch + [stepsByID[log[i].stepId]];
        }
      }
      assert log[..|log|] == log;
    }

    /** `completeStep`: state, result, data, version and audit event move together, or nothing does. */
    method CompleteStep(stepId: string, outcome: string, output: Option<Fields>, auditType: string)
      returns (error: Option<StoreError>)
      requires Valid()
      modifies this
      ensures Valid() && Abs() == Next(env, ast, old(Abs()), Complete(stepId, outcome, output, auditType))
      ensures error.None? ==> run == Extended(old(run), Complete(stepId, outcome, output, auditType), Abs())
      ensures error.None? ==> Completes(env, old(Abs()), stepId, outcome, output, auditType, Abs())
      ensures error.Some? ==> Abs() == old(Abs()) && run == old(run)
      ensures error == Some(StepNotActive) <==> !IsActive(old(rows), stepId)
      ensures error.None? ==>
                && rows[stepId] == Row(Completed, outcome)
                && (if output.Some? then version == old(version) + 1 && Overwritten(old(data), output.value, data)
                    else version == old(version) && data == old(data))
    {
      error := WriteCompletion(stepId, outcome, output, auditType);
      if error.None? {
        CompletionPlainly(env, ast, old(Abs()), stepId, outcome, output, auditType);
        Commit(Complete(stepId, outcome, output, auditType), old(Abs()));
      }
    }

    method WriteCompletion(stepId: string, outcome: string, output: Option<Fields>, auditType: string)
      returns (error: Option<StoreError>)
      modifies this`rows, this`data, this`version, this`events, this`changes
      ensures Abs() == AfterCompletion(env, old(Abs()), stepId, outcome, output, auditType)
      ensures error.Some? ==> Abs() == old(Abs())
      ensures error == Some(StepNotActive) <==> !IsActive(old(rows), stepId)
      ensures error.None? ==>
                && rows[stepId] == Row(Completed, outcome)
                && |events| == |old(events)| + 1
                && version == old(version) + Count(output.Some?)
    {
      if !(stepId in rows && rows[stepId].state == Active) {
        return Some(StepNotActive);
      }
      var eventType, action := SplitAuditType(auditType);
      var recorded := Record(stepId, eventType, "system", action);
      if !recorded {
        return Some(UnregisteredEvent);
      }
      rows := rows[stepId := Row(Completed, outcome)];
      if output.Some? {
        data, version := data + output.value, version + 1;
      }
      changes := changes + 1;
      error := None;
    }

    /** `failStep`: the update may match no row, the event is recorded all the same. */
    method FailStep(stepId: string)
      requires Valid()
      modifies this
      ensures Abs() == Next(env, ast, old(Abs()), Fail(stepId))
      ensures Valid() && run == Extended(old(run), Fail(stepId), Abs())
      ensures EndsStep(env, old(Abs()), stepId, Failed, "failed", Abs())
    {
      if stepId in rows && rows[stepId].state == Active {
        rows := SetState(rows, stepId, Failed);
        changes := changes + 1;
      }
      var _ := Record(stepId, "step", "system", "failed");
      Commit(Fail(stepId), old(Abs()));
      EndingPlainly(env, ast, old(Abs()), stepId);
    }

    /** `skipStepTerminal`, for an exhausted step whose policy is to skip. */
    method SkipStepTerminal(stepId: string)
      requires Valid()
      modifies this
      ensures Abs() == Next(env, ast, old(Abs()), SkipExhausted(stepId))
      ensures Valid() && run == Extended(old(run), SkipExhausted(stepId), Abs())
      ensures EndsStep(env, old(Abs()), stepId, Skipped, "skipped", Abs())
    {
      if stepId in rows && rows[stepId].state == Active {
        rows := SetState(rows, stepId, Skipped);
        changes := changes + 1;
      }
      var _ := Record(stepId, "step", "system", "skipped");
      Commit(SkipExhausted(stepId), old(Abs()));
      EndingPlainly(env, ast, old(Abs()), stepId);
    }

    /** `onExhausted`: the policy's last word on a step whose attempts are used up. */
    method FinishExhausted(stepId: string, stepType: string, policy: Policy)
      requires Valid()
      modifies this
      ensures Valid()
      ensures policy.onExhausted == "skip" ==> run == Extended(old(run), SkipExhausted(stepId), Abs())
      ensures forall t :: policy.onExhausted == "goto:" + t ==>
                |run.cases| == |old(run).cases| + 2 && run.cases[..|old(run).cases|] == old(run).cases &&
                run.actions == old(run).actions + [Fail(stepId), Fallback(t)]
      ensures policy.onExhausted != "skip" && !("goto:" <= policy.onExhausted) ==>
                run == Extended(old(run), Fail(stepId), Abs())
    {
      var action := Defaulted(stepType, policy).onExhausted;
      ExhaustionBefits(stepType, policy);
      if action == "skip" {
        SkipStepTerminal(stepId);
      } else if "goto:" <= action {
        FailStep(stepId);
        ActivateFallbackStep(action[5..]);
      } else {
        FailStep(stepId);
      }
    }

    method ActivateFallbackStep(stepId: string)
      requires Valid()
      modifies this
      ensures Abs() == Next(env, ast, old(Abs()), Fallback(stepId))
      ensures Valid() && run == Extended(old(run), Fallback(stepId), Abs())
    {
      if stepId in rows && rows[stepId].state == Pending {
        rows := SetState(rows, stepId, Ready);
        forced := forced + {stepId};
        changes := changes + 1;
      }
      Commit(Fallback(stepId), old(Abs()));
    }

    /** `cancelCase`: open steps are skipped at once, then active human tasks one by one. */
    method CancelCase() returns (cancelled: bool)
      requires Valid()
      modifies this
      ensures cancelled <==> WellFormed(ast)
      ensures Abs() == if cancelled then Next(env, ast, old(Abs()), Cancel) else old(Abs())
      ensures Valid() && run == if cancelled then Extended(old(run), Cancel, Abs()) else old(run)
    {
      var valid;
      ghost var rank;
      valid, rank := ValidateAST(ast);
      if valid.Err? {
        return false;
      }
      Abort();
      Commit(Cancel, old(Abs()));
      cancelled := true;
    }

    /** The writes of a cancellation. */
    method Abort()
      requires UniqueIds(ast)
      modifies this`status, this`version, this`rows, this`events, this`changes
      ensures Abs() == AfterCancel(env, ast, old(Abs()))
    {
      status, version := Cancelled, version + 1;
      SkipOpenSteps();
      SkipHumanTasks(old(rows));
      changes := changes + Changed(ast, old(rows), rows);
      var _ := Record("", "case", "human", "cancelled");
    }

    /** The update that skips every open step of the case. */
    method SkipOpenSteps()
      modifies this`rows
      ensures rows == CancelledRows(map[], old(rows))
    {
      rows := map id | id in rows :: if rows[id].state.Open() then rows[id].(state := Skipped) else rows[id];
    }

    /** The loop of `cancelCase` over the human tasks that are active. */
    method SkipHumanTasks(ghost before: Rows)
      requires UniqueIds(ast) && rows == CancelledRows(map[], before)
      modifies this`rows
      ensures rows == CancelledRows(StepMap(ast), before)
    {
      for i := 0 to |ast|
        invariant rows == CancelledRows(StepMap(ast[..i]), before)
      {
        var step := ast[i];
        assert ast[..i + 1][..i] == ast[..i];
        StepMapHas(ast[..i], step.id);
        CancelledRowsGrow(StepMap(ast[..i]), step, before);
        if step.kind == "human_task" && step.id in rows && rows[step.id].state == Active {
          rows := SetState(rows, step.id, Skipped);
        }
      }
      assert ast[..|ast|] == ast;
    }

    /** The count `CloseCase` reads before its transaction. */
    method CountActive() returns (n: nat)
      ensures n > 0 <==> exists id :: IsActive(rows, id)
    {
      var active := set id | id in rows && rows[id].state == Active;
      n := |active|;
      if n > 0 {
        var id :| id in active;
        assert IsActive(rows, id);
      } else {
        assert forall id :: IsActive(rows, id) ==> id in active;
      }
    }

    /**
     * `CloseCase`: refused exactly when the count read beforehand was positive. The write does not look at the
     * steps again, so one that became active meanwhile does not stop it.
     */
    method CloseCase(activeSteps: nat) returns (error: Option<StoreError>)
      requires Valid()
      modifies this
      ensures error == if activeSteps > 0 then Some(ActiveSteps) else None
      ensures Abs() == if activeSteps > 0 then old(Abs()) else Next(env, ast, old(Abs()), Close)
      ensures Valid() && run == if activeSteps > 0 then old(run) else Extended(old(run), Close, Abs())
    {
      if activeSteps > 0 {
        return Some(ActiveSteps);
      }
      status := Finished;
      var _ := Record("", "case", "human", "closed");
      Commit(Close, old(Abs()));
      error := None;
    }

    /** `CaseService.UpdateCaseData`: version check, editable fields, deep merge, validation, then one write. */
    method UpdateCaseData(patch: Fields, expected: int, editable: Fields -> bool, validates: Fields -> bool)
      returns (error: Option<StoreError>)
      requires Valid()
      modifies this
      ensures var accepted := editable(patch) && validates(MergedFields(old(data), patch));
              && Abs() == Next(env, ast, old(Abs()), PatchData(patch, expected, accepted, "human"))
              && error ==
                 (if old(version) != expected then Some(Conflict) else if accepted then None else Some(Refused))
      ensures error.Some? ==> run == old(run)
      ensures Valid() && (error.None? ==> run == Extended(old(run), PatchData(patch, expected, true, "human"), Abs()))
      ensures error.None? ==> MergedInto(old(data), patch, data) && version == old(version) + 1
    {
      if version != expected {
        return Some(Conflict);
      }
      if !editable(patch) {
        return Some(Refused);
      }
      var merged := DeepMerge(data, patch);
      assert merged == FieldsOf(Value.Obj(merged));
      if !validates(merged) {
        return Some(Refused);
      }
      MergedPlainly(data, patch);
      WritePatch(merged, patch, "human");
      Commit(PatchData(patch, expected, true, "human"), old(Abs()));
      error := None;
    }

    /** The write that both updates of the data end in. */
    method WritePatch(merged: Fields, ghost patch: Fields, actorType: string)
      requires merged == MergedFields(data, patch)
      modifies this`data, this`version, this`events
      ensures Abs() == AfterPatch(env, old(Abs()), patch, old(version), true, actorType)
    {
      data, version := merged, version + 1;
      var _ := Record("", "case", actorType, "updated");
    }

    /** A channel's update of a matched case: no version is compared, and an empty patch writes nothing. */
    method UpdateFromChannel(patch: Fields, validates: Fields -> bool) returns (error: Option<StoreError>)
      requires Valid()
      modifies this
      ensures Valid() && (error.Some? ==> run == old(run))
      ensures patch == map[] ==> error == None && Abs() == old(Abs()) && run == old(run)
      ensures patch != map[] ==>
                var accepted := validates(MergedFields(old(data), patch));
                && Abs() == Next(env, ast, old(Abs()), PatchData(patch, old(version), accepted, "system"))
                && error == (if accepted then None else Some(Refused))
                && (accepted ==> run == Extended(old(run), PatchData(patch, old(version), true, "system"), Abs()))
                && (accepted ==> MergedInto(old(data), patch, data) && version == old(version) + 1)
    {
      if patch == map[] {
        return None;
      }
      var merged := DeepMerge(data, patch);
      assert merged == FieldsOf(Value.Obj(merged));
      if !validates(merged) {
        return Some(Refused);
      }
      MergedPlainly(data, patch);
      WritePatch(merged, patch, "system");
      Commit(PatchData(patch, old(version), true, "system"), old(Abs()));
      error := None;
    }

    /** `Engine.UpdateCaseData`: a shallow, version-checked write without an audit event. */
    method AppendCaseData(patch: Fields, expected: int) returns (error: Option<StoreError>)
      requires Valid()
      modifies this
      ensures Abs() == Next(env, ast, old(Abs()), AppendData(patch, expected))
      ensures error == (if old(version) == expected then None else Some(Conflict))
      ensures Valid() && run == if error.None? then Extended(old(run), AppendData(patch, expected), Abs()) else old(run)
    {
      if version != expected {
        return Some(Conflict);
      }
      data, version := data + patch, version + 1;
      Commit(AppendData(patch, expected), old(Abs()));
      error := None;
    }

    /** `CreateTaskFromActivation`: the update names the step but not the state it must be in. */
    method CreateTask(stepId: string)
      requires Valid()
      modifies this
      ensures Abs() == Next(env, ast, old(Abs()), Action.CreateTask(stepId))
      ensures Valid() && run == Extended(old(run), Action.CreateTask(stepId), Abs())
    {
      WriteTask(stepId);
      Commit(Action.CreateTask(stepId), old(Abs()));
    }

    method WriteTask(stepId: string)
      modifies this`rows, this`events, this`changes
      ensures Abs() == AfterTaskCreation(env, old(Abs()), stepId)
    {
      if stepId in rows {
        changes := changes + Count(rows[stepId].state != Active);
        rows := SetState(rows, stepId, Active);
      }
      var _ := Record(stepId, "task", "system", "created");
    }

    /** A transaction that writes nothing to the case but an audit event. */
    method RecordRemark(stepId: string, eventType: string, actorType: string, action: string) returns (ok: bool)
      requires Valid()
      modifies this
      ensures ok <==> IsRegistered(eventType, action)
      ensures Abs() == Next(env, ast, old(Abs()), Remark(stepId, eventType, actorType, action))
      ensures ok ==> run == Extended(old(run), Remark(stepId, eventType, actorType, action), Abs())
      ensures Valid() && (!ok ==> run == old(run))
    {
      ok := Record(stepId, eventType, actorType, action);
      if ok {
        Commit(Remark(stepId, eventType, actorType, action), old(Abs()));
      }
    }
  }

  /** `CreateCase`: the case row, its step rows and the first event, or nothing at all. */
  method CreateCase(env: Env, ast: seq<Step>, data: Fields) returns (r: Result<Store, StoreError>)
    ensures r.Ok? <==> Creatable(ast)
    ensures r.Ok? ==>
              && fresh(r.value) && r.value.env == env && r.value.ast == ast
              && r.value.Abs() == Created(env, ast, data) && r.value.Valid() && r.value.run.actions == []
  {
    var store := new Store(env, ast, data);
    var ok := store.InsertSteps();
    if !ok {
      return Err(DuplicateStep);
    }
    var _ := store.Record("", "case", "human", "created");
    store.run := Run([store.Abs()], []);
    r := Ok(store);
  }

  /**
   * What the run theorems say of a stored case: no step was dispatched twice, its changes are bounded, and its trail
   * is sound exactly when the clock was kept.
   */
  lemma {:induction false} StoreObeysRunLaws(store: Store)
    requires store.Valid()
    ensures Distinct(store.dispatched)
    ensures store.changes <= 3 * |store.ast| + 2 * Revivals(store.run, |store.run.actions|)
    ensures Sound(store.env, store.events) <==> ClockKept(store.env, store.events)
  {
    var n := |store.run.actions|;
    DispatchedAtMostOnce(store.env, store.ast, store.run, n);
    ChangesAreBounded(store.env, store.ast, store.run, n);
    TrailIsSoundExactly(store.env, store.ast, store.run, n);
  }

  /** One more step: it has no id, or repeats one, or gets a row. */
  lemma {:induction false} PendingRowsGrow(ast: seq<Step>, i: nat)
    requires i < |ast| && Creatable(ast[..i])
    ensures var id, rows, longer := ast[i].id, PendingRows(ast[..i]), PendingRows(ast[..i + 1]);
            if id == "" then Creatable(ast[..i + 1]) && longer == rows
            else if id in rows then !Creatable(ast)
            else Creatable(ast[..i + 1]) && longer == rows[id := Row(Pending, "")]
  {
    assert ast[..i + 1][..i] == ast[..i];
    assert forall j :: 0 <= j < i ==> ast[..i][j] == ast[j];
    StepMapHas(ast[..i], ast[i].id);
    if ast[i].id == "" || ast[i].id !in PendingRows(ast[..i]) {
      CreatableGrows(ast, i);
    }
  }

  lemma {:induction false} CreatableGrows(ast: seq<Step>, i: nat)
    requires i < |ast| && Creatable(ast[..i]) && (ast[i].id == "" || forall j :: 0 <= j < i ==> ast[j].id != ast[i].id)
    ensures Creatable(ast[..i + 1])
  {
    forall k, j | 0 <= k < j < i + 1 && ast[k].id != ""
      ensures ast[k].id != ast[j].id
    {
      if j < i {
        assert ast[..i][k].id != ast[..i][j].id;
      }
    }
  }

  lemma CancelledRowsGrow(g: Graph, step: Step, before: Rows)
    requires step.id !in g
    ensures var rows := CancelledRows(g, before);
            CancelledRows(g[step.id := step], before) ==
            if step.kind == "human_task" && IsActive(rows, step.id) then SetState(rows, step.id, Skipped) else rows
  {
  }

  function Ids(steps: seq<Step>): seq<string> {
    if steps == [] then [] else Ids(steps[..|steps| - 1]) + [steps[|steps| - 1].id]
  }

  /** The action holds a successful evaluation of the stored rows, steps without a row counting as pending. */
  ghost predicate Evaluates(ast: seq<Step>, rows: Rows, action: Action) {
    var g := StepMap(ast);
    && action.Evaluate?
    && Covers(g, Filled(g, rows)) && Ranks(g, action.rank)
    && Evaluation(g, action.rank, Filled(g, rows), action.evaluator, action.log)
  }

  /** A step without a row counts as pending: with nothing to wait for it is handed to an executor. */
  lemma {:induction false} RowlessStepStarts(ast: seq<Step>, rows: Rows, action: Action, id: string)
    requires Evaluates(ast, rows, action) && id in StepMap(ast) && id !in rows
    requires StepMap(ast)[id].dependsOn == [] && StepMap(ast)[id].condition == ""
    ensures id in Activated(action.log)
  {
    var g := StepMap(ast);
    PendingStepObeysItsJoin(g, action.rank, Filled(g, rows), action.evaluator, action.log, id);
    DispatchIsActivation(g, action.evaluator, Filled(g, rows), action.log);
  }

  /** And while a dependency is active, an all join without a row waits. */
  lemma {:induction false} RowlessStepWaits(ast: seq<Step>, rows: Rows, action: Action, id: string, d: string)
    requires Evaluates(ast, rows, action) && id in StepMap(ast) && id !in rows
    requires d in StepMap(ast)[id].dependsOn && d in rows && rows[d].state == Active && StepMap(ast)[id].join != "any"
    ensures id !in Activated(action.log)
  {
    var g := StepMap(ast);
    var filled := Filled(g, rows);
    var now := Replay(filled, action.log);
    StartedStepsStay(g, action.rank, filled, action.evaluator, action.log, d);
    DispatchIsActivation(g, action.evaluator, filled, action.log);
    if Chosen(g, filled, id) {
      PendingStepObeysItsJoin(g, action.rank, filled, action.evaluator, action.log, id);
      assert SomeDependencyIn(g, now, id, {Pending, Ready, Active});
    } else {
      UnchosenIsSkipped(g, action.rank, filled, action.evaluator, action.log, id);
    }
  }

  /** Every logged transition names a step of the workflow. */
  lemma {:induction false} LoggedStepsAreKnown(ast: seq<Step>, rows: Rows, action: Action)
    requires Evaluates(ast, rows, action)
    ensures forall i :: 0 <= i < |action.log| ==> action.log[i].stepId in StepMap(ast)
  {
    var g := StepMap(ast);
    forall i | 0 <= i < |action.log|
      ensures action.log[i].stepId in g
    {
      assert EnabledAt(g, action.evaluator, Filled(g, rows), action.log, i);
    }
  }

  lemma {:induction false} EveryStepHasItsRow(env: Env, ast: seq<Step>, run: Run)
    requires IsRun(env, ast, run) && WellFormed(ast)
    ensures StepMap(ast).Keys <= Last(run).rows.Keys
  {
    RowsKeepTheirSteps(env, ast, run, |run.actions|);
    StepMapHas(ast, "");
  }

  /** When every step has its row, as `CreateCase` sees to, what was evaluated is a transaction of the case. */
  lemma {:induction false} EvaluationIsTransaction(env: Env, ast: seq<Step>, c: Case, action: Action)
    requires Evaluates(ast, c.rows, action) && c.status != Cancelled && StepMap(ast).Keys <= c.rows.Keys
    ensures Allowed(ast, c, action) && Next(env, ast, c, action) == AfterEvaluation(env, c, action.log)
  {
    assert Filled(StepMap(ast), c.rows) == c.rows;
  }

  /** The separators are tried in order; a split with an empty part is passed over. */
  method SplitAuditType(auditType: string) returns (eventType: string, action: string)
    ensures (eventType, action) == AuditPair(auditType)
  {
    eventType, action := "step", "completed";
    if auditType != "" {
      var separators := ['.', '/'];
      var i := 0;
      while i < 2
        invariant 0 <= i <= 2
        invariant eventType == "step" && action == "completed"
        invariant forall j :: 0 <= j < i ==> !Splits(auditType, separators[j])
      {
        var sep := separators[i];
        if sep in auditType {
          var left, right := Before(auditType, sep), After(auditType, sep);
          if left != "" && right != "" {
            eventType, action := left, right;
            assert i == 1 ==> !Splits(auditType, separators[0]);
            break;
          }
        }
        i := i + 1;
      }
      assert i == 2 ==> !Splits(auditType, separators[0]) && !Splits(auditType, separators[1]);
      if '.' !in auditType && '/' !in auditType {
        eventType := auditType;
      }
    }
  }

  /** An executor that reports an unregistered audit pair can never complete its step. */
  lemma UnregisteredPairRollsBack(
    env: Env, ast: seq<Step>, c: Case, stepId: string, outcome: string, output: Option<Fields>, auditType: string)
    ensures Next(env, ast, c, Complete(stepId, outcome, output, auditType)) != c <==>
            IsActive(c.rows, stepId) && IsRegistered(AuditPair(auditType).0, AuditPair(auditType).1)
  {
    if IsActive(c.rows, stepId) && IsRegistered(AuditPair(auditType).0, AuditPair(auditType).1) {
      assert Next(env, ast, c, Complete(stepId, outcome, output, auditType)).changes == c.changes + 1;
    }
  }

  lemma DottedTypeSplits(eventType: string, action: string)
    requires '.' !in eventType && eventType != "" && action != ""
    ensures AuditPair(eventType + ("." + action)) == (eventType, action)
  {
    var auditType := eventType + ("." + action);
    IndexOfAfter(eventType, "." + action, '.');
    assert auditType[|eventType|] == '.';
    assert auditType[|eventType| + 1..] == action && auditType[..|eventType|] == eventType;
  }

  /** The pairs reported by the reasoning, component, extraction and MCP executors. */
  const EXECUTOR_PAIRS := {
    ("agentic", "concluded"), ("ai_component", "executed"), ("extraction", "accepted"), ("extraction", "rejected"),
    ("mcp", "invoked")}

  /** None of these pairs is registered, so `completeStep` refuses every completion these executors report. */
  lemma {:induction false} ExecutorPairsNeverComplete(
    env: Env, ast: seq<Step>, c: Case, stepId: string, outcome: string, output: Option<Fields>, pair: (string, string))
    requires pair in EXECUTOR_PAIRS
    ensures Next(env, ast, c, Complete(stepId, outcome, output, pair.0 + ("." + pair.1))) == c
  {
    ExecutorPairIsUnregistered(pair);
    DottedTypeSplits(pair.0, pair.1);
  }

  lemma {:induction false} ExecutorPairIsUnregistered(pair: (string, string))
    requires pair in EXECUTOR_PAIRS
    ensures '.' !in pair.0 && pair.0 != "" && pair.1 != "" && !IsRegistered(pair.0, pair.1)
  {
  }
}
