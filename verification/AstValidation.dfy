/** `ValidateAST`: the scan of the step list and the three-colour depth-first search for cycles. */
module AstValidation {
  import opened Common
  import opened Workflow

  datatype AstError =
    | NoSteps
    | EmptyId
    | DuplicateId(id: string)
    | InvalidJoin(id: string)
    | UnknownDependency(id: string, dep: string)
    | CycleAt(id: string)

  const GREY := 1
  const BLACK := 2

  /** Finished steps in finishing order: each one's dependencies were finished before it. */
  ghost predicate TopoOrder(g: Graph, order: seq<string>) {
    && (forall x :: x in order ==> x in g)
    && (forall i, d :: 0 <= i < |order| && d in g[order[i]].dependsOn ==> d in order[..i])
  }

  /** The search invariant: grey steps form the current path, black ones a topological order. */
  ghost predicate Painted(g: Graph, colour: map<string, int>, path: seq<string>, order: seq<string>) {
    && IsPath(g, path)
    && TopoOrder(g, order)
    && (forall x :: x in colour <==> x in path || x in order)
    && (forall x :: x in path ==> colour[x] == GREY)
    && (forall x :: x in order ==> colour[x] == BLACK)
  }

  ghost predicate OnCycle(g: Graph, id: string) {
    exists cycle :: IsCycle(g, cycle) && cycle[0] == id
  }

  /** A path whose last step depends on a step of the path closes a cycle. */
  lemma {:induction false} PathClosesCycle(g: Graph, path: seq<string>, id: string)
    requires IsPath(g, path) && id in path && id in g[path[|path| - 1]].dependsOn
    ensures OnCycle(g, id)
  {
    var k := IndexOf(path, id);
    var cycle := path[k..];
    forall i | 0 <= i < |cycle| - 1
      ensures cycle[i + 1] in g[cycle[i]].dependsOn
    {
      assert path[k + i + 1] in g[path[k + i]].dependsOn;
    }
    assert IsCycle(g, cycle) && cycle[0] == id;
  }

  /** The recursive `visit`: it finishes `id` and all it depends on, or exhibits a cycle. */
  method Visit(g: Graph, id: string, colour: map<string, int>, ghost path: seq<string>, ghost order: seq<string>)
    returns (painted: map<string, int>, cycleAt: Option<string>, ghost finished: seq<string>)
    requires Closed(g) && id in g && Painted(g, colour, path, order)
    requires path != [] ==> id in g[path[|path| - 1]].dependsOn
    ensures cycleAt.None? ==> Painted(g, painted, path, finished) && id in finished
    ensures cycleAt.None? ==> order <= finished && colour.Keys <= painted.Keys
    ensures cycleAt.Some? ==> OnCycle(g, cycleAt.value)
    decreases g.Keys - colour.Keys
  {
    finished, painted, cycleAt := order, colour, None;
    if id in colour && colour[id] == GREY {
      PathClosesCycle(g, path, id);
      return painted, Some(id), finished;
    }
    if id in colour && colour[id] == BLACK {
      return;
    }
    painted := colour[id := GREY];
    ghost var deeper := path + [id];
    assert IsPath(g, deeper);
    var deps := g[id].dependsOn;
    for i := 0 to |deps|
      invariant Painted(g, painted, deeper, finished)
      invariant order <= finished && colour.Keys + {id} <= painted.Keys
      invariant forall d :: d in deps[..i] ==> d in finished
      invariant cycleAt.None?
    {
      painted, cycleAt, finished := Visit(g, deps[i], painted, deeper, finished);
      if cycleAt.Some? {
        return;
      }
    }
    assert deps[..|deps|] == deps;
    assert id in deeper;
    painted := painted[id := BLACK];
    assert forall i :: 0 <= i <= |finished| ==> (finished + [id])[..i] == finished[..i];
    finished := finished + [id];
  }

  /** A topological order gives each step the rank of its first position. */
  ghost function PositionRank(order: seq<string>): map<string, nat> {
    map x | x in order :: IndexOf(order, x)
  }

  lemma OrderRanks(g: Graph, order: seq<string>)
    requires TopoOrder(g, order) && forall id :: id in g ==> id in order
    ensures Ranks(g, PositionRank(order))
  {
    forall id, d | id in g && d in g[id].dependsOn
      ensures d in order && IndexOf(order, d) < IndexOf(order, id)
    {
      assert d in order[..IndexOf(order, id)];
    }
  }

  /** The error names a real defect of the workflow. */
  ghost predicate Diagnoses(error: AstError, ast: seq<Step>) {
    match error
    case NoSteps => ast == []
    case EmptyId => exists i :: 0 <= i < |ast| && ast[i].id == ""
    case DuplicateId(id) => exists i, j :: 0 <= i < j < |ast| && ast[i].id == ast[j].id == id
    case InvalidJoin(id) => exists i :: 0 <= i < |ast| && ast[i].id == id && !ValidJoin(ast[i])
    case UnknownDependency(id, dep) =>
      dep !in StepMap(ast) && exists i :: 0 <= i < |ast| && ast[i].id == id && dep in ast[i].dependsOn
    case CycleAt(id) => OnCycle(StepMap(ast), id)
  }

  /** What is wrong with step i, given the steps before it. */
  function Defect(ast: seq<Step>, i: nat): Option<AstError>
    requires i < |ast|
  {
    if ast[i].id == "" then Some(EmptyId)
    else if ast[i].id in StepMap(ast[..i]) then Some(DuplicateId(ast[i].id))
    else if !ValidJoin(ast[i]) then Some(InvalidJoin(ast[i].id))
    else None
  }

  /** The error is that of the first step that has one. */
  ghost predicate IsFirstDefect(ast: seq<Step>, error: Option<AstError>) {
    exists i :: 0 <= i < |ast| && Defect(ast, i) == error && forall j :: 0 <= j < i ==> Defect(ast, j).None?
  }

  ghost predicate IsStep(ast: seq<Step>, id: string) {
    exists j :: 0 <= j < |ast| && ast[j].id == id
  }

  /** Nothing is wrong with step i, given the steps before it. */
  ghost predicate Passes(ast: seq<Step>, i: nat)
    requires i < |ast|
  {
    ast[i].id != "" && (forall j :: 0 <= j < i ==> ast[j].id != ast[i].id) && ast[i].join in ["", "all", "any"]
  }

  /** A missing id is reported before a repeated one, and a repeated one before an unknown join. */
  ghost predicate Reports(ast: seq<Step>, i: nat, error: AstError)
    requires i < |ast|
  {
    if ast[i].id == "" then error == EmptyId
    else if exists j :: 0 <= j < i && ast[j].id == ast[i].id then error == DuplicateId(ast[i].id)
    else ast[i].join !in ["", "all", "any"] && error == InvalidJoin(ast[i].id)
  }

  lemma {:induction false} DefectPlainly(ast: seq<Step>, i: nat)
    requires i < |ast|
    ensures Defect(ast, i).None? <==> Passes(ast, i)
    ensures Defect(ast, i).Some? ==> Reports(ast, i, Defect(ast, i).value)
  {
    StepMapHas(ast[..i], ast[i].id);
    ValidJoinPlainly(ast[i]);
    assert forall j :: 0 <= j < i ==> ast[..i][j] == ast[j];
    if ast[i].id in StepMap(ast[..i]) {
      var j :| 0 <= j < i && ast[..i][j].id == ast[i].id;
      assert ast[j].id == ast[i].id;
    }
  }

  ghost predicate DependsOnSteps(ast: seq<Step>, i: nat)
    requires i < |ast|
  {
    forall d :: d in ast[i].dependsOn ==> IsStep(ast, d)
  }

  lemma {:induction false} DependsOnStepsPlainly(ast: seq<Step>, i: nat)
    requires i < |ast|
    ensures DependsOnSteps(ast, i) <==> forall d :: d in ast[i].dependsOn ==> d in StepMap(ast)
  {
    forall d | d in ast[i].dependsOn
      ensures IsStep(ast, d) <==> d in StepMap(ast)
    {
      StepMapHas(ast, d);
    }
  }

  /** What is accepted: at least one step, every step passes and depends on steps, and no step on itself by any way. */
  lemma {:induction false} WellFormedPlainly(ast: seq<Step>)
    ensures WellFormed(ast) <==>
            && ast != []
            && (forall i :: 0 <= i < |ast| ==> Passes(ast, i))
            && (forall i :: 0 <= i < |ast| ==> DependsOnSteps(ast, i))
            && Acyclic(StepMap(ast))
  {
    if WellFormed(ast) {
      forall i | 0 <= i < |ast|
        ensures Passes(ast, i) && DependsOnSteps(ast, i)
      {
        ValidJoinPlainly(ast[i]);
        DependsOnStepsPlainly(ast, i);
      }
    }
    if (forall i :: 0 <= i < |ast| ==> Passes(ast, i)) && (forall i :: 0 <= i < |ast| ==> DependsOnSteps(ast, i)) {
      forall i | 0 <= i < |ast|
        ensures ast[i].id != "" && ValidJoin(ast[i])
        ensures forall j :: 0 <= j < i ==> ast[j].id != ast[i].id
        ensures forall d :: d in ast[i].dependsOn ==> d in StepMap(ast)
      {
        assert Passes(ast, i) && DependsOnSteps(ast, i);
        ValidJoinPlainly(ast[i]);
        DependsOnStepsPlainly(ast, i);
      }
    }
  }

  /** The error is that of the first step that does not pass. */
  ghost predicate ReportsFirst(ast: seq<Step>, error: AstError) {
    exists i :: 0 <= i < |ast| && Reports(ast, i, error) && forall j :: 0 <= j < i ==> Passes(ast, j)
  }

  lemma {:induction false} FirstDefectPlainly(ast: seq<Step>, error: AstError)
    requires IsFirstDefect(ast, Some(error))
    ensures ReportsFirst(ast, error)
  {
    var i :| 0 <= i < |ast| && Defect(ast, i) == Some(error) && forall j :: 0 <= j < i ==> Defect(ast, j).None?;
    DefectPlainly(ast, i);
    forall j | 0 <= j < i
      ensures Passes(ast, j)
    {
      DefectPlainly(ast, j);
    }
  }

  /** The first loop: ids are present and unique, and joins are known; it fills `byID`. */
  method ScanSteps(ast: seq<Step>) returns (byID: Graph, error: Option<AstError>)
    ensures error.None? ==> byID == StepMap(ast) && forall i :: 0 <= i < |ast| ==> Defect(ast, i).None?
    ensures error.Some? ==> IsFirstDefect(ast, error)
  {
    byID, error := map[], None;
    for i := 0 to |ast|
      invariant byID == StepMap(ast[..i])
      invariant forall j :: 0 <= j < i ==> Defect(ast, j).None?
    {
      var step := ast[i];
      ghost var defect := Defect(ast, i);
      assert ast[..i + 1][..i] == ast[..i];
      if step.id == "" {
        return byID, Some(EmptyId);
      }
      if step.id in byID {
        return byID, Some(DuplicateId(step.id));
      }
      var join := NormalizedJoin(step.join);
      if join != "all" && join != "any" {
        return byID, Some(InvalidJoin(step.id));
      }
      byID := byID[step.id := step];
    }
    assert ast[..|ast|] == ast;
  }

  lemma {:induction false} DefectDiagnoses(ast: seq<Step>, i: nat)
    requires i < |ast| && Defect(ast, i).Some?
    ensures Diagnoses(Defect(ast, i).value, ast)
  {
    StepMapHas(ast[..i], ast[i].id);
    if Defect(ast, i).value.DuplicateId? {
      var j :| 0 <= j < i && ast[..i][j].id == ast[i].id;
      assert ast[j].id == ast[i].id;
    }
  }

  lemma {:induction false} NoDefectMeans(ast: seq<Step>)
    requires forall i :: 0 <= i < |ast| ==> Defect(ast, i).None?
    ensures UniqueIds(ast)
    ensures forall i :: 0 <= i < |ast| ==> ast[i].id != "" && ValidJoin(ast[i])
  {
    forall i | 0 <= i < |ast|
      ensures ast[i].id != "" && ValidJoin(ast[i])
      ensures forall j :: 0 <= j < i ==> ast[j].id != ast[i].id
    {
      assert Defect(ast, i).None?;
      StepMapHas(ast[..i], ast[i].id);
      assert forall j :: 0 <= j < i ==> ast[..i][j] == ast[j];
    }
  }

  /** The second loop: every dependency is a step. */
  method ScanDependencies(ast: seq<Step>, byID: Graph) returns (error: Option<AstError>)
    requires byID == StepMap(ast)
    ensures error.None? ==> forall i, d :: 0 <= i < |ast| && d in ast[i].dependsOn ==> d in byID
    ensures error.Some? ==> error.value.UnknownDependency? && Diagnoses(error.value, ast)
  {
    for i := 0 to |ast|
      invariant forall j, d :: 0 <= j < i && d in ast[j].dependsOn ==> d in byID
    {
      var deps := ast[i].dependsOn;
      for k := 0 to |deps|
        invariant forall d :: d in deps[..k] ==> d in byID
      {
        if deps[k] !in byID {
          return Some(UnknownDependency(ast[i].id, deps[k]));
        }
      }
      assert deps[..|deps|] == deps;
    }
    error := None;
  }

  /** The third loop: every step is visited. */
  method SearchCycles(ast: seq<Step>, byID: Graph)
    returns (error: Option<AstError>, ghost rank: map<string, nat>)
    requires byID == StepMap(ast) && UniqueIds(ast) && Closed(byID)
    ensures error.None? ==> Ranks(byID, rank)
    ensures error.Some? ==> error.value.CycleAt? && Diagnoses(error.value, ast)
  {
    rank := map[];
    var colour: map<string, int> := map[];
    ghost var order: seq<string> := [];
    for i := 0 to |ast|
      invariant Painted(byID, colour, [], order)
      invariant forall j :: 0 <= j < i ==> ast[j].id in order
    {
      StepMapAt(ast, i);
      var cycleAt;
      colour, cycleAt, order := Visit(byID, ast[i].id, colour, [], order);
      if cycleAt.Some? {
        return Some(CycleAt(cycleAt.value)), rank;
      }
    }
    forall id | id in byID
      ensures id in order
    {
      StepMapHas(ast, id);
    }
    rank := PositionRank(order);
    OrderRanks(byID, order);
    error := None;
  }

  /** A defective step makes the workflow ill formed. */
  lemma {:induction false} Refused(ast: seq<Step>, error: AstError)
    requires IsFirstDefect(ast, Some(error))
    ensures Diagnoses(error, ast) && !WellFormed(ast)
  {
    var i :| 0 <= i < |ast| && Defect(ast, i) == Some(error) && forall j :: 0 <= j < i ==> Defect(ast, j).None?;
    DefectDiagnoses(ast, i);
  }

  /**
   * Acceptance is exactly well-formedness; an accepted workflow comes with a topological rank and a
   * refused one with a true diagnosis, which for a cycle error is an actual cycle through the named step.
   */
  method ValidateAST(ast: seq<Step>) returns (r: Result<(), AstError>, ghost rank: map<string, nat>)
    ensures r.Ok? <==> WellFormed(ast)
    ensures r.Ok? ==> Ranks(StepMap(ast), rank)
    ensures ast == [] <==> r == Err(NoSteps)
    ensures r.Err? ==> Diagnoses(r.error, ast)
    ensures r.Err? && (r.error.EmptyId? || r.error.DuplicateId? || r.error.InvalidJoin?) ==> ReportsFirst(ast, r.error)
    ensures r.Err? && (r.error.UnknownDependency? || r.error.CycleAt?) ==>
              forall i :: 0 <= i < |ast| ==> Passes(ast, i)
  {
    rank := map[];
    if ast == [] {
      return Err(NoSteps), rank;
    }
    var byID, error := ScanSteps(ast);
    if error.Some? {
      Refused(ast, error.value);
      FirstDefectPlainly(ast, error.value);
      return Err(error.value), rank;
    }
    NoDefectMeans(ast);
    forall i | 0 <= i < |ast|
      ensures Passes(ast, i)
    {
      DefectPlainly(ast, i);
    }
    error := ScanDependencies(ast, byID);
    if error.Some? {
      return Err(error.value), rank;
    }
    WellFormedIsClosed(ast);
    error, rank := SearchCycles(ast, byID);
    if error.Some? {
      return Err(error.value), rank;
    }
    RankedIsAcyclic(byID, rank);
    r := Ok(());
  }
}
