/** Workflow definitions: steps, their dependency graph, and what makes a workflow well formed. */
module Workflow {

  /** The six step states admitted by the `case_steps.state` check constraint. */
  datatype State = Pending | Ready | Active | Completed | Failed | Skipped {

    predicate Terminal() {
      Completed? || Failed? || Skipped?
    }

    /** A step that has not been started or settled yet. */
    predicate Open() {
      Pending? || Ready?
    }

    /** Lifecycle rank: pending < ready < active < terminal. */
    function Rank(): nat {
      match this
      case Pending => 0
      case Ready => 1
      case Active => 2
      case _ => 3
    }
  }

  datatype Step = Step(
    id: string,
    kind: string,
    dependsOn: seq<string>,
    join: string,
    condition: string,
    outcomes: map<string, seq<string>>)

  /** A step's row; `outcome` is what `extractOutcome` reads from the stored result ("" when unreadable). */
  datatype Row = Row(state: State, outcome: string)

  type Rows = map<string, Row>

  type Graph = map<string, Step>

  function NormalizedJoin(join: string): string {
    if join == "" then "all" else join
  }

  predicate ValidJoin(step: Step) {
    NormalizedJoin(step.join) == "all" || NormalizedJoin(step.join) == "any"
  }

  /** The joins a workflow may name; none at all means all. */
  lemma {:induction false} ValidJoinPlainly(step: Step)
    ensures ValidJoin(step) <==> step.join in ["", "all", "any"]
  {
  }

  ghost predicate UniqueIds(ast: seq<Step>) {
    forall i, j :: 0 <= i < j < |ast| ==> ast[i].id != ast[j].id
  }

  /** The steps by id; with unique ids the order of `ast` is forgotten here. */
  function StepMap(ast: seq<Step>): Graph {
    if ast == [] then map[]
    else
      var step := ast[|ast| - 1];
      StepMap(ast[..|ast| - 1])[step.id := step]
  }

  lemma {:induction false} StepMapHas(ast: seq<Step>, id: string)
    ensures id in StepMap(ast) <==> exists i :: 0 <= i < |ast| && ast[i].id == id
    ensures id in StepMap(ast) ==> StepMap(ast)[id] in ast && StepMap(ast)[id].id == id
  {
    if ast != [] {
      var n := |ast| - 1;
      StepMapHas(ast[..n], id);
      if id in StepMap(ast[..n]) {
        var i :| 0 <= i < n && ast[..n][i].id == id;
        assert ast[i].id == id;
      }
    }
  }

  lemma {:induction false} StepMapAt(ast: seq<Step>, i: nat)
    requires UniqueIds(ast) && i < |ast|
    ensures ast[i].id in StepMap(ast) && StepMap(ast)[ast[i].id] == ast[i]
  {
    var n := |ast| - 1;
    if i < n {
      StepMapAt(ast[..n], i);
      assert ast[i].id != ast[n].id;
    }
  }

  lemma {:induction false} ListedOnce(ast: seq<Step>, step: Step)
    requires UniqueIds(ast)
    ensures multiset(ast)[step] <= 1
  {
    if ast != [] {
      var n := |ast| - 1;
      ListedOnce(ast[..n], step);
      assert ast == ast[..n] + [ast[n]];
      if step == ast[n] {
        assert step !in ast[..n];
        assert multiset(ast[..n])[step] == 0;
      }
    }
  }

  lemma {:induction false} ListedTwice(ast: seq<Step>, i: nat, j: nat)
    requires i < j < |ast| && ast[i] == ast[j]
    ensures multiset(ast)[ast[i]] >= 2
  {
    assert ast == ast[..j] + ast[j..];
    assert ast[..j][i] in multiset(ast[..j]) && ast[j..][0] in multiset(ast[j..]);
  }

  lemma {:induction false} UniqueIdsIgnoreOrder(ast: seq<Step>, other: seq<Step>)
    requires UniqueIds(ast) && multiset(ast) == multiset(other)
    ensures UniqueIds(other)
  {
    forall i, j | 0 <= i < j < |other|
      ensures other[i].id != other[j].id
    {
      ListedOnce(ast, other[i]);
      if other[i] == other[j] {
        ListedTwice(other, i, j);
      }
      assert other[i] in multiset(ast) && other[j] in multiset(ast);
      var k :| 0 <= k < |ast| && ast[k] == other[i];
      var l :| 0 <= l < |ast| && ast[l] == other[j];
      assert k < l || l < k;
    }
  }

  /** Two listings of the same steps denote the same graph. */
  lemma StepMapIgnoresOrder(ast: seq<Step>, other: seq<Step>)
    requires UniqueIds(ast) && multiset(ast) == multiset(other)
    ensures StepMap(ast) == StepMap(other)
  {
    UniqueIdsIgnoreOrder(ast, other);
    forall id
      ensures id in StepMap(ast) ==> id in StepMap(other) && StepMap(other)[id] == StepMap(ast)[id]
      ensures id in StepMap(other) ==> id in StepMap(ast)
    {
      if id in StepMap(ast) {
        Carried(ast, other, id);
      }
      if id in StepMap(other) {
        Carried(other, ast, id);
      }
    }
  }

  lemma Carried(ast: seq<Step>, other: seq<Step>, id: string)
    requires UniqueIds(other) && multiset(ast) == multiset(other)
    requires id in StepMap(ast)
    ensures id in StepMap(other) && StepMap(other)[id] == StepMap(ast)[id]
  {
    StepMapHas(ast, id);
    var step := StepMap(ast)[id];
    assert step in multiset(other);
    var j :| 0 <= j < |other| && other[j] == step;
    StepMapAt(other, j);
  }

  /** Every step is filed under its own id and depends only on known steps. */
  ghost predicate Closed(g: Graph) {
    && (forall id :: id in g ==> g[id].id == id)
    && (forall id, d :: id in g && d in g[id].dependsOn ==> d in g)
  }

  /** A chain of steps, each depending on the next. */
  ghost predicate IsPath(g: Graph, path: seq<string>) {
    && (forall x :: x in path ==> x in g)
    && (forall i :: 0 <= i < |path| - 1 ==> path[i + 1] in g[path[i]].dependsOn)
  }

  ghost predicate IsCycle(g: Graph, cycle: seq<string>) {
    && cycle != []
    && IsPath(g, cycle)
    && cycle[0] in g[cycle[|cycle| - 1]].dependsOn
  }

  ghost predicate Acyclic(g: Graph) {
    forall cycle :: !IsCycle(g, cycle)
  }

  /** A topological rank: every dependency ranks below its dependent. */
  ghost predicate Ranks(g: Graph, rank: map<string, nat>) {
    && g.Keys <= rank.Keys
    && (forall id, d :: id in g && d in g[id].dependsOn ==> d in rank && rank[d] < rank[id])
  }

  /** What the documentation asks of a workflow, said without reference to any search. */
  ghost predicate WellFormed(ast: seq<Step>) {
    && ast != []
    && (forall i :: 0 <= i < |ast| ==> ast[i].id != "")
    && UniqueIds(ast)
    && (forall i :: 0 <= i < |ast| ==> ValidJoin(ast[i]))
    && (forall i, d :: 0 <= i < |ast| && d in ast[i].dependsOn ==> d in StepMap(ast))
    && Acyclic(StepMap(ast))
  }

  /** Whether a workflow is well formed does not depend on the order of its steps. */
  lemma {:induction false} WellFormedIgnoresOrder(ast: seq<Step>, other: seq<Step>)
    requires WellFormed(ast) && multiset(ast) == multiset(other)
    ensures WellFormed(other) && StepMap(other) == StepMap(ast)
  {
    UniqueIdsIgnoreOrder(ast, other);
    StepMapIgnoresOrder(ast, other);
    assert ast[0] in multiset(other);
    forall i | 0 <= i < |other|
      ensures other[i] in ast
    {
      assert other[i] in multiset(ast);
    }
  }

  lemma WellFormedIsClosed(ast: seq<Step>)
    requires UniqueIds(ast)
    requires forall i, d :: 0 <= i < |ast| && d in ast[i].dependsOn ==> d in StepMap(ast)
    ensures Closed(StepMap(ast))
  {
    forall id | id in StepMap(ast)
      ensures StepMap(ast)[id].id == id
      ensures forall d :: d in StepMap(ast)[id].dependsOn ==> d in StepMap(ast)
    {
      StepMapHas(ast, id);
    }
  }

  /** Along a path the rank only falls, so a ranked graph has no cycle. */
  lemma {:induction false} PathDescends(g: Graph, rank: map<string, nat>, path: seq<string>, i: nat)
    requires Ranks(g, rank) && IsPath(g, path) && i < |path|
    ensures rank[path[i]] <= rank[path[0]]
  {
    if i > 0 {
      PathDescends(g, rank, path, i - 1);
      assert path[i - 1 + 1] in g[path[i - 1]].dependsOn;
    }
  }

  lemma RankedIsAcyclic(g: Graph, rank: map<string, nat>)
    requires Ranks(g, rank)
    ensures Acyclic(g)
  {
    forall cycle
      ensures !IsCycle(g, cycle)
    {
      if IsCycle(g, cycle) {
        PathDescends(g, rank, cycle, |cycle| - 1);
        assert false;
      }
    }
  }
}
