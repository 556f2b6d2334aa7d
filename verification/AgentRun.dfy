/** The bounded reasoning loop of an agent: tool manifest, limits, and the run itself. */
module AgentRun {
  import opened Common
  import opened Conversation

  // ---- Tools ----------------------------------------------------------------------------------------------

  datatype Node = Node(id: string, source: string)

  datatype Tool = Tool(id: string, name: string, safety: string)

  /** The tools offered, and the last one of each name. */
  datatype Manifest = Manifest(tools: seq<Tool>, byName: map<string, Tool>)

  /** `ToolMode.Normalize`: an unknown mode becomes read-only, a known one is returned as written. */
  function NormalizeMode(mode: string): string {
    if TrimSpace(mode) in ["read_only", "restricted_write", "full"] then mode else "read_only"
  }

  predicate AllowedByMode(mode: string, safety: string) {
    if mode == "full" then true
    else if mode == "restricted_write" then safety in ["read_only", "", "idempotent_write"]
    else safety in ["read_only", ""]
  }

  predicate Referenced(refs: seq<string>, id: string) {
    id != "" && exists ref :: ref in refs && TrimSpace(ref) == id
  }

  /** The policy references the tool's node and its mode admits the tool. */
  predicate Authorised(refs: seq<string>, mode: string, tool: Tool) {
    && Referenced(refs, TrimSpace(tool.id))
    && AllowedByMode(NormalizeMode(mode), tool.safety)
  }

  /** The tool a name resolves to: the last one listed under it. */
  function LastNamed(tools: seq<Tool>, name: string): Option<Tool> {
    if tools == [] then None
    else if tools[|tools| - 1].name == name then Some(tools[|tools| - 1])
    else LastNamed(tools[..|tools| - 1], name)
  }

  ghost predicate Indexed(m: Manifest) {
    forall name :: (if name in m.byName then Some(m.byName[name]) else None) == LastNamed(m.tools, name)
  }

  lemma {:induction false} NamedIsListed(tools: seq<Tool>, name: string)
    ensures LastNamed(tools, name).Some? ==> LastNamed(tools, name).value in tools
  {
    if tools != [] {
      NamedIsListed(tools[..|tools| - 1], name);
    }
  }

  /** The name stands for no tool, or for this one and none listed after it. */
  ghost predicate StandsFor(tools: seq<Tool>, name: string, t: Option<Tool>) {
    match t
    case None => forall k :: 0 <= k < |tools| ==> tools[k].name != name
    case Some(tool) =>
      exists k :: 0 <= k < |tools| && tools[k] == tool && tool.name == name
                  && forall l :: k < l < |tools| ==> tools[l].name != name
  }

  lemma {:induction false} LastNamedStands(tools: seq<Tool>, name: string)
    ensures StandsFor(tools, name, LastNamed(tools, name))
  {
    if tools != [] {
      var n := |tools| - 1;
      LastNamedStands(tools[..n], name);
      assert forall k :: 0 <= k < n ==> tools[..n][k] == tools[k];
      if tools[n].name == name {
        assert tools[n] == LastNamed(tools, name).value;
      } else if LastNamed(tools, name).Some? {
        var k :| 0 <= k < n && tools[..n][k] == LastNamed(tools, name).value && tools[..n][k].name == name
                 && forall l :: k < l < n ==> tools[..n][l].name != name;
        assert tools[k] == LastNamed(tools, name).value;
      }
    }
  }

  method NewToolManifest(tools: seq<Tool>) returns (m: Manifest)
    ensures m.tools == tools && Indexed(m)
    ensures forall name :: StandsFor(tools, name, if name in m.byName then Some(m.byName[name]) else None)
  {
    var byName: map<string, Tool> := map[];
    for i := 0 to |tools|
      invariant Indexed(Manifest(tools[..i], byName))
    {
      assert tools[..i + 1][..i] == tools[..i];
      byName := byName[tools[i].name := tools[i]];
    }
    assert tools[..|tools|] == tools;
    m := Manifest(tools, byName);
    forall name
      ensures StandsFor(tools, name, if name in byName then Some(byName[name]) else None)
    {
      LastNamedStands(tools, name);
    }
  }

  /** The tools of the nodes that the policy references and its mode admits, in order. */
  function Selected(
    refs: seq<string>, mode: string, nodes: seq<Node>, nameOf: Node -> string, safetyOf: Node -> Option<string>)
    : seq<Tool>
  {
    if nodes == [] then []
    else
      var n := nodes[|nodes| - 1];
      var before := Selected(refs, mode, nodes[..|nodes| - 1], nameOf, safetyOf);
      if safetyOf(n).Some? && Authorised(refs, mode, Tool(n.id, nameOf(n), safetyOf(n).value))
      then before + [Tool(n.id, nameOf(n), safetyOf(n).value)]
      else before
  }

  /** What a mode, written exactly, lets a tool do; any other mode reads only. */
  predicate Permits(mode: string, safety: string) {
    || safety in {"read_only", ""}
    || mode == "full"
    || (mode == "restricted_write" && safety == "idempotent_write")
  }

  /** Some reference, trimmed, is the trimmed id, which is not blank. */
  ghost predicate RefersTo(refs: seq<string>, id: string) {
    TrimSpace(id) != "" && exists i :: 0 <= i < |refs| && TrimSpace(refs[i]) == TrimSpace(id)
  }

  lemma {:induction false} AuthorisedPlainly(refs: seq<string>, mode: string, tool: Tool)
    ensures Authorised(refs, mode, tool) <==> RefersTo(refs, tool.id) && Permits(mode, tool.safety)
  {
    ModesPermit(mode, tool.safety);
    ReferencePlainly(refs, tool.id);
  }

  lemma {:induction false} ModesPermit(mode: string, safety: string)
    ensures AllowedByMode(NormalizeMode(mode), safety) <==> Permits(mode, safety)
  {
    if mode == "full" {
      assert TrimSpace("full") == "full";
    } else if mode == "restricted_write" {
      assert TrimSpace("restricted_write") == "restricted_write";
    }
  }

  lemma {:induction false} ReferencePlainly(refs: seq<string>, id: string)
    ensures Referenced(refs, TrimSpace(id)) <==> RefersTo(refs, id)
  {
    if Referenced(refs, TrimSpace(id)) {
      var ref :| ref in refs && TrimSpace(ref) == TrimSpace(id);
      var i :| 0 <= i < |refs| && refs[i] == ref;
    }
    if RefersTo(refs, id) {
      var i :| 0 <= i < |refs| && TrimSpace(refs[i]) == TrimSpace(id);
      assert refs[i] in refs;
    }
  }

  /** The node can be built, is referenced, and its tool is permitted; this is the tool. */
  ghost predicate Offers(
    refs: seq<string>, mode: string, n: Node, nameOf: Node -> string, safetyOf: Node -> Option<string>, t: Tool)
  {
    && safetyOf(n).Some? && t == Tool(n.id, nameOf(n), safetyOf(n).value)
    && RefersTo(refs, n.id) && Permits(mode, t.safety)
  }

  /** Whether the last node adds this tool. */
  lemma {:induction false} LastNodeOffers(
    refs: seq<string>, mode: string, nodes: seq<Node>, nameOf: Node -> string, safetyOf: Node -> Option<string>,
    t: Tool)
    requires nodes != []
    ensures var n := |nodes| - 1;
            t in Selected(refs, mode, nodes, nameOf, safetyOf) <==>
            t in Selected(refs, mode, nodes[..n], nameOf, safetyOf) || Offers(refs, mode, nodes[n], nameOf, safetyOf, t)
  {
    var n := nodes[|nodes| - 1];
    if safetyOf(n).Some? {
      AuthorisedPlainly(refs, mode, Tool(n.id, nameOf(n), safetyOf(n).value));
    }
  }

  ghost predicate SomeOffers(
    refs: seq<string>, mode: string, nodes: seq<Node>, nameOf: Node -> string, safetyOf: Node -> Option<string>,
    t: Tool)
  {
    exists k :: 0 <= k < |nodes| && Offers(refs, mode, nodes[k], nameOf, safetyOf, t)
  }

  lemma {:induction false} SomeOffersGrows(
    refs: seq<string>, mode: string, nodes: seq<Node>, nameOf: Node -> string, safetyOf: Node -> Option<string>,
    t: Tool)
    requires nodes != []
    ensures var n := |nodes| - 1;
            SomeOffers(refs, mode, nodes, nameOf, safetyOf, t) <==>
            SomeOffers(refs, mode, nodes[..n], nameOf, safetyOf, t) || Offers(refs, mode, nodes[n], nameOf, safetyOf, t)
  {
    var n := |nodes| - 1;
    if SomeOffers(refs, mode, nodes[..n], nameOf, safetyOf, t) {
      var k :| 0 <= k < n && Offers(refs, mode, nodes[..n][k], nameOf, safetyOf, t);
      assert Offers(refs, mode, nodes[k], nameOf, safetyOf, t);
    }
    if SomeOffers(refs, mode, nodes, nameOf, safetyOf, t) {
      var k :| 0 <= k < |nodes| && Offers(refs, mode, nodes[k], nameOf, safetyOf, t);
      assert k < n ==> nodes[..n][k] == nodes[k];
    }
  }

  /** Exactly the tools of the referenced and permitted nodes are selected. */
  lemma {:induction false} SelectedPlainly(
    refs: seq<string>, mode: string, nodes: seq<Node>, nameOf: Node -> string, safetyOf: Node -> Option<string>,
    t: Tool)
    ensures t in Selected(refs, mode, nodes, nameOf, safetyOf) <==> SomeOffers(refs, mode, nodes, nameOf, safetyOf, t)
  {
    if nodes != [] {
      SelectedPlainly(refs, mode, nodes[..|nodes| - 1], nameOf, safetyOf, t);
      LastNodeOffers(refs, mode, nodes, nameOf, safetyOf, t);
      SomeOffersGrows(refs, mode, nodes, nameOf, safetyOf, t);
    }
  }

  /** The selected tools keep the order of their nodes: two of them come from two nodes in that order. */
  lemma {:induction false} SelectedInOrder(
    refs: seq<string>, mode: string, nodes: seq<Node>, nameOf: Node -> string, safetyOf: Node -> Option<string>,
    i: nat, j: nat)
    returns (a: nat, b: nat)
    requires i < j < |Selected(refs, mode, nodes, nameOf, safetyOf)|
    ensures a < b < |nodes|
    ensures Offers(refs, mode, nodes[a], nameOf, safetyOf, Selected(refs, mode, nodes, nameOf, safetyOf)[i])
    ensures Offers(refs, mode, nodes[b], nameOf, safetyOf, Selected(refs, mode, nodes, nameOf, safetyOf)[j])
  {
    var n := |nodes| - 1;
    var before := Selected(refs, mode, nodes[..n], nameOf, safetyOf);
    var all := Selected(refs, mode, nodes, nameOf, safetyOf);
    if j < |before| {
      a, b := SelectedInOrder(refs, mode, nodes[..n], nameOf, safetyOf, i, j);
    } else {
      AuthorisedPlainly(refs, mode, all[j]);
      assert before[i] in before;
      SelectedPlainly(refs, mode, nodes[..n], nameOf, safetyOf, before[i]);
      a :| 0 <= a < n && Offers(refs, mode, nodes[..n][a], nameOf, safetyOf, before[i]);
      b := n;
    }
  }

  /** `Assemble`: it fails exactly when a referenced node cannot be built. */
  method Assemble(
    refs: seq<string>, mode: string, nodes: seq<Node>, nameOf: Node -> string, safetyOf: Node -> Option<string>)
    returns (r: Result<Manifest, string>)
    ensures r.Ok? ==> Indexed(r.value) && r.value.tools == Selected(refs, mode, nodes, nameOf, safetyOf)
    ensures r.Ok? ==> forall t :: t in r.value.tools <==> SomeOffers(refs, mode, nodes, nameOf, safetyOf, t)
    ensures r.Err? <==> exists k :: 0 <= k < |nodes| && RefersTo(refs, nodes[k].id) && safetyOf(nodes[k]).None?
  {
    r := AssembleTools(refs, mode, nodes, nameOf, safetyOf);
    forall t
      ensures t in Selected(refs, mode, nodes, nameOf, safetyOf) <==> SomeOffers(refs, mode, nodes, nameOf, safetyOf, t)
    {
      SelectedPlainly(refs, mode, nodes, nameOf, safetyOf, t);
    }
    forall k | 0 <= k < |nodes|
      ensures Referenced(refs, TrimSpace(nodes[k].id)) <==> RefersTo(refs, nodes[k].id)
      ensures nodes[k] in nodes
    {
      ReferencePlainly(refs, nodes[k].id);
    }
  }

  /** The two loops of `Assemble`. */
  method AssembleTools(
    refs: seq<string>, mode: string, nodes: seq<Node>, nameOf: Node -> string, safetyOf: Node -> Option<string>)
    returns (r: Result<Manifest, string>)
    ensures r.Ok? ==> Indexed(r.value) && r.value.tools == Selected(refs, mode, nodes, nameOf, safetyOf)
    ensures r.Err? <==> exists n :: n in nodes && Referenced(refs, TrimSpace(n.id)) && safetyOf(n).None?
  {
    var allowedRefs: set<string> := {};
    for i := 0 to |refs|
      invariant forall s :: s in allowedRefs <==> Referenced(refs[..i], s)
    {
      ReferencedGrows(refs, i);
      if TrimSpace(refs[i]) != "" {
        allowedRefs := allowedRefs + {TrimSpace(refs[i])};
      }
    }
    assert refs[..|refs|] == refs;
    if allowedRefs == {} {
      NothingSelected(refs, mode, nodes, nameOf, safetyOf);
      var empty := NewToolManifest([]);
      return Ok(empty);
    }
    var tools: seq<Tool> := [];
    for i := 0 to |nodes|
      invariant tools == Selected(refs, mode, nodes[..i], nameOf, safetyOf)
      invariant forall n :: n in nodes[..i] && Referenced(refs, TrimSpace(n.id)) ==> safetyOf(n).Some?
    {
      assert nodes[..i + 1][..i] == nodes[..i];
      var node := nodes[i];
      if TrimSpace(node.id) in allowedRefs {
        var safety := safetyOf(node);
        if safety.None? {
          return Err(node.id);
        }
        if AllowedByMode(NormalizeMode(mode), safety.value) {
          tools := tools + [Tool(node.id, nameOf(node), safety.value)];
        }
      }
    }
    assert nodes[..|nodes|] == nodes;
    var m := NewToolManifest(tools);
    r := Ok(m);
  }

  lemma {:induction false} NothingSelected(
    refs: seq<string>, mode: string, nodes: seq<Node>, nameOf: Node -> string, safetyOf: Node -> Option<string>)
    requires forall s :: !Referenced(refs, s)
    ensures Selected(refs, mode, nodes, nameOf, safetyOf) == []
  {
    if nodes != [] {
      NothingSelected(refs, mode, nodes[..|nodes| - 1], nameOf, safetyOf);
    }
  }

  lemma ReferencedGrows(refs: seq<string>, i: nat)
    requires i < |refs|
    ensures forall s :: Referenced(refs[..i + 1], s) <==>
              Referenced(refs[..i], s) || (s != "" && s == TrimSpace(refs[i]))
  {
    assert refs[..i + 1] == refs[..i] + [refs[i]];
    assert refs[i] in refs[..i + 1];
  }

  // ---- Limits ---------------------------------------------------------------------------------------------

  datatype Limits = Limits(maxIterations: int, maxToolCalls: int, maxTokens: int)

  function WithDefaults(l: Limits): Limits {
    Limits(
      if l.maxIterations <= 0 then 10 else l.maxIterations,
      if l.maxToolCalls <= 0 then 20 else l.maxToolCalls,
      if l.maxTokens <= 0 then 50000 else l.maxTokens)
  }

  class ConstraintEnforcer {
    const limits: Limits
    var iteration: int
    var toolCalls: int
    var tokensUsed: int

    constructor (limits: Limits)
      ensures this.limits == WithDefaults(limits)
      ensures this.limits.maxIterations == (if limits.maxIterations > 0 then limits.maxIterations else 10)
      ensures this.limits.maxToolCalls == (if limits.maxToolCalls > 0 then limits.maxToolCalls else 20)
      ensures this.limits.maxTokens == (if limits.maxTokens > 0 then limits.maxTokens else 50000)
      ensures iteration == 0 && toolCalls == 0 && tokensUsed == 0
    {
      this.limits := WithDefaults(limits);
      iteration, toolCalls, tokensUsed := 0, 0, 0;
    }

    /** Past the limit the model is only told to conclude. */
    predicate IterationsUsedUp()
      reads this
    {
      iteration >= limits.maxIterations
    }

    predicate ToolCallsUsedUp()
      reads this
    {
      toolCalls >= limits.maxToolCalls
    }

    /** The warning threshold is four fifths of the budget, rounded down. */
    method CheckTokenBudget(tokens: int) returns (warn: bool, hardStop: bool)
      modifies this`tokensUsed
      ensures tokensUsed == tokens
      ensures hardStop <==> tokens >= limits.maxTokens
      ensures warn <==> !hardStop && tokens >= 4 * limits.maxTokens / 5
    {
      tokensUsed := tokens;
      hardStop := tokensUsed >= limits.maxTokens;
      warn := !hardStop && tokensUsed >= 4 * limits.maxTokens / 5;
    }

    method IncrementIteration()
      modifies this`iteration
      ensures iteration == old(iteration) + 1
    {
      iteration := iteration + 1;
    }

    method IncrementToolCalls()
      modifies this`toolCalls
      ensures toolCalls == old(toolCalls) + 1
    {
      toolCalls := toolCalls + 1;
    }
  }

  // ---- Tool calls -----------------------------------------------------------------------------------------

  /** The model's answer; `None` when the chat call failed. */
  datatype Reply = Reply(content: string, tokens: int, toolCalls: seq<ToolCall>, wantsTools: bool)

  /**
   * What the loop is given from outside: replies, timeouts, and the checks and outcomes of foreign code;
   * `succeeds(k)` is the outcome of the k-th tool invocation of the run, counted from zero.
   */
  datatype World = World(
    chat: nat -> Option<Reply>,
    timedOut: nat -> bool,
    concludes: string -> bool,
    acceptsArguments: (ToolCall, Tool) -> bool,
    succeeds: nat -> bool)

  /** A run's fixed surroundings; the limits are those after defaults. */
  datatype Session = Session(world: World, manifest: Manifest, limits: Limits)

  /** `ValidateToolCall`: the trimmed name must be in the manifest. */
  function Resolve(manifest: Manifest, call: ToolCall): Option<Tool> {
    var name := TrimSpace(call.name);
    if name in manifest.byName then Some(manifest.byName[name]) else None
  }

  predicate Invocable(s: Session, call: ToolCall) {
    Resolve(s.manifest, call).Some? && s.world.acceptsArguments(call, Resolve(s.manifest, call).value)
  }

  /** The tools invoked for the calls when `budget` calls are left. */
  function Invocations(s: Session, calls: seq<ToolCall>, budget: nat): seq<Tool> {
    if calls == [] then []
    else
      var n := |calls| - 1;
      var before := Invocations(s, calls[..n], budget);
      if n < budget && Invocable(s, calls[n]) then before + [Resolve(s.manifest, calls[n]).value] else before
  }

  /** How a call is answered, within the limit or not, when so many tools were invoked before it. */
  function Verdict(s: Session, call: ToolCall, within: bool, invoked: nat): Kind {
    if !within then LimitReached
    else if Resolve(s.manifest, call).None? then UnknownTool
    else if !s.world.acceptsArguments(call, Resolve(s.manifest, call).value) then BadArguments
    else if s.world.succeeds(invoked) then ToolDone
    else ToolFailed
  }

  /** The answers to the calls when `budget` calls are left and `base` tools were invoked before the reply. */
  function Answers(s: Session, calls: seq<ToolCall>, budget: nat, base: nat): seq<Message> {
    if calls == [] then []
    else
      var n := |calls| - 1;
      var invoked := base + |Invocations(s, calls[..n], budget)|;
      Answers(s, calls[..n], budget, base) + [ToolAnswer(calls[n].id, Verdict(s, calls[n], n < budget, invoked))]
  }

  /** The inner loop over the calls of one reply. */
  method HandleToolCalls(s: Session, calls: seq<ToolCall>, ce: ConstraintEnforcer, base: nat)
    returns (answers: seq<Message>, invoked: seq<Tool>)
    requires ce.toolCalls <= ce.limits.maxToolCalls
    modifies ce`toolCalls
    ensures answers == Answers(s, calls, ce.limits.maxToolCalls - old(ce.toolCalls), base)
    ensures invoked == Invocations(s, calls, ce.limits.maxToolCalls - old(ce.toolCalls))
    ensures ce.toolCalls == Min(ce.limits.maxToolCalls, old(ce.toolCalls) + |calls|)
  {
    answers, invoked := [], [];
    ghost var budget := ce.limits.maxToolCalls - old(ce.toolCalls);
    for i := 0 to |calls|
      invariant answers == Answers(s, calls[..i], budget, base)
      invariant invoked == Invocations(s, calls[..i], budget)
      invariant ce.toolCalls == Min(ce.limits.maxToolCalls, old(ce.toolCalls) + i)
    {
      assert calls[..i + 1][..i] == calls[..i];
      if ce.ToolCallsUsedUp() {
        answers := answers + [ToolAnswer(calls[i].id, LimitReached)];
        continue;
      }
      ce.IncrementToolCalls();
      var tool := Resolve(s.manifest, calls[i]);
      if tool.None? {
        answers := answers + [ToolAnswer(calls[i].id, UnknownTool)];
        continue;
      }
      if !s.world.acceptsArguments(calls[i], tool.value) {
        answers := answers + [ToolAnswer(calls[i].id, BadArguments)];
        continue;
      }
      var ok := s.world.succeeds(base + |invoked|);
      invoked := invoked + [tool.value];
      if !ok {
        answers := answers + [ToolAnswer(calls[i].id, ToolFailed)];
        continue;
      }
      answers := answers + [ToolAnswer(calls[i].id, ToolDone)];
    }
    assert calls[..|calls|] == calls;
  }

  lemma {:induction false} AnswersCount(s: Session, calls: seq<ToolCall>, budget: nat, base: nat)
    ensures |Answers(s, calls, budget, base)| == |calls|
  {
    if calls != [] {
      AnswersCount(s, calls[..|calls| - 1], budget, base);
    }
  }

  lemma {:induction false} AnswersOfPrefix(s: Session, calls: seq<ToolCall>, budget: nat, base: nat, m: nat)
    requires m <= |calls|
    ensures Answers(s, calls[..m], budget, base) <= Answers(s, calls, budget, base)
  {
    if m < |calls| {
      var n := |calls| - 1;
      AnswersOfPrefix(s, calls[..n], budget, base, m);
      assert calls[..n][..m] == calls[..m];
    } else {
      assert calls[..m] == calls;
    }
  }

  /** The answer says what became of the call: beyond the limit, nameless, refused by the schema, or run. */
  ghost predicate AnswersTruly(s: Session, call: ToolCall, t: Option<Tool>, within: bool, invoked: nat, m: Message) {
    && m.ToolAnswer? && m.callId == call.id
    && (m.kind == LimitReached <==> !within)
    && (m.kind == UnknownTool <==> within && t.None?)
    && (m.kind == BadArguments <==> within && t.Some? && !s.world.acceptsArguments(call, t.value))
    && (m.kind == ToolDone ==> s.world.succeeds(invoked))
    && (m.kind == ToolFailed ==> !s.world.succeeds(invoked))
  }

  lemma {:induction false} AnswerSoFar(s: Session, calls: seq<ToolCall>, budget: nat, base: nat, i: nat)
    requires i < |calls|
    ensures |Answers(s, calls[..i + 1], budget, base)| == i + 1
    ensures AnswersTruly(
              s, calls[i], Resolve(s.manifest, calls[i]), i < budget, base + |Invocations(s, calls[..i], budget)|,
              Answers(s, calls[..i + 1], budget, base)[i])
  {
    AnswersCount(s, calls[..i], budget, base);
    assert calls[..i + 1][..i] == calls[..i];
  }

  lemma {:induction false} ResolvedStands(manifest: Manifest, call: ToolCall)
    requires Indexed(manifest)
    ensures StandsFor(manifest.tools, TrimSpace(call.name), Resolve(manifest, call))
  {
    LastNamedStands(manifest.tools, TrimSpace(call.name));
  }

  lemma {:induction false} AnswerAt(s: Session, calls: seq<ToolCall>, budget: nat, base: nat, i: nat)
    requires i < |calls|
    ensures |Answers(s, calls, budget, base)| == |calls|
    ensures AnswersTruly(
              s, calls[i], Resolve(s.manifest, calls[i]), i < budget,
              base + Outcomes(Answers(s, calls[..i], budget, base)), Answers(s, calls, budget, base)[i])
  {
    AnswersCount(s, calls, budget, base);
    AnswerSoFar(s, calls, budget, base, i);
    AnswersOfPrefix(s, calls, budget, base, i + 1);
    EveryInvocationIsReported(s, calls[..i], budget, base);
  }

  /**
   * Each call has its one answer, at its position and under its id, and the answer is true: `t` is the tool the
   * trimmed name stands for, and the outcome is that of the invocation after those already reported.
   */
  lemma {:induction false} EveryCallIsAnswered(s: Session, calls: seq<ToolCall>, budget: nat, base: nat, i: nat)
    returns (t: Option<Tool>)
    requires i < |calls| && Indexed(s.manifest)
    ensures |Answers(s, calls, budget, base)| == |calls| && StandsFor(s.manifest.tools, TrimSpace(calls[i].name), t)
    ensures AnswersTruly(
              s, calls[i], t, i < budget, base + Outcomes(Answers(s, calls[..i], budget, base)),
              Answers(s, calls, budget, base)[i])
  {
    t := Resolve(s.manifest, calls[i]);
    AnswerAt(s, calls, budget, base, i);
    ResolvedStands(s.manifest, calls[i]);
  }

  /** A call within the limit whose name stands for a tool that takes its arguments invokes that tool; no other does. */
  lemma {:induction false} NamedToolIsInvoked(s: Session, calls: seq<ToolCall>, budget: nat) returns (t: Option<Tool>)
    requires calls != [] && Indexed(s.manifest)
    ensures var n := |calls| - 1;
            && StandsFor(s.manifest.tools, TrimSpace(calls[n].name), t)
            && Invocations(s, calls, budget) ==
               Invocations(s, calls[..n], budget) +
               if n < budget && t.Some? && s.world.acceptsArguments(calls[n], t.value) then [t.value] else []
  {
    t := Resolve(s.manifest, calls[|calls| - 1]);
    ResolvedStands(s.manifest, calls[|calls| - 1]);
  }

  lemma {:induction false} InvocationsAreFew(s: Session, calls: seq<ToolCall>, budget: nat)
    requires Indexed(s.manifest)
    ensures |Invocations(s, calls, budget)| <= Min(|calls|, budget)
    ensures forall t :: t in Invocations(s, calls, budget) ==> t in s.manifest.tools
  {
    if calls != [] {
      InvocationsAreFew(s, calls[..|calls| - 1], budget);
      NamedIsListed(s.manifest.tools, TrimSpace(calls[|calls| - 1].name));
    }
  }

  // ---- The run --------------------------------------------------------------------------------------------

  datatype RunStatus = Running | Timeout | Error | Concluded

  predicate UsesTools(reply: Reply) {
    reply.wantsTools && |reply.toolCalls| > 0
  }

  function TokensOf(reply: Option<Reply>): int {
    if reply.Some? then reply.value.tokens else 0
  }

  function CallsOf(reply: Option<Reply>): seq<ToolCall> {
    if reply.Some? && UsesTools(reply.value) then reply.value.toolCalls else []
  }

  /** The reply is a conclusion that does not fit the schema. */
  predicate Misses(s: Session, reply: Option<Reply>) {
    reply.Some? && !UsesTools(reply.value) && !s.world.concludes(reply.value.content)
  }

  /** What handling a reply appends: its calls with their answers, or the refused conclusion. */
  function Appended(s: Session, calls: seq<ToolCall>, budget: nat, base: nat): seq<Message> {
    if calls == [] then [Assistant([]), User(SchemaMismatch)]
    else [Assistant(calls)] + Answers(s, calls, budget, base)
  }

  /** What a run has to show for itself: tokens, tool calls asked for, tools invoked, bad conclusions and messages. */
  datatype Progress = Progress(tokens: int, called: nat, invoked: seq<Tool>, misses: nat, talk: seq<Message>)

  /** The tool calls that are left. */
  function Left(s: Session, p: Progress): nat {
    Max(0, s.limits.maxToolCalls - p.called)
  }

  /** The messages at hand for the n-th request; from the last iteration on they end with the order to conclude. */
  function AtHand(s: Session, n: nat, talk: seq<Message>): seq<Message> {
    Noted(talk, n >= s.limits.maxIterations, ConcludeNow)
  }

  /** What acting on a reply makes of the progress. */
  function ActedOn(s: Session, reply: Option<Reply>, p: Progress): Progress {
    var calls := CallsOf(reply);
    p.(called := p.called + |calls|,
       invoked := p.invoked + Invocations(s, calls, Left(s, p)),
       misses := p.misses + Count(Misses(s, reply)),
       talk := p.talk + Appended(s, calls, Left(s, p), |p.invoked|))
  }

  /** The progress when the n-th reply has come: what was at hand is summarised, and the budget may be running out. */
  function Opened(s: Session, n: nat, p: Progress): Progress {
    var tokens := p.tokens + TokensOf(s.world.chat(n));
    p.(tokens := tokens,
       talk := Noted(Sent(s, n, p.talk), tokens >= 4 * s.limits.maxTokens / 5, BudgetWarning))
  }

  /** What the model is sent with the n-th request. */
  function Sent(s: Session, n: nat, talk: seq<Message>): seq<Message> {
    Summarised(AtHand(s, n, talk))
  }

  const START := Progress(0, 0, [], 0, [User(Goal)])

  function Last(history: seq<Progress>): Progress
    requires history != []
  {
    history[|history| - 1]
  }

  /** The progress after each handled reply, from the start on. */
  ghost predicate IsHistory(s: Session, history: seq<Progress>) {
    history != [] &&
    if |history| == 1 then history[0] == START
    else
      var n := |history| - 1;
      IsHistory(s, history[..n]) && history[n] == ActedOn(s, s.world.chat(n), Opened(s, n, Last(history[..n])))
  }

  /** What the model was sent along a history, request by request. */
  function Requests(s: Session, history: seq<Progress>): seq<seq<Message>> {
    if |history| <= 1 then []
    else
      var n := |history| - 1;
      Requests(s, history[..n]) + [Sent(s, n, Last(history[..n]).talk)]
  }

  lemma {:induction false} ActingStaysWithinLimits(s: Session, reply: Option<Reply>, p: Progress)
    requires Indexed(s.manifest) && s.limits.maxToolCalls >= 0
    requires |p.invoked| <= Min(s.limits.maxToolCalls, p.called)
    requires forall t :: t in p.invoked ==> t in s.manifest.tools
    ensures var q := ActedOn(s, reply, p);
            && |q.invoked| <= Min(s.limits.maxToolCalls, q.called)
            && forall t :: t in q.invoked ==> t in s.manifest.tools
  {
    InvocationsAreFew(s, CallsOf(reply), Left(s, p));
  }

  /** However the model answers, no more tools are invoked than the limit allows, and each is in the manifest. */
  lemma {:induction false} InvocationsStayWithinLimits(s: Session, history: seq<Progress>)
    requires IsHistory(s, history) && Indexed(s.manifest) && s.limits.maxToolCalls >= 0
    ensures |Last(history).invoked| <= Min(s.limits.maxToolCalls, Last(history).called)
    ensures forall t :: t in Last(history).invoked ==> t in s.manifest.tools
  {
    var n := |history| - 1;
    if n > 0 {
      InvocationsStayWithinLimits(s, history[..n]);
      ActingStaysWithinLimits(s, s.world.chat(n), Opened(s, n, Last(history[..n])));
    }
  }

  // ---- The conversation -----------------------------------------------------------------------------------

  /** The number of messages that report a tool's own outcome. */
  function Outcomes(messages: seq<Message>): nat {
    if messages == [] then 0
    else
      var m := messages[|messages| - 1];
      Outcomes(messages[..|messages| - 1]) + Count(m.ToolAnswer? && m.kind in {ToolFailed, ToolDone})
  }

  /** As many answers report a tool's outcome as tools were invoked for the calls. */
  lemma {:induction false} EveryInvocationIsReported(s: Session, calls: seq<ToolCall>, budget: nat, base: nat)
    ensures Outcomes(Answers(s, calls, budget, base)) == |Invocations(s, calls, budget)|
  {
    if calls != [] {
      var n := |calls| - 1;
      EveryInvocationIsReported(s, calls[..n], budget, base);
      var answers := Answers(s, calls, budget, base);
      assert answers[..|answers| - 1] == Answers(s, calls[..n], budget, base);
    }
  }

  lemma {:induction false} AppendedIsPaired(s: Session, calls: seq<ToolCall>, budget: nat, base: nat)
    ensures Paired(Appended(s, calls, budget, base)) && Appended(s, calls, budget, base) != []
  {
    if calls == [] {
      RefusalPairs();
    } else {
      AnswersName(s, calls, budget, base);
      AnsweredCallsPair(calls, Answers(s, calls, budget, base));
    }
  }

  lemma {:induction false} AnswersName(s: Session, calls: seq<ToolCall>, budget: nat, base: nat)
    ensures var answers := Answers(s, calls, budget, base);
            && |answers| == |calls|
            && forall i :: 0 <= i < |calls| ==> answers[i].ToolAnswer? && answers[i].callId == calls[i].id
  {
    if calls != [] {
      AnswersName(s, calls[..|calls| - 1], budget, base);
    }
  }

  lemma {:induction false} OpenedIsShaped(s: Session, n: nat, p: Progress)
    requires Shaped(p.talk, KEEP + 1)
    ensures Shaped(Opened(s, n, p).talk, KEEP)
  {
    NotedIsShaped(p.talk, n >= s.limits.maxIterations, ConcludeNow, KEEP + 1);
    SummarisedIsShaped(AtHand(s, n, p.talk));
    NotedIsShaped(Sent(s, n, p.talk), Opened(s, n, p).tokens >= 4 * s.limits.maxTokens / 5, BudgetWarning, KEEP);
  }

  lemma {:induction false} ActingIsShaped(s: Session, reply: Option<Reply>, p: Progress)
    requires Shaped(p.talk, KEEP)
    ensures Shaped(ActedOn(s, reply, p).talk, KEEP + 1)
  {
    var appended := Appended(s, CallsOf(reply), Left(s, p), |p.invoked|);
    AppendedIsPaired(s, CallsOf(reply), Left(s, p), |p.invoked|);
    ShapedAppends(p.talk, appended, KEEP);
  }

  lemma {:induction false} TalkIsShaped(s: Session, history: seq<Progress>)
    requires IsHistory(s, history)
    ensures Shaped(Last(history).talk, KEEP + 1)
  {
    var n := |history| - 1;
    if n > 0 {
      TalkIsShaped(s, history[..n]);
      OpenedIsShaped(s, n, Last(history[..n]));
      ActingIsShaped(s, s.world.chat(n), Opened(s, n, Last(history[..n])));
    } else {
      GoalIsShaped();
    }
  }

  /**
   * In every run the model is sent at most 24 messages, the goal first, and the order to conclude last once the
   * iterations are used up; its calls and their answers pair up exactly when summarising did not cut a round.
   */
  lemma {:induction false} SentPairsExactly(s: Session, history: seq<Progress>)
    requires IsHistory(s, history)
    ensures var n := |history|;
            var sent := Sent(s, n, Last(history).talk);
            && 1 <= |sent| <= KEEP && sent[0] == User(Goal)
            && (n >= s.limits.maxIterations ==> sent[|sent| - 1] == User(ConcludeNow))
            && (Paired(sent) <==> !CutsRound(AtHand(s, n, Last(history).talk)))
  {
    TalkIsShaped(s, history);
    SentIsPairedExactly(Last(history).talk, |history| >= s.limits.maxIterations);
  }

  /** After a reply with 23 calls or more the model is always sent answers without their call. */
  lemma {:induction false} ManyCallsBreakPairs(s: Session, history: seq<Progress>)
    requires IsHistory(s, history) && |CallsOf(s.world.chat(|history| - 1))| > TAIL && |history| > 1
    ensures !Paired(Sent(s, |history|, Last(history).talk))
  {
    var n := |history| - 1;
    TalkIsShaped(s, history[..n]);
    OpenedIsShaped(s, n, Last(history[..n]));
    ActingCuts(s, s.world.chat(n), Opened(s, n, Last(history[..n])), n + 1 >= s.limits.maxIterations);
  }

  lemma {:induction false} ActingCuts(s: Session, reply: Option<Reply>, p: Progress, conclude: bool)
    requires |CallsOf(reply)| > TAIL && Shaped(p.talk, KEEP)
    ensures !Paired(Summarised(Noted(ActedOn(s, reply, p).talk, conclude, ConcludeNow)))
  {
    AnswersName(s, CallsOf(reply), Left(s, p), |p.invoked|);
    LongRoundIsCut(p.talk, CallsOf(reply), Answers(s, CallsOf(reply), Left(s, p), |p.invoked|), conclude);
  }

  // ---- The loop -------------------------------------------------------------------------------------------

  /** What acting on a reply appends and counts, in the plain terms of the reply. */
  ghost predicate ActsPlainly(s: Session, reply: Reply, p: Progress, q: Progress) {
    var n, calls := |p.talk|, reply.toolCalls;
    && q.tokens == p.tokens && p.talk <= q.talk
    && if reply.wantsTools && calls != [] then
         && q.called == p.called + |calls| && q.misses == p.misses && p.invoked <= q.invoked
         && |q.talk| == n + 1 + |calls| && q.talk[n] == Assistant(calls)
         && forall i :: 0 <= i < |calls| ==> q.talk[n + 1 + i].ToolAnswer? && q.talk[n + 1 + i].callId == calls[i].id
       else
         && q.called == p.called && q.misses == p.misses + 1 && q.invoked == p.invoked
         && q.talk == p.talk + [Assistant([]), User(SchemaMismatch)]
  }

  lemma {:induction false} ActedOnPlainly(s: Session, reply: Reply, p: Progress)
    requires (reply.wantsTools && reply.toolCalls != []) || !s.world.concludes(reply.content)
    ensures ActsPlainly(s, reply, p, ActedOn(s, Some(reply), p))
  {
    var q := ActedOn(s, Some(reply), p);
    if reply.wantsTools && reply.toolCalls != [] {
      var answers := Answers(s, reply.toolCalls, Left(s, p), |p.invoked|);
      AnswersName(s, reply.toolCalls, Left(s, p), |p.invoked|);
      assert q.talk == p.talk + ([Assistant(reply.toolCalls)] + answers);
      forall i | 0 <= i < |answers|
        ensures q.talk[|p.talk| + 1 + i] == answers[i]
      {
      }
    } else {
      assert CallsOf(Some(reply)) == [] && Invocations(s, [], Left(s, p)) == [];
    }
  }

  /** Acting on a reply, once the token budget has been checked. */
  method ActOn(s: Session, reply: Reply, ce: ConstraintEnforcer, p: Progress)
    returns (stop: Option<RunStatus>, q: Progress)
    requires ce.limits == s.limits && s.limits.maxToolCalls >= 0 && p.misses < 3
    requires ce.toolCalls == Min(s.limits.maxToolCalls, p.called)
    modifies ce`toolCalls
    ensures stop.None? ==>
              && q == ActedOn(s, Some(reply), p) && ActsPlainly(s, reply, p, q) && q.misses < 3
              && ce.toolCalls == Min(s.limits.maxToolCalls, q.called)
    ensures stop.Some? ==> q == p && ce.toolCalls == old(ce.toolCalls)
    ensures stop == if reply.wantsTools && reply.toolCalls != [] then None
                    else if s.world.concludes(reply.content) then Some(Concluded)
                    else if p.misses == 2 then Some(Error)
                    else None
  {
    stop, q := React(s, reply, ce, p);
    if stop.None? {
      ActedOnPlainly(s, reply, p);
    }
  }

  /** The branches over a reply. */
  method React(s: Session, reply: Reply, ce: ConstraintEnforcer, p: Progress)
    returns (stop: Option<RunStatus>, q: Progress)
    requires ce.limits == s.limits && s.limits.maxToolCalls >= 0 && p.misses < 3
    requires ce.toolCalls == Min(s.limits.maxToolCalls, p.called)
    modifies ce`toolCalls
    ensures stop.None? ==>
              && q == ActedOn(s, Some(reply), p) && q.misses < 3
              && ce.toolCalls == Min(s.limits.maxToolCalls, q.called)
    ensures stop.Some? ==> q == p && ce.toolCalls == old(ce.toolCalls)
    ensures stop == if reply.wantsTools && reply.toolCalls != [] then None
                    else if s.world.concludes(reply.content) then Some(Concluded)
                    else if p.misses == 2 then Some(Error)
                    else None
  {
    stop, q := None, p;
    if reply.wantsTools && |reply.toolCalls| > 0 {
      var answers, more := HandleToolCalls(s, reply.toolCalls, ce, |p.invoked|);
      q := p.(
        called := p.called + |reply.toolCalls|,
        invoked := p.invoked + more,
        talk := p.talk + ([Assistant(reply.toolCalls)] + answers));
      return;
    }
    if !s.world.concludes(reply.content) {
      if p.misses + 1 >= 3 {
        stop := Some(Error);
        return;
      }
      q := p.(misses := p.misses + 1, talk := p.talk + [Assistant([]), User(SchemaMismatch)]);
      return;
    }
    stop := Some(Concluded);
  }

  ghost predicate EveryReplyCosts(world: World) {
    forall n: nat :: world.chat(n).Some? ==> world.chat(n).value.tokens >= 1
  }

  lemma {:induction false} HistoryGrows(s: Session, history: seq<Progress>, p: Progress, q: Progress)
    requires IsHistory(s, history)
    requires p == Opened(s, |history|, Last(history)) && q == ActedOn(s, s.world.chat(|history|), p)
    ensures IsHistory(s, history + [q]) && q.tokens == p.tokens
    ensures Requests(s, history + [q]) == Requests(s, history) + [Sent(s, |history|, Last(history).talk)]
  {
    assert (history + [q])[..|history|] == history;
  }

  /** Why the n-th round ended the run, if it did. */
  ghost predicate Ends(s: Session, n: nat, p: Progress, end: Option<RunStatus>) {
    var reply := s.world.chat(n);
    if reply.None? then end == Some(Error)
    else if p.tokens + reply.value.tokens >= s.limits.maxTokens then end == Some(Timeout)
    else if reply.value.wantsTools && reply.value.toolCalls != [] then end == None
    else if s.world.concludes(reply.value.content) then end == Some(Concluded)
    else end == if p.misses == 2 then Some(Error) else None
  }

  /** The messages of the n-th request. */
  method Prepare(s: Session, n: nat, ce: ConstraintEnforcer, talk: seq<Message>) returns (messages: seq<Message>)
    requires ce.limits == s.limits && ce.iteration + 1 == n
    modifies ce`iteration
    ensures messages == Sent(s, n, talk) && ce.iteration == n
    ensures n < s.limits.maxIterations && |talk| <= 24 ==> messages == talk
    ensures n >= s.limits.maxIterations && |talk| < 24 ==> messages == talk + [User(ConcludeNow)]
  {
    SummaryPlainly(AtHand(s, n, talk));
    ce.IncrementIteration();
    messages := talk;
    if ce.IterationsUsedUp() {
      messages := messages + [User(ConcludeNow)];
    }
    messages := Summarised(messages);
  }

  /** The first half of a round: the request and the check of the tokens it cost. */
  method Request(s: Session, n: nat, ce: ConstraintEnforcer, p: Progress)
    returns (sent: seq<Message>, tokens: int, end: Option<RunStatus>, q: Progress)
    requires ce.limits == s.limits && ce.iteration + 1 == n
    modifies ce`iteration, ce`tokensUsed
    ensures sent == Sent(s, n, p.talk) && tokens == p.tokens + TokensOf(s.world.chat(n)) && ce.iteration == n
    ensures end == if s.world.chat(n).None? then Some(Error)
                   else if tokens >= s.limits.maxTokens then Some(Timeout)
                   else None
    ensures end.None? ==>
              && q == Opened(s, n, p)
              && q == p.(tokens := tokens, talk := q.talk)
              && q.talk == if tokens >= 4 * s.limits.maxTokens / 5 then sent + [User(BudgetWarning)] else sent
  {
    sent := Prepare(s, n, ce, p.talk);
    tokens, q := p.tokens, p;
    var reply := s.world.chat(n);
    if reply.None? {
      return sent, tokens, Some(Error), q;
    }
    tokens := tokens + reply.value.tokens;
    var warn, hardStop := ce.CheckTokenBudget(tokens);
    if hardStop {
      return sent, tokens, Some(Timeout), q;
    }
    var messages := sent;
    if warn {
      messages := messages + [User(BudgetWarning)];
    }
    end, q := None, p.(tokens := tokens, talk := messages);
  }

  /** One turn of the loop: the request, and the reaction to the reply. */
  method RunRound(s: Session, n: nat, ce: ConstraintEnforcer, p: Progress)
    returns (sent: seq<Message>, tokens: int, end: Option<RunStatus>, q: Progress, ghost begun: Progress)
    requires ce.limits == s.limits && s.limits.maxToolCalls >= 0 && ce.iteration + 1 == n && p.misses < 3
    requires ce.toolCalls == Min(s.limits.maxToolCalls, p.called)
    modifies ce
    ensures sent == Sent(s, n, p.talk) && tokens == p.tokens + TokensOf(s.world.chat(n)) && ce.iteration == n
    ensures Ends(s, n, p, end)
    ensures end.None? ==>
              && begun == Opened(s, n, p) && q == ActedOn(s, s.world.chat(n), begun) && q.misses < 3
              && ce.toolCalls == Min(s.limits.maxToolCalls, q.called)
  {
    sent, tokens, end, q := Request(s, n, ce, p);
    begun := q;
    if end.None? {
      end, q := ActOn(s, s.world.chat(n).value, ce, q);
    }
  }

  /** The turn as the next step of a history. */
  method NextRound(s: Session, n: nat, ce: ConstraintEnforcer, p: Progress, ghost history: seq<Progress>)
    returns (sent: seq<Message>, tokens: int, end: Option<RunStatus>, q: Progress)
    requires ce.limits == s.limits && s.limits.maxToolCalls >= 0 && ce.iteration + 1 == n && p.misses < 3
    requires ce.toolCalls == Min(s.limits.maxToolCalls, p.called)
    requires IsHistory(s, history) && p == Last(history) && n == |history|
    modifies ce
    ensures sent == Sent(s, n, p.talk) && tokens == p.tokens + TokensOf(s.world.chat(n)) && ce.iteration == n
    ensures Ends(s, n, p, end)
    ensures end.None? ==>
              && IsHistory(s, history + [q]) && q.tokens == tokens && q.misses < 3
              && Requests(s, history + [q]) == Requests(s, history) + [sent]
              && ce.toolCalls == Min(s.limits.maxToolCalls, q.called)
  {
    ghost var begun;
    sent, tokens, end, q, begun := RunRound(s, n, ce, p);
    if end.None? {
      HistoryGrows(s, history, begun, q);
    }
  }

  /**
   * The reasoning loop, observed for at most `rounds` rounds; `history` holds the progress after each handled
   * reply and `sent` what the model was given each time. It stops with an error on a failed chat or the third
   * bad conclusion, and if every reply reports at least one token it stops within `maxTokens` rounds.
   */
  method Run(s: Session, rounds: nat)
    returns (
      status: RunStatus, iterations: nat, toolCallCount: int, tokens: int, sent: seq<seq<Message>>,
      history: seq<Progress>)
    requires s.limits.maxIterations > 0 && s.limits.maxToolCalls > 0 && s.limits.maxTokens > 0
    ensures IsHistory(s, history) && |history| - 1 <= iterations <= |history| && iterations <= rounds
    ensures tokens ==
            Last(history).tokens + (if iterations == |history| then TokensOf(s.world.chat(iterations)) else 0)
    ensures toolCallCount == Min(s.limits.maxToolCalls, Last(history).called)
    ensures sent ==
            Requests(s, history) + (if iterations == |history| then [Sent(s, iterations, Last(history).talk)] else [])
    ensures if iterations == |history| then Ends(s, iterations, Last(history), Some(status))
            else if status == Timeout then s.world.timedOut(iterations)
            else status == Running && iterations == rounds
    ensures EveryReplyCosts(s.world) ==>
              iterations <= s.limits.maxTokens && (status == Running ==> rounds < s.limits.maxTokens)
  {
    var ce := new ConstraintEnforcer(s.limits);
    var p := START;
    iterations, tokens, sent, history := 0, 0, [], [p];
    while iterations < rounds
      invariant iterations == |history| - 1 <= rounds && ce.limits == s.limits && ce.iteration == iterations
      invariant IsHistory(s, history) && p == Last(history) && p.tokens == tokens && p.misses < 3
      invariant ce.toolCalls == Min(s.limits.maxToolCalls, p.called)
      invariant sent == Requests(s, history)
      invariant EveryReplyCosts(s.world) ==> iterations <= tokens < s.limits.maxTokens
      decreases rounds - iterations
    {
      toolCallCount := ce.toolCalls;
      if s.world.timedOut(iterations) {
        return Timeout, iterations, toolCallCount, tokens, sent, history;
      }
      iterations := iterations + 1;
      var request, end, q;
      request, tokens, end, q := NextRound(s, iterations, ce, p, history);
      sent := sent + [request];
      if end.Some? {
        return end.value, iterations, toolCallCount, tokens, sent, history;
      }
      p, history := q, history + [q];
    }
    status, toolCallCount := Running, ce.toolCalls;
  }

  /** A reasoning step: the manifest is assembled from the policy, so every tool invoked is authorised by it. */
  method RunStep(
    world: World, refs: seq<string>, mode: string, nodes: seq<Node>,
    nameOf: Node -> string, safetyOf: Node -> Option<string>, limits: Limits, rounds: nat)
    returns (status: RunStatus, invoked: seq<Tool>)
    ensures |invoked| <= if limits.maxToolCalls > 0 then limits.maxToolCalls else 20
    ensures forall t :: t in invoked ==> RefersTo(refs, t.id) && Permits(mode, t.safety)
  {
    var manifest := Assemble(refs, mode, nodes, nameOf, safetyOf);
    if manifest.Err? {
      return Error, [];
    }
    var s := Session(world, manifest.value, WithDefaults(limits));
    var iterations, toolCallCount, tokens, sent, history;
    status, iterations, toolCallCount, tokens, sent, history := Run(s, rounds);
    invoked := Last(history).invoked;
    InvocationsStayWithinLimits(s, history);
  }
}
