/** The conversation of an agent with its model: calls and answers, and what summarising does to them. */
module Conversation {
  import opened Common

  datatype ToolCall = ToolCall(id: string, name: string, arguments: string)

  /** What the runner itself says to the model. */
  datatype Note = Goal | ConcludeNow | Summary | BudgetWarning | SchemaMismatch

  /** How a tool call was answered. */
  datatype Kind = LimitReached | UnknownTool | BadArguments | ToolFailed | ToolDone

  datatype Message = User(note: Note) | Assistant(calls: seq<ToolCall>) | ToolAnswer(callId: string, kind: Kind)

  // ---- What the model is sent -----------------------------------------------------------------------------

  const KEEP := 24
  const TAIL := KEEP - 2

  /** `summariseOldToolResults`: the first message, a summary and the tail. */
  function Summarised(messages: seq<Message>): (r: seq<Message>)
    ensures |r| <= KEEP
    ensures messages != [] ==> r != [] && r[0] == messages[0] && r[|r| - 1] == messages[|messages| - 1]
  {
    if |messages| <= KEEP then messages
    else [messages[0], User(Summary)] + messages[|messages| - TAIL..]
  }

  /** Up to 24 messages are sent as they are; of more, the first, a summary and the last 22. */
  lemma {:induction false} SummaryPlainly(messages: seq<Message>)
    ensures |messages| <= 24 ==> Summarised(messages) == messages
    ensures |messages| > 24 ==>
              && |Summarised(messages)| == 24
              && Summarised(messages)[0] == messages[0] && Summarised(messages)[1] == User(Summary)
              && forall i :: 2 <= i < 24 ==> Summarised(messages)[i] == messages[|messages| - 24 + i]
  {
  }

  /** The messages with a note of the runner's own at the end, if there is a reason for it. */
  function Noted(messages: seq<Message>, b: bool, note: Note): seq<Message> {
    if b then messages + [User(note)] else messages
  }

  // ---- Calls and answers ----------------------------------------------------------------------------------

  function CallIds(calls: seq<ToolCall>): seq<string> {
    seq(|calls|, i requires 0 <= i < |calls| => calls[i].id)
  }

  /** The calls still to be answered after one more message; `None` once an answer had no call or a call no answer. */
  function Awaits(waiting: Option<seq<string>>, m: Message): Option<seq<string>> {
    match (waiting, m)
    case (None, _) => None
    case (Some(ids), ToolAnswer(id, _)) => if ids != [] && ids[0] == id then Some(ids[1..]) else None
    case (Some(ids), Assistant(calls)) => if ids == [] then Some(CallIds(calls)) else None
    case (Some(ids), User(_)) => if ids == [] then Some([]) else None
  }

  function Waiting(waiting: Option<seq<string>>, messages: seq<Message>): Option<seq<string>>
    decreases |messages|
  {
    if messages == [] then waiting else Waiting(Awaits(waiting, messages[0]), messages[1..])
  }

  /** Every tool message answers a call, and the calls of a message are answered at once, each once and in order. */
  predicate Paired(messages: seq<Message>) {
    Waiting(Some([]), messages) == Some([])
  }

  lemma {:induction false} WaitingAppends(waiting: Option<seq<string>>, a: seq<Message>, b: seq<Message>)
    ensures Waiting(waiting, a + b) == Waiting(Waiting(waiting, a), b)
    decreases |a|
  {
    if a == [] {
      assert a + b == b;
    } else {
      assert (a + b)[1..] == a[1..] + b;
      WaitingAppends(Awaits(waiting, a[0]), a[1..], b);
    }
  }

  lemma {:induction false} AnswersSettle(ids: seq<string>, messages: seq<Message>)
    requires |messages| == |ids|
    requires forall i :: 0 <= i < |ids| ==> messages[i].ToolAnswer? && messages[i].callId == ids[i]
    ensures Waiting(Some(ids), messages) == Some([])
    decreases |messages|
  {
    if messages != [] {
      AnswersSettle(ids[1..], messages[1..]);
    }
  }

  lemma {:induction false} AnsweredCallsPair(calls: seq<ToolCall>, answers: seq<Message>)
    requires |answers| == |calls|
    requires forall i :: 0 <= i < |calls| ==> answers[i].ToolAnswer? && answers[i].callId == calls[i].id
    ensures Paired([Assistant(calls)] + answers)
  {
    AnswersSettle(CallIds(calls), answers);
    assert ([Assistant(calls)] + answers)[1..] == answers;
  }

  lemma {:induction false} PairedAppends(a: seq<Message>, b: seq<Message>)
    requires Paired(b)
    ensures Paired(a) ==> Paired(a + b)
  {
    WaitingAppends(Some([]), a, b);
  }

  /** A lost call or answer stays lost. */
  lemma {:induction false} LostStaysLost(messages: seq<Message>)
    ensures Waiting(None, messages) == None
    decreases |messages|
  {
    if messages != [] {
      LostStaysLost(messages[1..]);
    }
  }

  lemma {:induction false} NotePaired(note: Note)
    ensures Paired([User(note)])
  {
    assert [User(note)][1..] == [];
  }

  lemma {:induction false} RefusalPairs()
    ensures Paired([Assistant([]), User(SchemaMismatch)])
  {
    AnsweredCallsPair([], []);
    assert [Assistant([])] + [] == [Assistant([])];
    NotePaired(SchemaMismatch);
    PairedAppends([Assistant([])], [User(SchemaMismatch)]);
    assert [Assistant([]), User(SchemaMismatch)] == [Assistant([])] + [User(SchemaMismatch)];
  }

  lemma {:induction false} NoteIsNeutral(messages: seq<Message>)
    requires messages != [] && messages[0].User?
    ensures Paired(messages) <==> Paired(messages[1..])
  {
  }

  /** Answers without their call, and then a properly paired rest. */
  ghost predicate Ragged(messages: seq<Message>) {
    exists k :: 0 <= k <= |messages| && RaggedAt(messages, k)
  }

  ghost predicate RaggedAt(messages: seq<Message>, k: nat)
    requires k <= |messages|
  {
    (forall i :: 0 <= i < k ==> messages[i].ToolAnswer?) && Paired(messages[k..])
  }

  /** A ragged stretch is paired unless it starts with an answer. */
  lemma {:induction false} RaggedIsPairedExactly(messages: seq<Message>)
    requires Ragged(messages)
    ensures Paired(messages) <==> messages == [] || !messages[0].ToolAnswer?
  {
    var k :| 0 <= k <= |messages| && RaggedAt(messages, k);
    if messages != [] && messages[0].ToolAnswer? {
      LostStaysLost(messages[1..]);
    } else {
      assert k == 0 && messages[0..] == messages;
    }
  }

  lemma {:induction false} RaggedAppends(a: seq<Message>, b: seq<Message>)
    requires Ragged(a) && Paired(b)
    ensures Ragged(a + b)
  {
    var k :| 0 <= k <= |a| && RaggedAt(a, k);
    assert (a + b)[k..] == a[k..] + b;
    PairedAppends(a[k..], b);
    assert RaggedAt(a + b, k);
  }

  /** Cutting off the front leaves at worst some answers without their call. */
  lemma {:induction false} CutIsRagged(messages: seq<Message>, waiting: seq<string>, cut: nat)
    requires Waiting(Some(waiting), messages) == Some([]) && cut <= |messages|
    requires cut == 0 ==> waiting == []
    ensures Ragged(messages[cut..])
    decreases |messages|
  {
    if cut == 0 {
      assert messages[0..] == messages && RaggedAt(messages, 0);
    } else {
      var next := Awaits(Some(waiting), messages[0]);
      if next.None? {
        LostStaysLost(messages[1..]);
      }
      assert messages[1..][cut - 1..] == messages[cut..];
      if cut > 1 || next.value == [] {
        CutIsRagged(messages[1..], next.value, cut - 1);
      } else {
        WaitingIsRagged(messages[1..], next.value);
      }
    }
  }

  lemma {:induction false} WaitingIsRagged(messages: seq<Message>, waiting: seq<string>)
    requires Waiting(Some(waiting), messages) == Some([])
    ensures Ragged(messages)
    decreases |messages|
  {
    if waiting == [] {
      assert messages[0..] == messages && RaggedAt(messages, 0);
    } else {
      var next := Awaits(Some(waiting), messages[0]);
      if next.None? {
        LostStaysLost(messages[1..]);
      }
      WaitingIsRagged(messages[1..], next.value);
      var k :| 0 <= k <= |messages| - 1 && RaggedAt(messages[1..], k);
      assert messages[1..][k..] == messages[k + 1..];
      assert forall i :: 1 <= i < k + 1 ==> messages[i] == messages[1..][i - 1];
      assert RaggedAt(messages, k + 1);
    }
  }

  lemma {:induction false} RaggedCut(messages: seq<Message>, cut: nat)
    requires Ragged(messages) && cut <= |messages|
    ensures Ragged(messages[cut..])
  {
    var k :| 0 <= k <= |messages| && RaggedAt(messages, k);
    if cut <= k {
      assert messages[cut..][k - cut..] == messages[k..];
      assert RaggedAt(messages[cut..], k - cut);
    } else {
      CutIsRagged(messages[k..], [], cut - k);
      assert messages[k..][cut - k..] == messages[cut..];
    }
  }

  /** The goal, then messages that pair up or, in a long conversation, a summary and perhaps answers without a call. */
  ghost predicate Shaped(messages: seq<Message>, long: nat) {
    && messages != [] && messages[0] == User(Goal)
    && (Paired(messages[1..]) ||
        (|messages| >= Max(2, long) && messages[1] == User(Summary) && Ragged(messages[2..])))
  }

  lemma {:induction false} ShapedAppends(a: seq<Message>, b: seq<Message>, long: nat)
    requires Shaped(a, long) && Paired(b)
    ensures Shaped(a + b, long + |b|)
  {
    if Paired(a[1..]) {
      assert (a + b)[1..] == a[1..] + b;
      PairedAppends(a[1..], b);
    } else {
      assert (a + b)[2..] == a[2..] + b;
      RaggedAppends(a[2..], b);
    }
  }

  /** The tail that summarising keeps starts inside the answers to one reply. */
  predicate CutsRound(messages: seq<Message>) {
    |messages| > KEEP && messages[|messages| - TAIL].ToolAnswer?
  }

  lemma {:induction false} RaggedTail(messages: seq<Message>)
    requires Shaped(messages, KEEP + 1) && |messages| > KEEP
    ensures Ragged(messages[|messages| - TAIL..])
  {
    var n := |messages|;
    if Paired(messages[1..]) {
      CutIsRagged(messages[1..], [], n - TAIL - 1);
      assert messages[1..][n - TAIL - 1..] == messages[n - TAIL..];
    } else {
      RaggedCut(messages[2..], n - TAIL - 2);
      assert messages[2..][n - TAIL - 2..] == messages[n - TAIL..];
    }
  }

  lemma {:induction false} SummarisedIsShaped(messages: seq<Message>)
    requires Shaped(messages, KEEP + 1)
    ensures Shaped(Summarised(messages), KEEP)
    ensures Paired(Summarised(messages)) <==> !CutsRound(messages)
  {
    var n, sent := |messages|, Summarised(messages);
    NoteIsNeutral(sent);
    if n > KEEP {
      RaggedTail(messages);
      assert sent[2..] == messages[n - TAIL..] && sent[1..][1..] == sent[2..];
      NoteIsNeutral(sent[1..]);
      RaggedIsPairedExactly(sent[2..]);
    }
  }

  lemma {:induction false} GoalIsShaped()
    ensures Shaped([User(Goal)], KEEP + 1)
  {
    assert [User(Goal)][1..] == [];
  }

  lemma {:induction false} NotedIsShaped(talk: seq<Message>, b: bool, note: Note, long: nat)
    requires Shaped(talk, long)
    ensures Shaped(Noted(talk, b, note), long)
  {
    NotePaired(note);
    ShapedAppends(talk, [User(note)], long);
  }

  /**
   * What the model is sent: at most 24 messages, the goal first, the order to conclude last when there is one;
   * and calls and answers pair up in it exactly when summarising did not cut a round in two.
   */
  lemma {:induction false} SentIsPairedExactly(talk: seq<Message>, conclude: bool)
    requires Shaped(talk, KEEP + 1)
    ensures var ready := Noted(talk, conclude, ConcludeNow);
            var sent := Summarised(ready);
            && 1 <= |sent| <= KEEP && sent[0] == User(Goal)
            && (conclude ==> sent[|sent| - 1] == User(ConcludeNow))
            && (Paired(sent) <==> !CutsRound(ready))
  {
    NotedIsShaped(talk, conclude, ConcludeNow, KEEP + 1);
    SummarisedIsShaped(Noted(talk, conclude, ConcludeNow));
  }

  /** A round with more answers than the tail has room for is always cut: answers are sent without their call. */
  lemma {:induction false} LongRoundIsCut(
    start: seq<Message>, calls: seq<ToolCall>, answers: seq<Message>, conclude: bool)
    requires Shaped(start, KEEP) && |answers| == |calls| > TAIL
    requires forall i :: 0 <= i < |answers| ==> answers[i].ToolAnswer? && answers[i].callId == calls[i].id
    ensures !Paired(Summarised(Noted(start + ([Assistant(calls)] + answers), conclude, ConcludeNow)))
  {
    AnsweredCallsPair(calls, answers);
    ShapedAppends(start, [Assistant(calls)] + answers, KEEP);
    SentIsPairedExactly(start + ([Assistant(calls)] + answers), conclude);
    TailOfLongRound(start, calls, answers, conclude, ConcludeNow);
  }

  lemma TailOfLongRound(start: seq<Message>, calls: seq<ToolCall>, answers: seq<Message>, b: bool, note: Note)
    requires start != [] && |answers| > TAIL
    ensures var messages := Noted(start + ([Assistant(calls)] + answers), b, note);
            |messages| > KEEP && messages[|messages| - TAIL] == answers[|answers| + Count(b) - TAIL]
  {
  }
}
