/** What the head hash of an audit trail commits to. */
module AuditCommitment {
  import opened Common
  import opened JsonText
  import opened AuditChain

  predicate IsHex(c: char) {
    '0' <= c <= '9' || 'a' <= c <= 'f'
  }

  /** The text form of section 4 of RFC 9562: 8-4-4-4-12 hexadecimal digits. */
  predicate IsUuid(s: string) {
    && |s| == 36
    && s[8] == s[13] == s[18] == s[23] == '-'
    && forall i :: 0 <= i < 8 ==> IsHex(s[i])
  }

  /** Hashes are 64 hexadecimal digits, and distinct times are written differently. */
  ghost predicate Faithful(sch: Scheme) {
    && (forall x :: |sch.hash(x)| == 64 && forall i :: 0 <= i < 64 ==> IsHex(sch.hash(x)[i]))
    && (forall t, u :: sch.format(t) == sch.format(u) ==> t == u)
  }

  /** What every recorded event satisfies: a registered pair, an actor id and object data. */
  ghost predicate Proper(e: Event) {
    && IsRegistered(e.eventType, e.action)
    && IsUuid(e.actorId)
    && e.data.Some? && e.data.value.Obj? && JsonOk(e.data.value)
  }

  ghost predicate AllProper(events: seq<Event>) {
    events == [] || (AllProper(events[..|events| - 1]) && Proper(events[|events| - 1]))
  }

  /** Two events agree on every hashed field; data agree in canonical form. */
  ghost predicate SameHashed(a: Event, b: Event) {
    && a.eventType == b.eventType
    && a.actorId == b.actorId
    && a.action == b.action
    && CanonicalJson(a.data) == CanonicalJson(b.data)
    && a.createdAt == b.createdAt
    && a.prevHash == b.prevHash
    && a.hash == b.hash
  }

  ghost predicate SameHistory(a: seq<Event>, b: seq<Event>) {
    |a| == |b| && forall i :: 0 <= i < |a| ==> SameHashed(a[i], b[i])
  }

  /** The texts that were hashed to build the trail. */
  ghost function Hashed(sch: Scheme, caseId: string, events: seq<Event>): set<string> {
    {GenesisPayload(caseId)} + set i | 0 <= i < |events| :: EventPayload(sch, events[i].prevHash, events[i])
  }

  /** Two different texts with one hash, the first from `a` and the second from `b`. */
  ghost predicate Collision(sch: Scheme, a: set<string>, b: set<string>) {
    exists p, q :: p in a && q in b && p != q && sch.hash(p) == sch.hash(q)
  }

  // ---- Reading the payload back -------------------------------------------------------------------------

  lemma RegisteredTypeHasNoDash(eventType: string, action: string)
    requires IsRegistered(eventType, action)
    ensures '-' !in eventType
  {
  }

  lemma RegisteredActionHasNoBrace(eventType: string, action: string)
    requires IsRegistered(eventType, action)
    ensures '{' !in action
  {
  }

  lemma {:induction false} SplitAt(a: string, rest: string, b: string, rest': string)
    requires a + rest == b + rest' && |a| == |b|
    ensures a == b && rest == rest'
  {
    assert a == (a + rest)[..|a|] && rest == (a + rest)[|a|..];
    assert b == (b + rest')[..|b|] && rest' == (b + rest')[|b|..];
  }

  /** The first dash of a dash-free type followed by an actor id is the ninth character of the id. */
  lemma {:induction false} TypeEndsBeforeDash(eventType: string, actor: string, rest: string)
    requires '-' !in eventType && IsUuid(actor)
    ensures IndexOf(eventType + (actor + rest), '-') == |eventType| + 8
  {
    var front := eventType + actor[..8];
    assert eventType + (actor + rest) == front + (actor[8..] + rest);
    IndexOfAfter(front, actor[8..] + rest, '-');
  }

  /** The payload, though written without separators, determines every field. */
  lemma {:induction false} PayloadIsUnambiguous(sch: Scheme, a: Event, b: Event)
    requires Faithful(sch) && Proper(a) && Proper(b)
    requires |a.prevHash| == 64 && |b.prevHash| == 64
    requires EventPayload(sch, a.prevHash, a) == EventPayload(sch, b.prevHash, b)
    ensures a.prevHash == b.prevHash && a.eventType == b.eventType && a.actorId == b.actorId && a.action == b.action
    ensures CanonicalJson(a.data) == CanonicalJson(b.data) && a.createdAt == b.createdAt
  {
    var timeA, timeB := sch.format(a.createdAt), sch.format(b.createdAt);
    var jsonA, jsonB := Text(a.data.value), Text(b.data.value);
    var afterActorA, afterActorB := a.action + (jsonA + timeA), b.action + (jsonB + timeB);
    SplitAt(a.prevHash, a.eventType + (a.actorId + afterActorA), b.prevHash, b.eventType + (b.actorId + afterActorB));
    RegisteredTypeHasNoDash(a.eventType, a.action);
    RegisteredTypeHasNoDash(b.eventType, b.action);
    TypeEndsBeforeDash(a.eventType, a.actorId, afterActorA);
    TypeEndsBeforeDash(b.eventType, b.actorId, afterActorB);
    SplitAt(a.eventType, a.actorId + afterActorA, b.eventType, b.actorId + afterActorB);
    SplitAt(a.actorId, afterActorA, b.actorId, afterActorB);
    RegisteredActionHasNoBrace(a.eventType, a.action);
    RegisteredActionHasNoBrace(b.eventType, b.action);
    IndexOfAfter(a.action, jsonA + timeA, '{');
    IndexOfAfter(b.action, jsonB + timeB, '{');
    SplitAt(a.action, jsonA + timeA, b.action, jsonB + timeB);
    ObjectTextDelimitsItself(a.data.value, timeA, b.data.value, timeB);
  }

  /** A genesis text is never an event payload: its fourth letter is not a hexadecimal digit. */
  lemma GenesisIsNoPayload(sch: Scheme, caseId: string, e: Event)
    requires |e.prevHash| == 64 && forall i :: 0 <= i < 64 ==> IsHex(e.prevHash[i])
    ensures GenesisPayload(caseId) != EventPayload(sch, e.prevHash, e)
  {
    assert GenesisPayload(caseId)[3] == 'r';
    assert EventPayload(sch, e.prevHash, e)[3] == e.prevHash[3];
  }

  // ---- The commitment -------------------------------------------------------------------------------------

  lemma LastLink(sch: Scheme, caseId: string, events: seq<Event>)
    requires events != [] && Chain(sch, caseId, events)
    ensures var n := |events| - 1;
            && Chain(sch, caseId, events[..n])
            && events[n].prevHash == Head(sch, caseId, events[..n])
            && events[n].hash == sch.hash(EventPayload(sch, events[n].prevHash, events[n]))
  {
    var n := |events| - 1;
    assert LinkOk(sch, caseId, events, n);
    forall i | 0 <= i < n
      ensures LinkOk(sch, caseId, events[..n], i)
    {
      assert LinkOk(sch, caseId, events, i);
      assert events[..n][..i] == events[..i];
    }
  }

  lemma HeadIsHash(sch: Scheme, caseId: string, events: seq<Event>)
    requires Faithful(sch) && Chain(sch, caseId, events)
    ensures |Head(sch, caseId, events)| == 64
    ensures forall i :: 0 <= i < 64 ==> IsHex(Head(sch, caseId, events)[i])
  {
    if events != [] {
      LastLink(sch, caseId, events);
    }
  }

  lemma HashedGrows(sch: Scheme, caseId: string, events: seq<Event>, n: nat)
    requires n <= |events|
    ensures Hashed(sch, caseId, events[..n]) <= Hashed(sch, caseId, events)
  {
    forall p | p in Hashed(sch, caseId, events[..n])
      ensures p in Hashed(sch, caseId, events)
    {
      if p != GenesisPayload(caseId) {
        var i :| 0 <= i < n && p == EventPayload(sch, events[..n][i].prevHash, events[..n][i]);
        assert p == EventPayload(sch, events[i].prevHash, events[i]);
      }
    }
  }

  lemma LastIsHashed(sch: Scheme, caseId: string, events: seq<Event>)
    requires events != []
    ensures var e := events[|events| - 1]; EventPayload(sch, e.prevHash, e) in Hashed(sch, caseId, events)
  {
  }

  /**
   * The head hash commits to the history: two verified trails with the same head belong to the same case
   * and agree event by event on every hashed field, unless they exhibit a collision of the hash.
   */
  lemma {:induction false} HeadCommits(
    sch: Scheme, caseA: string, a: seq<Event>, caseB: string, b: seq<Event>)
    requires Faithful(sch)
    requires Chain(sch, caseA, a) && AllProper(a)
    requires Chain(sch, caseB, b) && AllProper(b)
    requires Head(sch, caseA, a) == Head(sch, caseB, b)
    ensures (caseA == caseB && SameHistory(a, b)) || Collision(sch, Hashed(sch, caseA, a), Hashed(sch, caseB, b))
    decreases |a|
  {
    if a == [] && b == [] {
      SameGenesis(sch, caseA, caseB);
    } else if a == [] || b == [] {
      GenesisMeetsEvent(sch, caseA, a, caseB, b);
    } else {
      var n, m := |a| - 1, |b| - 1;
      LastLink(sch, caseA, a);
      LastLink(sch, caseB, b);
      LastIsHashed(sch, caseA, a);
      LastIsHashed(sch, caseB, b);
      if EventPayload(sch, a[n].prevHash, a[n]) == EventPayload(sch, b[m].prevHash, b[m]) {
        HeadIsHash(sch, caseA, a[..n]);
        HeadIsHash(sch, caseB, b[..m]);
        PayloadIsUnambiguous(sch, a[n], b[m]);
        HeadCommits(sch, caseA, a[..n], caseB, b[..m]);
        HashedGrows(sch, caseA, a, n);
        HashedGrows(sch, caseB, b, m);
        assert SameHashed(a[n], b[m]);
        if caseA == caseB && SameHistory(a[..n], b[..m]) {
          Extended(a, b);
        }
      }
    }
  }

  lemma Extended(a: seq<Event>, b: seq<Event>)
    requires a != [] && b != [] && SameHistory(a[..|a| - 1], b[..|b| - 1])
    requires SameHashed(a[|a| - 1], b[|b| - 1])
    ensures SameHistory(a, b)
  {
    forall i | 0 <= i < |a|
      ensures SameHashed(a[i], b[i])
    {
      if i < |a| - 1 {
        assert SameHashed(a[..|a| - 1][i], b[..|b| - 1][i]);
      }
    }
  }

  lemma SameGenesis(sch: Scheme, caseA: string, caseB: string)
    requires GenesisHash(sch, caseA) == GenesisHash(sch, caseB)
    ensures caseA == caseB || Collision(sch, Hashed(sch, caseA, []), Hashed(sch, caseB, []))
  {
    var p, q := GenesisPayload(caseA), GenesisPayload(caseB);
    if p == q {
      SplitAt("aceryx:genesis:", caseA, "aceryx:genesis:", caseB);
    } else {
      assert p in Hashed(sch, caseA, []) && q in Hashed(sch, caseB, []);
    }
  }

  /** An empty and a nonempty trail cannot share a head without a collision. */
  lemma GenesisMeetsEvent(sch: Scheme, caseA: string, a: seq<Event>, caseB: string, b: seq<Event>)
    requires Faithful(sch) && Chain(sch, caseA, a) && Chain(sch, caseB, b)
    requires (a == []) != (b == [])
    requires Head(sch, caseA, a) == Head(sch, caseB, b)
    ensures Collision(sch, Hashed(sch, caseA, a), Hashed(sch, caseB, b))
  {
    var caseId, events := if a == [] then caseB else caseA, if a == [] then b else a;
    var genesis := if a == [] then caseA else caseB;
    var e := events[|events| - 1];
    LastLink(sch, caseId, events);
    LastIsHashed(sch, caseId, events);
    HeadIsHash(sch, caseId, events[..|events| - 1]);
    GenesisIsNoPayload(sch, genesis, e);
    var p, q := GenesisPayload(genesis), EventPayload(sch, e.prevHash, e);
    assert p in Hashed(sch, genesis, []) && q in Hashed(sch, caseId, events);
    assert sch.hash(p) == sch.hash(q) && p != q;
  }
}
