/** The per-case audit trail: recording an event, and verifying the hash chain. */
module AuditChain {
  import opened Common
  import opened JsonText

  /**
   * `hash` stands for hex-encoded SHA-256 and `format` for the RFC 3339 rendering of a UTC time. Times are
   * counted in microseconds, the resolution events are stored with.
   */
  datatype Scheme = Scheme(hash: string -> string, format: int -> string)

  /** `data` holds the canonical syntax of the payload, `None` when there is none. */
  datatype Event = Event(
    id: int,
    caseId: string,
    stepId: string,
    eventType: string,
    actorId: string,
    actorType: string,
    action: string,
    data: Option<Json>,
    createdAt: int,
    prevHash: string,
    hash: string)

  /** What a caller asks to record. */
  datatype Entry = Entry(
    id: int,
    stepId: string,
    eventType: string,
    actorId: string,
    actorType: string,
    action: string,
    data: Option<Json>)

  function RegisteredActions(eventType: string): set<string> {
    if eventType == "case" then {"created", "updated", "closed", "cancelled"}
    else if eventType == "step" then {"activated", "completed", "failed", "skipped"}
    else if eventType == "task" then
      {"created", "claimed", "completed", "reassigned", "escalated", "escalation_suppressed"}
    else if eventType == "agent" then {"completed", "escalated"}
    else if eventType == "document" then {"uploaded", "downloaded", "deleted"}
    else if eventType == "auth" then {"denied", "login", "logout", "password_changed"}
    else if eventType == "system" then {"sla_breach", "workflow_published", "erasure_completed"}
    else {}
  }

  predicate IsRegistered(eventType: string, action: string) {
    action in RegisteredActions(eventType)
  }

  function GenesisPayload(caseId: string): string {
    "aceryx:genesis:" + caseId
  }

  function GenesisHash(sch: Scheme, caseId: string): string {
    sch.hash(GenesisPayload(caseId))
  }

  function CanonicalJson(data: Option<Json>): string {
    if data.None? then "" else Text(data.value)
  }

  /** The hashed text: the fields one after the other, without separators. */
  function Payload(
    sch: Scheme, prev: string, eventType: string, actorId: string, action: string, data: Option<Json>, at: int)
    : string
  {
    prev + (eventType + (actorId + (action + (CanonicalJson(data) + sch.format(at)))))
  }

  function EventPayload(sch: Scheme, prev: string, e: Event): string {
    Payload(sch, prev, e.eventType, e.actorId, e.action, e.data, e.createdAt)
  }

  // ---- Verification ---------------------------------------------------------------------------------------

  /** The hash the next event must point to. */
  function Head(sch: Scheme, caseId: string, events: seq<Event>): string {
    if events == [] then GenesisHash(sch, caseId) else events[|events| - 1].hash
  }

  /** Event `i` belongs to the case, is not before its predecessor, and continues the chain. */
  ghost predicate LinkOk(sch: Scheme, caseId: string, events: seq<Event>, i: nat)
    requires i < |events|
  {
    var e := events[i];
    && e.caseId == caseId
    && (i > 0 ==> events[i - 1].createdAt <= e.createdAt)
    && e.prevHash == Head(sch, caseId, events[..i])
    && e.hash == sch.hash(EventPayload(sch, e.prevHash, e))
  }

  ghost predicate Chain(sch: Scheme, caseId: string, events: seq<Event>) {
    forall i :: 0 <= i < |events| ==> LinkOk(sch, caseId, events, i)
  }

  /** The text whose hash an event carries, written out. */
  function HashedText(sch: Scheme, e: Event): string {
    e.prevHash + e.eventType + e.actorId + e.action + (if e.data.Some? then Text(e.data.value) else "")
    + sch.format(e.createdAt)
  }

  /** What links event `i` to the trail, written out. */
  ghost predicate Linked(sch: Scheme, events: seq<Event>, i: nat)
    requires i < |events|
  {
    var e := events[i];
    && e.caseId == events[0].caseId
    && (i > 0 ==> e.createdAt >= events[i - 1].createdAt)
    && e.prevHash == (if i == 0 then sch.hash("aceryx:genesis:" + e.caseId) else events[i - 1].hash)
    && e.hash == sch.hash(HashedText(sch, e))
  }

  lemma {:induction false} PayloadPlainly(sch: Scheme, e: Event)
    ensures EventPayload(sch, e.prevHash, e) == HashedText(sch, e)
  {
  }

  lemma {:induction false} LinkPlainly(sch: Scheme, events: seq<Event>, i: nat)
    requires i < |events|
    ensures LinkOk(sch, events[0].caseId, events, i) <==> Linked(sch, events, i)
  {
    PayloadPlainly(sch, events[i]);
  }

  /** Accepts exactly the chains; otherwise it reports the first broken link, and whether the case differs there. */
  method VerifyChain(sch: Scheme, events: seq<Event>) returns (valid: bool, brokenAt: int, mixedCases: bool)
    ensures valid <==> events == [] || Chain(sch, events[0].caseId, events)
    ensures valid <==> forall i :: 0 <= i < |events| ==> Linked(sch, events, i)
    ensures valid ==> brokenAt == -1 && !mixedCases
    ensures !valid ==>
              && 0 <= brokenAt < |events|
              && !LinkOk(sch, events[0].caseId, events, brokenAt)
              && (forall k :: 0 <= k < brokenAt ==> LinkOk(sch, events[0].caseId, events, k))
              && (mixedCases <==> events[brokenAt].caseId != events[0].caseId)
  {
    if |events| == 0 {
      return true, -1, false;
    }
    forall i | 0 <= i < |events|
      ensures LinkOk(sch, events[0].caseId, events, i) <==> Linked(sch, events, i)
    {
      LinkPlainly(sch, events, i);
    }
    var caseId := events[0].caseId;
    var prev := GenesisHash(sch, caseId);
    for i := 0 to |events|
      invariant prev == Head(sch, caseId, events[..i])
      invariant forall k :: 0 <= k < i ==> LinkOk(sch, caseId, events, k)
    {
      var event := events[i];
      ghost var linked := LinkOk(sch, caseId, events, i);
      if event.caseId != caseId {
        return false, i, true;
      }
      if i > 0 && event.createdAt < events[i - 1].createdAt {
        return false, i, false;
      }
      if event.prevHash != prev {
        return false, i, false;
      }
      var expected := sch.hash(EventPayload(sch, prev, event));
      if expected != event.hash {
        return false, i, false;
      }
      prev := event.hash;
    }
    return true, -1, false;
  }

  // ---- Recording ------------------------------------------------------------------------------------------

  /** `ORDER BY created_at DESC, id DESC` puts `a` before `b`. */
  predicate Newer(a: Event, b: Event) {
    a.createdAt > b.createdAt || (a.createdAt == b.createdAt && a.id > b.id)
  }

  function Latest(events: seq<Event>): Event
    requires events != []
  {
    var last := events[|events| - 1];
    if |events| == 1 then last
    else
      var sofar := Latest(events[..|events| - 1]);
      if Newer(sofar, last) then sofar else last
  }

  /** The timestamp an event gets: the clock, moved past the latest event when it has not advanced. */
  function Stamp(events: seq<Event>, now: int): int {
    if events != [] && Latest(events).createdAt != ZERO_TIME && now <= Latest(events).createdAt
    then Latest(events).createdAt + 1
    else now
  }

  function NewEvent(sch: Scheme, caseId: string, events: seq<Event>, entry: Entry, now: int): Event {
    var prev := if events == [] then GenesisHash(sch, caseId) else Latest(events).hash;
    var at := Stamp(events, now);
    Event(
      entry.id, caseId, entry.stepId, entry.eventType, entry.actorId, entry.actorType, entry.action, entry.data, at,
      prev, sch.hash(Payload(sch, prev, entry.eventType, entry.actorId, entry.action, entry.data, at)))
  }

  /** The trail after a registered event was recorded; an unregistered one is refused and nothing is added. */
  function Recorded(sch: Scheme, caseId: string, events: seq<Event>, entry: Entry, now: int): seq<Event> {
    if IsRegistered(entry.eventType, entry.action) then events + [NewEvent(sch, caseId, events, entry, now)] else events
  }

  /** Every event of the trail is earlier, or of the same time with no greater id. */
  ghost predicate IsNewest(events: seq<Event>, newest: Event) {
    forall e :: e in events ==>
      e.createdAt < newest.createdAt || (e.createdAt == newest.createdAt && e.id <= newest.id)
  }

  /** The new event says what was asked, and when. */
  ghost predicate Says(caseId: string, entry: Entry, e: Event) {
    && e.caseId == caseId && e.id == entry.id && e.stepId == entry.stepId && e.eventType == entry.eventType
    && e.actorId == entry.actorId && e.actorType == entry.actorType && e.action == entry.action && e.data == entry.data
  }

  /** One more event, which follows the newest one in time and in the chain. */
  ghost predicate Appends(sch: Scheme, caseId: string, events: seq<Event>, entry: Entry, now: int, later: seq<Event>) {
    && |later| == |events| + 1 && events <= later
    && var e := later[|events|];
       && Says(caseId, entry, e) && e.hash == sch.hash(HashedText(sch, e))
       && if events == [] then e.prevHash == sch.hash("aceryx:genesis:" + caseId) && e.createdAt == now
          else exists k :: 0 <= k < |events| && IsNewest(events, events[k]) && Follows(events[k], now, e)
  }

  ghost predicate Follows(newest: Event, now: int, e: Event) {
    && e.prevHash == newest.hash
    && e.createdAt ==
       if now > newest.createdAt || newest.createdAt == ZERO_TIME then now else newest.createdAt + 1
  }

  lemma {:induction false} RecordedPlainly(sch: Scheme, caseId: string, events: seq<Event>, entry: Entry, now: int)
    requires IsRegistered(entry.eventType, entry.action)
    ensures Appends(sch, caseId, events, entry, now, Recorded(sch, caseId, events, entry, now))
  {
    var e := NewEvent(sch, caseId, events, entry, now);
    PayloadPlainly(sch, e);
    if events != [] {
      LatestIsListed(events);
      LatestIsNewest(events);
      var k :| 0 <= k < |events| && events[k] == Latest(events);
      assert IsNewest(events, events[k]) && Follows(events[k], now, e);
    }
  }

  /** `RecordCaseEventTx` on the case's events; the clock is read in nanoseconds and truncated. */
  method RecordCaseEvent(sch: Scheme, caseId: string, events: seq<Event>, entry: Entry, clock: int)
    returns (r: Result<seq<Event>, string>)
    ensures r.Ok? <==> IsRegistered(entry.eventType, entry.action)
    ensures r.Ok? ==> r.value == Recorded(sch, caseId, events, entry, clock / 1000)
    ensures r.Ok? ==> Appends(sch, caseId, events, entry, clock / 1000, r.value)
  {
    if !IsRegistered(entry.eventType, entry.action) {
      return Err("unregistered audit event");
    }
    RecordedPlainly(sch, caseId, events, entry, clock / 1000);
    var prev := GenesisHash(sch, caseId);
    var prevCreated := ZERO_TIME;
    if events != [] {
      var latest := FindLatest(events);
      prev, prevCreated := latest.hash, latest.createdAt;
    }
    var now := clock / 1000;
    if prevCreated != ZERO_TIME && now <= prevCreated {
      now := prevCreated + 1;
    }
    var hash := sch.hash(Payload(sch, prev, entry.eventType, entry.actorId, entry.action, entry.data, now));
    var event := Event(
      entry.id, caseId, entry.stepId, entry.eventType, entry.actorId, entry.actorType, entry.action, entry.data, now,
      prev, hash);
    r := Ok(events + [event]);
  }

  lemma {:induction false} NoneIsNewer(events: seq<Event>, i: nat)
    requires i < |events|
    ensures !Newer(events[i], Latest(events))
  {
    var n := |events| - 1;
    if i < n {
      NoneIsNewer(events[..n], i);
      assert events[..n][i] == events[i];
    }
  }

  lemma {:induction false} LatestIsListed(events: seq<Event>)
    requires events != []
    ensures exists i :: 0 <= i < |events| && events[i] == Latest(events)
  {
    var n := |events| - 1;
    if n > 0 {
      LatestIsListed(events[..n]);
      var i :| 0 <= i < n && events[..n][i] == Latest(events[..n]);
      assert events[i] == Latest(events[..n]);
    }
    assert events[n] == events[|events| - 1];
  }

  /** The newest event is one of the trail, and no event of the trail is newer. */
  lemma {:induction false} LatestIsNewest(events: seq<Event>)
    requires events != []
    ensures Latest(events) in events && forall e :: e in events ==> !Newer(e, Latest(events))
  {
    LatestIsListed(events);
    forall e | e in events
      ensures !Newer(e, Latest(events))
    {
      var i :| 0 <= i < |events| && events[i] == e;
      NoneIsNewer(events, i);
    }
  }

  method FindLatest(events: seq<Event>) returns (latest: Event)
    requires events != []
    ensures latest == Latest(events)
    ensures latest in events && IsNewest(events, latest)
  {
    LatestIsNewest(events);
    latest := events[0];
    for i := 1 to |events|
      invariant latest == Latest(events[..i])
    {
      assert events[..i + 1][..i] == events[..i];
      if !Newer(latest, events[i]) {
        latest := events[i];
      }
    }
    assert events[..|events|] == events;
  }

  ghost predicate Increasing(events: seq<Event>) {
    forall i, j :: 0 <= i < j < |events| ==> events[i].createdAt < events[j].createdAt
  }

  /** With increasing timestamps the query finds the event recorded last. */
  lemma {:induction false} LatestIsLast(events: seq<Event>)
    requires events != [] && Increasing(events)
    ensures Latest(events) == events[|events| - 1]
  {
    var n := |events| - 1;
    if n > 0 {
      LatestIsLast(events[..n]);
      assert events[..n][n - 1] == events[n - 1];
    }
  }

  /** The clock stands at or before Go's zero time right after an event stamped with it. */
  predicate ClockLost(events: seq<Event>, now: int) {
    events != [] && events[|events| - 1].createdAt == ZERO_TIME && now <= ZERO_TIME
  }

  /** A recorded event keeps the timestamps increasing exactly when the clock was not lost. */
  lemma {:induction false} RecordingKeepsIncreasing(
    sch: Scheme, caseId: string, events: seq<Event>, entry: Entry, now: int)
    requires Increasing(events) && IsRegistered(entry.eventType, entry.action)
    ensures Increasing(Recorded(sch, caseId, events, entry, now)) <==> !ClockLost(events, now)
  {
    var after := Recorded(sch, caseId, events, entry, now);
    var n := |events|;
    assert forall i :: 0 <= i < n ==> after[i] == events[i];
    if events != [] {
      LatestIsLast(events);
      assert after[n - 1].createdAt < after[n].createdAt <==> !ClockLost(events, now);
    }
  }

  /** A recorded event extends the chain. */
  lemma {:induction false} RecordingKeepsChain(
    sch: Scheme, caseId: string, events: seq<Event>, entry: Entry, now: int)
    requires Increasing(events) && Chain(sch, caseId, events) && !ClockLost(events, now)
    ensures Chain(sch, caseId, Recorded(sch, caseId, events, entry, now))
  {
    if IsRegistered(entry.eventType, entry.action) {
      var after := Recorded(sch, caseId, events, entry, now);
      var n := |events|;
      if events != [] {
        LatestIsLast(events);
      }
      forall i | 0 <= i < |after|
        ensures LinkOk(sch, caseId, after, i)
      {
        assert after[..i] == events[..i];
        if i < n {
          assert LinkOk(sch, caseId, events, i);
        } else {
          assert events[..n] == events;
        }
      }
    }
  }

  /** One call of `RecordCaseEventTx` in its own transaction. */
  datatype Call = Call(entry: Entry, now: int)

  function Trail(sch: Scheme, caseId: string, calls: seq<Call>): seq<Event> {
    if calls == [] then []
    else
      var n := |calls| - 1;
      Recorded(sch, caseId, Trail(sch, caseId, calls[..n]), calls[n].entry, calls[n].now)
  }

  /** The i-th call records an event while the clock is lost. */
  ghost predicate LostAt(sch: Scheme, caseId: string, calls: seq<Call>, i: nat)
    requires i < |calls|
  {
    && IsRegistered(calls[i].entry.eventType, calls[i].entry.action)
    && ClockLost(Trail(sch, caseId, calls[..i]), calls[i].now)
  }

  ghost predicate NeverLost(sch: Scheme, caseId: string, calls: seq<Call>) {
    forall i :: 0 <= i < |calls| ==> !LostAt(sch, caseId, calls, i)
  }

  lemma {:induction false} NeverLostBefore(sch: Scheme, caseId: string, calls: seq<Call>)
    requires calls != []
    ensures NeverLost(sch, caseId, calls) <==>
            NeverLost(sch, caseId, calls[..|calls| - 1]) && !LostAt(sch, caseId, calls, |calls| - 1)
  {
    var before := calls[..|calls| - 1];
    forall i | 0 <= i < |before|
      ensures LostAt(sch, caseId, before, i) <==> LostAt(sch, caseId, calls, i)
    {
      assert before[..i] == calls[..i];
    }
  }

  lemma {:induction false} RecordedIncreasing(sch: Scheme, caseId: string, events: seq<Event>, entry: Entry, now: int)
    requires Increasing(Recorded(sch, caseId, events, entry, now))
    ensures Increasing(events)
  {
    var after := Recorded(sch, caseId, events, entry, now);
    assert forall i :: 0 <= i < |events| ==> after[i] == events[i];
  }

  /**
   * Whatever is recorded, and however the clock stalls or jumps back: the timestamps increase strictly exactly
   * when no event is recorded while the clock is lost at Go's zero time, and then the trail is a chain.
   */
  lemma {:induction false} EveryTrailVerifies(sch: Scheme, caseId: string, calls: seq<Call>)
    ensures Increasing(Trail(sch, caseId, calls)) <==> NeverLost(sch, caseId, calls)
    ensures NeverLost(sch, caseId, calls) ==> Chain(sch, caseId, Trail(sch, caseId, calls))
  {
    if calls != [] {
      var n := |calls| - 1;
      EveryTrailVerifies(sch, caseId, calls[..n]);
      NeverLostBefore(sch, caseId, calls);
      TrailGrows(sch, caseId, Trail(sch, caseId, calls[..n]), calls[n].entry, calls[n].now);
    }
  }

  lemma {:induction false} TrailGrows(sch: Scheme, caseId: string, events: seq<Event>, entry: Entry, now: int)
    ensures var lost := IsRegistered(entry.eventType, entry.action) && ClockLost(events, now);
            && (Increasing(Recorded(sch, caseId, events, entry, now)) <==> Increasing(events) && !lost)
            && (Increasing(events) && Chain(sch, caseId, events) && !lost ==>
                  Chain(sch, caseId, Recorded(sch, caseId, events, entry, now)))
  {
    if Increasing(Recorded(sch, caseId, events, entry, now)) {
      RecordedIncreasing(sch, caseId, events, entry, now);
    }
    if Increasing(events) && IsRegistered(entry.eventType, entry.action) {
      RecordingKeepsIncreasing(sch, caseId, events, entry, now);
      if Chain(sch, caseId, events) && !ClockLost(events, now) {
        RecordingKeepsChain(sch, caseId, events, entry, now);
      }
    }
  }

  /** A clock that reads later than Go's zero time is never lost. */
  lemma {:induction false} RunningClockIsNeverLost(sch: Scheme, caseId: string, calls: seq<Call>)
    requires forall i :: 0 <= i < |calls| ==> calls[i].now > ZERO_TIME
    ensures NeverLost(sch, caseId, calls)
  {
  }

  /** A clock that stands at the zero time: two events get the same timestamp. */
  lemma {:induction false} ZeroClockRepeats(sch: Scheme, caseId: string, entry: Entry)
    requires IsRegistered(entry.eventType, entry.action)
    ensures var trail := Trail(sch, caseId, [Call(entry, ZERO_TIME), Call(entry, ZERO_TIME)]);
            |trail| == 2 && trail[0].createdAt == trail[1].createdAt && !Increasing(trail)
  {
    var calls := [Call(entry, ZERO_TIME), Call(entry, ZERO_TIME)];
    assert calls[..1] == [calls[0]] && calls[..1][..0] == [];
    assert Trail(sch, caseId, calls[..1][..0]) == [];
    var first := Trail(sch, caseId, calls[..1]);
    assert first == Recorded(sch, caseId, [], entry, ZERO_TIME);
    assert Trail(sch, caseId, calls) == Recorded(sch, caseId, first, entry, ZERO_TIME);
  }
}
