/** Validation of a bounded runtime event history. */
module RuntimeHistory {
  import opened Prelude
  import opened Gateway

  datatype Identity = Identity(runId: string, attemptId: string, epoch: int)
  datatype Readers = Readers(uuid: string -> Option<string>, sha256: Json -> string)
  datatype Summary = Summary(eventCount: nat, heartbeatCount: nat, terminalEventId: Json, historySha256: string)

  const EVENT_KEYS := {
    "event_id", "schema_version", "run_id", "attempt_id", "service_instance_id",
    "source_identity", "source_version", "epoch", "event_type", "emitted_at",
    "received_at", "local_sequence", "body_sha256", "body_bytes"
  }

  /** An event with exactly the expected keys, bound to the run, attempt and epoch, with a readable id. */
  predicate Bound(rd: Readers, id: Identity, e: Json) {
    && e.Obj? && e.fields.Keys == EVENT_KEYS
    && Get(e.fields, "run_id") == Str(id.runId) && Get(e.fields, "attempt_id") == Str(id.attemptId)
    && EqualsInt(Get(e.fields, "epoch"), id.epoch)
    && Get(e.fields, "local_sequence").Int? && e.fields["local_sequence"].n >= 1
    && LowerHex(Text(Get(e.fields, "body_sha256")), 64)
    && Get(e.fields, "body_bytes").Int? && e.fields["body_bytes"].n >= 1
    && rd.uuid(Text(Get(e.fields, "event_id"))).Some?
  }

  function EventId(rd: Readers, e: Json): Option<string> {
    if e.Obj? then rd.uuid(Text(Get(e.fields, "event_id"))) else None
  }

  function Sequence(e: Json): int {
    if e.Obj? && Get(e.fields, "local_sequence").Int? then e.fields["local_sequence"].n else 0
  }

  predicate OfType(e: Json, eventType: string) { e.Obj? && Text(Get(e.fields, "event_type")) == eventType }
  predicate Heartbeat(e: Json) { OfType(e, "runtime.heartbeat") }
  predicate Terminal(e: Json) { OfType(e, "runtime.terminal") }

  // -------------------------------------------------------- the specification

  ghost predicate Clash(rd: Readers, e: Json, f: Json) { EventId(rd, e) == EventId(rd, f) || Sequence(e) == Sequence(f) }

  ghost predicate NoClash(rd: Readers, events: seq<Json>) {
    forall i, j | 0 <= i < j < |events| :: !Clash(rd, events[i], events[j])
  }

  /** One terminal event, strictly later than every other event. */
  ghost predicate EndsWith(events: seq<Json>, t: Json) {
    t in events && Terminal(t) && forall e | e in events && e != t :: !Terminal(e) && Sequence(e) < Sequence(t)
  }

  ghost predicate Accepted(rd: Readers, id: Identity, events: seq<Json>) {
    && 2 <= |events| <= 200
    && (forall e | e in events :: Bound(rd, id, e))
    && NoClash(rd, events)
    && (exists e | e in events :: Heartbeat(e))
    && (exists t :: EndsWith(events, t))
  }

  function CountType(events: seq<Json>, eventType: string): nat {
    if events == [] then 0
    else CountType(events[..|events| - 1], eventType) + if OfType(events[|events| - 1], eventType) then 1 else 0
  }

  predicate ExactResponse(response: Fields) {
    && response.Keys == {"events", "count", "bounded"} && response["bounded"] == Bool(true)
    && response["events"].Arr? && EqualsInt(response["count"], |response["events"].items|)
  }

  // ------------------------------------------------------------- the validator

  /** Accepts exactly the specified histories and summarises them. */
  method Validate(rd: Readers, response: Fields, id: Identity) returns (r: Option<Summary>)
    ensures r.Some? <==> ExactResponse(response) && Accepted(rd, id, response["events"].items)
    ensures r.Some? ==> var events := response["events"].items;
      && r.value.eventCount == |events| && r.value.heartbeatCount == CountType(events, "runtime.heartbeat") >= 1
      && (exists t :: EndsWith(events, t) && r.value.terminalEventId == Get(t.fields, "event_id"))
      && r.value.historySha256 == rd.sha256(Arr(events))
  {
    hide EqualsInt, Text, CountType, NoClash, OfType, Sequence, LowerHex;
    if !ExactResponse(response) {
      return None;
    }
    var events := response["events"].items;
    if !(2 <= |events| <= 200) {
      return None;
    }
    var clean := CheckEach(rd, events, id);
    if !clean {
      return None;
    }
    var heartbeats, terminals, last, highest := Tally(events);
    TallyMeans(rd, events, heartbeats, terminals, last, highest);
    if heartbeats == 0 || terminals != 1 || Sequence(events[last]) != highest {
      return None;
    }
    return Some(Summary(|events|, heartbeats, Get(events[last].fields, "event_id"), rd.sha256(Arr(events))));
  }

  function Ids(rd: Readers, events: seq<Json>): set<Option<string>> { set e | e in events :: EventId(rd, e) }
  function Sequences(events: seq<Json>): set<int> { set e | e in events :: Sequence(e) }

  /** The loop over the events: each is bound, and no identity or sequence repeats. */
  method CheckEach(rd: Readers, events: seq<Json>, id: Identity) returns (clean: bool)
    ensures clean <==> (forall e | e in events :: Bound(rd, id, e)) && NoClash(rd, events)
  {
    hide Bound, EventId, Sequence, Clash, Ids, Sequences;
    var ids: set<Option<string>>, sequences: set<int> := {}, {};
    NothingSeen(rd);
    for k := 0 to |events|
      invariant forall i | 0 <= i < k :: Bound(rd, id, events[i])
      invariant forall i, j | 0 <= i < j < k :: !Clash(rd, events[i], events[j])
      invariant ids == Ids(rd, events[..k]) && sequences == Sequences(events[..k])
    {
      var e := events[k];
      if !Bound(rd, id, e) {
        return false;
      }
      SeenMeansClash(rd, events, k);
      if EventId(rd, e) in ids || Sequence(e) in sequences {
        return false;
      }
      ids, sequences := ids + {EventId(rd, e)}, sequences + {Sequence(e)};
    }
    return true;
  }

  lemma NothingSeen(rd: Readers)
    ensures forall events: seq<Json> :: Ids(rd, events[..0]) == {} && Sequences(events[..0]) == {}
  {
  }

  /** A repeated identity or sequence is a clash with an earlier event; the sets grow with the prefix. */
  lemma SeenMeansClash(rd: Readers, events: seq<Json>, k: nat)
    requires k < |events|
    ensures EventId(rd, events[k]) in Ids(rd, events[..k]) || Sequence(events[k]) in Sequences(events[..k])
       <==> exists i | 0 <= i < k :: Clash(rd, events[i], events[k])
    ensures Ids(rd, events[..k + 1]) == Ids(rd, events[..k]) + {EventId(rd, events[k])}
    ensures Sequences(events[..k + 1]) == Sequences(events[..k]) + {Sequence(events[k])}
  {
    hide EventId, Sequence;
    assert events[..k + 1] == events[..k] + [events[k]];
    assert forall i | 0 <= i < k :: events[i] in events[..k];
    if e :| e in events[..k] && Clash(rd, e, events[k]) {
      var i :| 0 <= i < k && events[..k][i] == e;
      assert Clash(rd, events[i], events[k]);
    }
  }

  /** Counts both kinds of event, remembers a terminal one and the highest sequence. */
  method Tally(events: seq<Json>) returns (heartbeats: nat, terminals: nat, last: nat, highest: int)
    requires events != []
    ensures heartbeats == CountType(events, "runtime.heartbeat") && terminals == CountType(events, "runtime.terminal")
    ensures last < |events| && (terminals > 0 ==> Terminal(events[last]))
    ensures forall e | e in events :: Sequence(e) <= highest
    ensures exists e | e in events :: Sequence(e) == highest
  {
    hide Sequence, OfType;
    heartbeats, terminals, last, highest := 0, 0, 0, Sequence(events[0]);
    for k := 0 to |events|
      invariant heartbeats == CountType(events[..k], "runtime.heartbeat") && terminals == CountType(events[..k], "runtime.terminal")
      invariant last < |events| && (terminals > 0 ==> Terminal(events[last]))
      invariant forall i | 0 <= i < k :: Sequence(events[i]) <= highest
      invariant exists e | e in events :: Sequence(e) == highest
    {
      assert events[..k + 1][..k] == events[..k];
      if Heartbeat(events[k]) {
        heartbeats := heartbeats + 1;
      }
      if Terminal(events[k]) {
        terminals, last := terminals + 1, k;
      }
      if Sequence(events[k]) > highest {
        highest := Sequence(events[k]);
        assert events[k] in events;
      }
    }
    assert events[..|events|] == events;
  }

  // -------------------------------------------------------- counting events

  lemma {:induction false} CountZero(events: seq<Json>, eventType: string)
    ensures CountType(events, eventType) == 0 <==> forall e | e in events :: !OfType(e, eventType)
    decreases |events|
  {
    if events != [] {
      var n := |events| - 1;
      assert events == events[..n] + [events[n]];
      CountZero(events[..n], eventType);
    }
  }

  lemma {:induction false} CountOne(events: seq<Json>, eventType: string, p: nat)
    requires p < |events| && OfType(events[p], eventType)
    ensures CountType(events, eventType) >= 1
    ensures CountType(events, eventType) == 1 <==> forall i | 0 <= i < |events| && i != p :: !OfType(events[i], eventType)
    decreases |events|
  {
    var n := |events| - 1;
    var front := events[..n];
    if p == n {
      CountZero(front, eventType);
      assert forall i | 0 <= i < n :: events[i] in front;
    } else {
      CountOne(front, eventType, p);
      assert forall i | 0 <= i < n :: events[i] == front[i];
    }
  }

  /** The three tests after the loop say exactly that there is a heartbeat and one final terminal event. */
  lemma TallyMeans(rd: Readers, events: seq<Json>, heartbeats: nat, terminals: nat, last: nat, highest: int)
    requires NoClash(rd, events)
    requires heartbeats == CountType(events, "runtime.heartbeat") && terminals == CountType(events, "runtime.terminal")
    requires last < |events| && (terminals > 0 ==> Terminal(events[last]))
    requires forall e | e in events :: Sequence(e) <= highest
    requires exists e | e in events :: Sequence(e) == highest
    ensures heartbeats > 0 <==> exists e | e in events :: Heartbeat(e)
    ensures terminals == 1 && Sequence(events[last]) == highest <==> exists t :: EndsWith(events, t)
    ensures terminals == 1 && Sequence(events[last]) == highest ==> EndsWith(events, events[last])
  {
    hide OfType, Sequence, EventId;
    CountZero(events, "runtime.heartbeat");
    if terminals == 1 && Sequence(events[last]) == highest {
      LoneTerminalIsFinal(rd, events, last, highest);
    }
    if exists t :: EndsWith(events, t) {
      var t :| EndsWith(events, t);
      FinalTerminalIsLone(rd, events, t, last, highest);
    }
  }

  lemma LoneTerminalIsFinal(rd: Readers, events: seq<Json>, last: nat, highest: int)
    requires NoClash(rd, events) && last < |events| && Terminal(events[last])
    requires CountType(events, "runtime.terminal") == 1 && Sequence(events[last]) == highest
    requires forall e | e in events :: Sequence(e) <= highest
    ensures EndsWith(events, events[last])
  {
    hide OfType, Sequence, EventId;
    CountOne(events, "runtime.terminal", last);
    forall e | e in events && e != events[last] ensures !Terminal(e) && Sequence(e) < Sequence(events[last]) {
      var i :| 0 <= i < |events| && events[i] == e;
      assert i < last ==> !Clash(rd, events[i], events[last]);
      assert last < i ==> !Clash(rd, events[last], events[i]);
    }
  }

  lemma FinalTerminalIsLone(rd: Readers, events: seq<Json>, t: Json, last: nat, highest: int)
    requires NoClash(rd, events) && EndsWith(events, t)
    requires last < |events| && (CountType(events, "runtime.terminal") > 0 ==> Terminal(events[last]))
    requires forall e | e in events :: Sequence(e) <= highest
    requires exists e | e in events :: Sequence(e) == highest
    ensures CountType(events, "runtime.terminal") == 1 && events[last] == t && Sequence(t) == highest
  {
    hide OfType, Sequence, EventId;
    var p :| 0 <= p < |events| && events[p] == t;
    forall i | 0 <= i < |events| && i != p ensures !Terminal(events[i]) {
      assert i < p ==> !Clash(rd, events[i], events[p]);
      assert p < i ==> !Clash(rd, events[p], events[i]);
      assert events[i] in events;
    }
    CountOne(events, "runtime.terminal", p);
  }

  // --------------------------------------------------------- order of events

  lemma NoClashReordered(rd: Readers, a: seq<Json>, b: seq<Json>)
    requires multiset(a) == multiset(b) && NoClash(rd, a)
    ensures NoClash(rd, b)
  {
    forall i, j | 0 <= i < j < |b| ensures !Clash(rd, b[i], b[j]) {
      assert b[i] in multiset(a) && b[j] in multiset(a);
      if b[i] == b[j] {
        CountedTwice(b, i, j);
        Twice(a, b[i]);
      } else {
        var k :| 0 <= k < |a| && a[k] == b[i];
        var l :| 0 <= l < |a| && a[l] == b[j];
        assert k < l ==> !Clash(rd, a[k], a[l]);
        assert l < k ==> !Clash(rd, a[l], a[k]);
      }
    }
  }

  lemma {:induction false} CountReordered(a: seq<Json>, b: seq<Json>, eventType: string)
    requires multiset(a) == multiset(b)
    ensures CountType(a, eventType) == CountType(b, eventType)
    decreases |a|
  {
    if a == [] {
      assert |b| == |multiset(b)| == 0;
    } else {
      var n := |a| - 1;
      assert a == a[..n] + [a[n]];
      assert a[n] in multiset(b);
      var k :| 0 <= k < |b| && b[k] == a[n];
      var rest := b[..k] + b[k + 1..];
      assert b == b[..k] + [b[k]] + b[k + 1..];
      assert multiset(a[..n]) == multiset(a) - multiset{a[n]};
      assert multiset(rest) == multiset(b) - multiset{b[k]};
      CountReordered(a[..n], rest, eventType);
      CountWithout(b, k, eventType);
    }
  }

  lemma {:induction false} CountWithout(b: seq<Json>, k: nat, eventType: string)
    requires k < |b|
    ensures CountType(b, eventType) == CountType(b[..k] + b[k + 1..], eventType) + if OfType(b[k], eventType) then 1 else 0
    decreases |b|
  {
    hide OfType;
    var n := |b| - 1;
    if k == n {
      assert b[..k] + b[k + 1..] == b[..n];
    } else {
      var rest := b[..k] + b[k + 1..];
      assert rest[..n - 1] == b[..n][..k] + b[..n][k + 1..] && rest[n - 1] == b[n];
      CountWithout(b[..n], k, eventType);
    }
  }

  /** Verdict and summary, the digest of the listing apart, do not depend on the order of the events. */
  lemma OrderIrrelevant(rd: Readers, id: Identity, a: seq<Json>, b: seq<Json>)
    requires multiset(a) == multiset(b) && Accepted(rd, id, a)
    ensures Accepted(rd, id, b) && |a| == |b|
    ensures CountType(a, "runtime.heartbeat") == CountType(b, "runtime.heartbeat")
    ensures forall t, u | EndsWith(a, t) && EndsWith(b, u) :: t == u
  {
    hide Bound, OfType, Sequence, NoClash, EndsWith, CountType;
    SameEvents(a, b);
    NoClashReordered(rd, a, b);
    CountReordered(a, b, "runtime.heartbeat");
    var t :| EndsWith(a, t);
    EndsWithReordered(a, b, t);
    forall u | EndsWith(b, u) ensures u == t {
      EndsWithUnique(b, t, u);
    }
    forall u | EndsWith(a, u) ensures u == t {
      EndsWithUnique(a, t, u);
    }
  }

  lemma SameEvents(a: seq<Json>, b: seq<Json>)
    requires multiset(a) == multiset(b)
    ensures |a| == |b| && forall e :: e in a <==> e in b
  {
    assert |a| == |multiset(a)| == |multiset(b)| == |b|;
    assert forall e :: e in a <==> e in multiset(a);
    assert forall e :: e in b <==> e in multiset(b);
  }

  lemma EndsWithReordered(a: seq<Json>, b: seq<Json>, t: Json)
    requires EndsWith(a, t) && forall e :: e in a <==> e in b
    ensures EndsWith(b, t)
  {
    hide OfType, Sequence;
  }

  lemma EndsWithUnique(a: seq<Json>, t: Json, u: Json)
    requires EndsWith(a, t) && EndsWith(a, u)
    ensures t == u
  {
    hide OfType, Sequence;
  }
}
