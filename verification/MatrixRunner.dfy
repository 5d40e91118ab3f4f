/**
 * The fenced matrix runner. The disk and the provider survive a crash; a run may stop at any
 * external step, by an exception or by dying on the spot. Files written in place may be left torn;
 * a launch fence is written in one durable step.
 */
module MatrixRunner {
  import opened Prelude
  import opened Identities

  const SCENARIOS := 16
  const MINIMUM_RUNS := 15
  /** The scenario whose probe repeats the claim-bound deletion. */
  const CLEANUP_REPLAY := 8

  datatype File<T> = Whole(content: T) | Torn

  datatype Plan = Plan(matrixId: string, commit: string)
  datatype Fence = Fence(matrixId: string, commit: string, ref: string, sourceSha256: string)
  datatype Input = Input(ref: string, version: int, packageSha256: string)
  datatype Receipt = Receipt(
    matrixId: string, commit: string, ordinal: nat, pass: bool, cleanupComplete: bool, input: Input, runRef: string)
  datatype Summary = Summary(matrixId: string, commit: string, pass: bool, runRefs: set<string>)

  datatype Status = Ok | Raised | Crashed

  /** What the provider was asked and what came back, over all runs. */
  datatype Event =
    | Asked(matrixId: string, m: Mutation)   // a mutating request was sent
    | Held(m: Mutation, ref: string)         // a claim was obtained, with the answered reference; `m` is the deletion it calls for
    | Acked(m: Mutation)                     // a deletion was acknowledged

  /** How often scenario `k` was pushed. */
  function Pushes(events: seq<Event>, k: nat): nat {
    if events == [] then 0
    else
      var last := events[|events| - 1];
      Pushes(events[..|events| - 1], k) + if last.Asked? && last.m == PushScenario(k) then 1 else 0
  }

  lemma PushesAppend(events: seq<Event>, e: Event, k: nat)
    ensures Pushes(events + [e], k) == Pushes(events, k) + if e.Asked? && e.m == PushScenario(k) then 1 else 0
  {
    assert (events + [e])[..|events|] == events;
  }

  /** Every claim obtained from `start` on, except those still owed, is followed by its deletion request. */
  ghost predicate Paid(events: seq<Event>, start: nat, owed: set<Mutation>) {
    forall i | start <= i < |events| && events[i].Held? && events[i].m !in owed :: AskedAfter(events, i, events[i].m)
  }

  ghost predicate AskedAfter(events: seq<Event>, i: nat, m: Mutation) {
    exists j | i < j < |events| :: events[j].Asked? && events[j].m == m
  }

  function StillOwed(owed: set<Mutation>, e: Event): set<Mutation> {
    match e
    case Asked(_, m) => owed - {m}
    case Held(m, _) => owed + {m}
    case Acked(_) => owed
  }

  lemma PaidAppend(events: seq<Event>, start: nat, owed: set<Mutation>, e: Event)
    requires Paid(events, start, owed)
    ensures Paid(events + [e], start, StillOwed(owed, e))
  {
    var more, rest := events + [e], StillOwed(owed, e);
    forall i | start <= i < |more| && more[i].Held? && more[i].m !in rest
      ensures AskedAfter(more, i, more[i].m)
    {
      var m := more[i].m;
      if m in owed {
        assert more[|events|].Asked? && more[|events|].m == m;
      } else {
        assert AskedAfter(events, i, m);
        var j :| i < j < |events| && events[j].Asked? && events[j].m == m;
        assert more[j] == events[j];
      }
    }
  }

  /** `now` continues `was`, and no scenario outside `allowed` was pushed in between. */
  ghost predicate OnlyPushes(was: seq<Event>, now: seq<Event>, allowed: set<nat>) {
    was <= now && forall k: nat | k !in allowed :: Pushes(now, k) == Pushes(was, k)
  }

  lemma OnlyPushesAppend(was: seq<Event>, now: seq<Event>, allowed: set<nat>, e: Event)
    requires OnlyPushes(was, now, allowed)
    requires e.Asked? && e.m.PushScenario? ==> e.m.ordinal in allowed
    ensures OnlyPushes(was, now + [e], allowed)
  {
    forall k: nat | k !in allowed ensures Pushes(now + [e], k) == Pushes(was, k) {
      PushesAppend(now, e, k);
    }
  }

  class Disk {
    var plan: Option<File<Plan>>
    var fences: map<nat, Fence>
    var receipts: map<nat, File<Receipt>>
    var summary: Option<File<Summary>>
    ghost var events: seq<Event>
    ghost var start: nat
    ghost var owed: set<Mutation>

    constructor ()
      ensures Valid() && events == [] && plan == None && fences == map[] && receipts == map[]
    {
      plan, fences, receipts, summary := None, map[], map[], None;
      events, start, owed := [], 0, {};
    }

    /** Holds at every moment, so also at every crash. */
    ghost predicate Valid() reads this {
      && (forall k: nat :: Pushes(events, k) <= 1 && (Pushes(events, k) > 0 ==> k in fences))
      && (forall k | k in receipts :: Acked(DeleteScenario(k)) in events)
      && (forall k | k in receipts && receipts[k].Whole? :: Held(DeleteScenario(k), receipts[k].content.runRef) in events)
      && (summary.Some? && summary.value.Whole? && summary.value.content.pass ==> |summary.value.content.runRefs| >= 15)
      && (forall e | e in events && e.Asked? :: plan.Some? && plan.value.Whole? && plan.value.content.matrixId == e.matrixId)
      && Paid(events, start, owed)
    }

    /** The plan in use is the one on disk. */
    ghost predicate Follows(p: Plan) reads this { plan == Some(Whole(p)) }

    /** A new process starts; what an earlier one owed is no longer its business. */
    ghost method Restart()
      requires Valid()
      modifies this`start, this`owed
      ensures Valid() && start == |events| && owed == {}
    {
      start, owed := |events|, {};
    }

    ghost method Record(e: Event)
      requires Valid()
      requires e.Asked? ==> plan.Some? && plan.value.Whole? && plan.value.content.matrixId == e.matrixId
      requires e.Asked? && e.m.PushScenario? ==> e.m.ordinal in fences && Pushes(events, e.m.ordinal) == 0
      modifies this`events, this`owed
      ensures Valid() && events == old(events) + [e] && owed == StillOwed(old(owed), e)
      ensures OnlyPushes(old(events), events, if e.Asked? && e.m.PushScenario? then {e.m.ordinal} else {})
    {
      OnlyPushesAppend(events, events, if e.Asked? && e.m.PushScenario? then {e.m.ordinal} else {}, e);
      forall k: nat ensures Pushes(events + [e], k) == Pushes(events, k) + if e.Asked? && e.m == PushScenario(k) then 1 else 0 {
        PushesAppend(events, e, k);
      }
      PaidAppend(events, start, owed, e);
      events, owed := events + [e], StillOwed(owed, e);
    }

    /** Writes the plan in place: a crash leaves nothing, a torn file or the whole plan. */
    method WritePlan(p: Plan) returns (s: Status)
      requires Valid() && plan == None
      modifies this`plan
      ensures Valid() && (s == Ok ==> Follows(p))
    {
      s := AnyStatus();
      var torn, whole := *, *;
      if s == Ok || whole {
        plan := Some(Whole(p));
      } else if torn {
        plan := Some(Torn);
      }
    }

    /** The durable fence: present whole or not at all; an existing one must be the same. */
    method PersistFence(k: nat, fence: Fence) returns (s: Status)
      requires Valid()
      modifies this`fences
      ensures Valid()
      ensures s == Ok ==> fences == old(fences)[k := fence]
      ensures s != Ok ==> fences == old(fences) || fences == old(fences)[k := fence]
      ensures k in old(fences) ==> fences == old(fences)
    {
      if k in fences {
        return if fences[k] == fence then Ok else Raised;
      }
      s := AnyStatus();
      var replaced := *;
      if s == Ok || replaced {
        fences := fences[k := fence];
      }
    }

    method WriteReceipt(k: nat, r: Receipt) returns (s: Status)
      requires Valid() && Acked(DeleteScenario(k)) in events && Held(DeleteScenario(k), r.runRef) in events
      modifies this`receipts
      ensures Valid()
      ensures s == Ok ==> receipts == old(receipts)[k := Whole(r)]
      ensures forall j | j != k :: j in receipts <==> j in old(receipts)
      ensures forall j | j in old(receipts) && j != k :: receipts[j] == old(receipts[j])
    {
      s := AnyStatus();
      var torn, whole := *, *;
      if s == Ok || whole {
        receipts := receipts[k := Whole(r)];
      } else if torn {
        receipts := receipts[k := Torn];
      }
    }

    method WriteSummary(m: Summary) returns (s: Status)
      requires Valid() && (m.pass ==> |m.runRefs| >= 15)
      modifies this`summary
      ensures Valid() && (s == Ok ==> summary == Some(Whole(m)))
    {
      s := AnyStatus();
      var torn, whole := *, *;
      if s == Ok || whole {
        summary := Some(Whole(m));
      } else if torn {
        summary := Some(Torn);
      }
    }

    /** Asks whether the exact run already exists; a run that is found comes with its claim. */
    method Reconcile(k: nat) returns (s: Status, run: Option<string>)
      requires Valid()
      modifies this`events, this`owed
      ensures Valid()
      ensures s == Ok && run.Some? ==> events == old(events) + [Held(DeleteScenario(k), run.value)] && owed == old(owed) + {DeleteScenario(k)}
      ensures !(s == Ok && run.Some?) ==> events == old(events) && owed == old(owed)
      ensures s != Ok ==> run.None?
      ensures OnlyPushes(old(events), events, {})
    {
      s := AnyStatus();
      run := None;
      var found := *;
      if s == Ok && found {
        var ref: string := *;
        run := Some(ref);
        Record(Held(DeleteScenario(k), ref));
      }
    }

    /** Launches the run; the answer may be lost after the launch. */
    method Push(p: Plan, k: nat) returns (s: Status, run: Option<string>)
      requires Valid() && Follows(p) && k in fences && Pushes(events, k) == 0
      modifies this`events, this`owed
      ensures Valid()
      ensures run.Some? <==> s == Ok
      ensures s == Ok ==> events == old(events) + [Asked(p.matrixId, PushScenario(k)), Held(DeleteScenario(k), run.value)]
      ensures s == Ok ==> owed == old(owed) - {PushScenario(k)} + {DeleteScenario(k)}
      ensures s != Ok ==> events == old(events) + [Asked(p.matrixId, PushScenario(k))] && owed == old(owed) - {PushScenario(k)}
      ensures OnlyPushes(old(events), events, {k})
    {
      hide Pushes, Paid, OnlyPushes;
      Record(Asked(p.matrixId, PushScenario(k)));
      s := AnyStatus();
      run := None;
      if s == Ok {
        var ref: string := *;
        run := Some(ref);
        ghost var asked := events;
        Record(Held(DeleteScenario(k), ref));
        OnlyPushesOneMore(old(events), asked, events, {}, {k});
      }
    }

    method CreateDataset(p: Plan) returns (s: Status, input: Input)
      requires Valid() && Follows(p)
      modifies this`events, this`owed
      ensures Valid()
      ensures s == Ok ==> events == old(events) + [Asked(p.matrixId, CreateInput), Held(DeleteInput, input.ref)]
      ensures s == Ok ==> owed == old(owed) - {CreateInput} + {DeleteInput}
      ensures s != Ok ==> events == old(events) + [Asked(p.matrixId, CreateInput)] && owed == old(owed) - {CreateInput}
      ensures OnlyPushes(old(events), events, {})
    {
      Record(Asked(p.matrixId, CreateInput));
      s := AnyStatus();
      input := *;
      if s == Ok {
        Record(Held(DeleteInput, input.ref));
      }
    }

    /** A claim-bound deletion; only an answer counts as an acknowledgement. */
    method Delete(p: Plan, m: Mutation) returns (s: Status)
      requires Valid() && Follows(p) && (m.DeleteScenario? || m.ReplayDelete? || m.DeleteInput?)
      modifies this`events, this`owed
      ensures Valid() && owed == old(owed) - {m}
      ensures events == old(events) + [Asked(p.matrixId, m)] + if s == Ok then [Acked(m)] else []
      ensures OnlyPushes(old(events), events, {})
    {
      Record(Asked(p.matrixId, m));
      s := AnyStatus();
      if s == Ok {
        Record(Acked(m));
      }
    }
  }

  /** How any external step may end. */
  method AnyStatus() returns (s: Status) {
    var raised, crashed := *, *;
    s := if crashed then Crashed else if raised then Raised else Ok;
  }

  /** Obtains the exact run: the one that exists, or a first launch behind a new fence. */
  method ObtainRun(d: Disk, p: Plan, k: nat, fence: Fence) returns (s: Status, run: Option<string>)
    requires d.Valid() && d.Follows(p)
    modifies d`fences, d`events, d`owed
    ensures d.Valid()
    ensures run.Some? <==> s == Ok
    ensures d.owed <= old(d.owed) + if s == Ok then {DeleteScenario(k)} else {}
    ensures old(d.fences).Keys <= d.fences.Keys <= old(d.fences).Keys + {k}
    ensures OnlyPushes(old(d.events), d.events, {k} - old(d.fences).Keys)
    // behind an existing fence only an existing run is used; otherwise it is an error, never a launch
    ensures k in old(d.fences) && s == Ok ==> d.events == old(d.events) + [Held(DeleteScenario(k), run.value)]
    ensures k in old(d.fences) && s != Ok ==> d.events == old(d.events)
    // the run is the one the provider answered with
    ensures s == Ok ==> |d.events| > |old(d.events)| && d.events[|d.events| - 1] == Held(DeleteScenario(k), run.value)
  {
    s, run := d.Reconcile(k);
    if s != Ok || run.Some? {
      return;
    }
    if k in d.fences {
      // the fence is compared only to choose the message; both ways end in an error
      var compared := d.PersistFence(k, fence);
      return if compared == Crashed then Crashed else Raised, None;
    }
    s := d.PersistFence(k, fence);
    if s != Ok {
      return s, None;
    }
    s, run := d.Push(p, k);
  }

  /** One scenario: obtain, observe, always delete what was obtained, and only then write the receipt. */
  method RunScenario(d: Disk, p: Plan, k: nat, input: Input) returns (s: Status, receipt: Receipt)
    requires d.Valid() && d.Follows(p) && k !in d.receipts
    modifies d`fences, d`events, d`owed, d`receipts
    ensures d.Valid()
    ensures s != Crashed ==> d.owed <= old(d.owed)
    ensures s == Ok ==> receipt == Receipt(p.matrixId, p.commit, k, true, true, input, receipt.runRef)
    ensures s == Ok ==> d.receipts == old(d.receipts)[k := Whole(receipt)]
    // the receipt names the run the provider answered with in this process
    ensures s == Ok ==> old(d.events) <= d.events && Held(DeleteScenario(k), receipt.runRef) in d.events[|old(d.events)|..]
    ensures d.receipts.Keys <= old(d.receipts).Keys + {k}
    ensures old(d.fences).Keys <= d.fences.Keys
    ensures OnlyPushes(old(d.events), d.events, {k} - old(d.fences).Keys)
  {
    hide Pushes, Paid, OnlyPushes;
    receipt := *;
    var ref: string, source: string := *, *;
    var run;
    s, run := ObtainRun(d, p, k, Fence(p.matrixId, p.commit, ref, source));
    ghost var allowed, was := {k} - old(d.fences).Keys, d.events;
    if s == Crashed {
      return;
    }
    var observed := s;
    if s == Ok {
      observed := AnyStatus();  // poll, download, validate, probe and compare
      if observed == Crashed {
        return Crashed, receipt;
      }
      var deleted := d.Delete(p, DeleteScenario(k));
      OnlyPushesOneMore(old(d.events), was, d.events, {}, allowed);
      if deleted != Ok {
        return deleted, receipt;
      }
    }
    if observed != Ok {
      return Raised, receipt;
    }
    if k == CLEANUP_REPLAY {
      was := d.events;
      var replayed := d.Delete(p, ReplayDelete(k));
      OnlyPushesOneMore(old(d.events), was, d.events, {}, allowed);
      if replayed != Ok {
        return replayed, receipt;
      }
    }
    receipt := Receipt(p.matrixId, p.commit, k, true, true, input, run.value);
    s := d.WriteReceipt(k, receipt);
  }

  function Ordinals(): set<nat> { {1, 2, 3, 4, 5, 6, 7, 8, 9, 10, 11, 12, 13, 14, 15, 16} }

  lemma OrdinalIn(k: nat)
    requires 1 <= k <= SCENARIOS
    ensures k in Ordinals()
  {
  }

  /** The receipt fields that must be exact; the file name carries the ordinal. */
  predicate ExactPass(r: Receipt, p: Plan, k: nat) {
    r.matrixId == p.matrixId && r.commit == p.commit && r.ordinal == k && r.pass && r.cleanupComplete
  }

  /** Scenarios below `n` each have an exact PASS receipt on disk. */
  ghost predicate PassedBelow(receipts: map<nat, File<Receipt>>, p: Plan, n: nat) {
    forall k: nat | 1 <= k < n :: k in receipts && receipts[k].Whole? && ExactPass(receipts[k].content, p, k)
  }

  ghost predicate AllPassed(receipts: map<nat, File<Receipt>>, p: Plan) { PassedBelow(receipts, p, SCENARIOS + 1) }

  /** The provider runs named by the whole receipts below `n`. */
  function RefsOnDisk(receipts: map<nat, File<Receipt>>, n: nat): set<string> {
    set k: nat | 1 <= k < n && k in receipts && receipts[k].Whole? :: receipts[k].content.runRef
  }

  /** The listed receipts are those on disk, in order. */
  ghost predicate OnDisk(receipts: map<nat, File<Receipt>>, done: seq<Receipt>) {
    forall i | 0 <= i < |done| :: i + 1 in receipts && receipts[i + 1] == Whole(done[i])
  }

  lemma NothingDone(receipts: map<nat, File<Receipt>>, p: Plan)
    ensures OnDisk(receipts, []) && PassedBelow(receipts, p, 1)
  {
  }

  /** A receipt written for the next scenario extends what is done and what has passed. */
  lemma OneMoreDone(receipts: map<nat, File<Receipt>>, p: Plan, done: seq<Receipt>, r: Receipt)
    requires OnDisk(receipts, done) && PassedBelow(receipts, p, |done| + 1) && ExactPass(r, p, |done| + 1)
    ensures OnDisk(receipts[|done| + 1 := Whole(r)], done + [r])
    ensures PassedBelow(receipts[|done| + 1 := Whole(r)], p, |done| + 2)
  {
  }

  /** Listed receipts and receipts on disk name the same runs. */
  lemma SameRefs(receipts: map<nat, File<Receipt>>, done: seq<Receipt>)
    requires OnDisk(receipts, done) && |done| == SCENARIOS
    ensures RunRefs(done) == RefsOnDisk(receipts, SCENARIOS + 1)
  {
    forall ref ensures ref in RunRefs(done) <==> ref in RefsOnDisk(receipts, SCENARIOS + 1) {
      if ref in RunRefs(done) {
        var i :| 0 <= i < |done| && done[i].runRef == ref;
        var k: nat := i + 1;
        assert receipts[k].content.runRef == ref;
      }
      if ref in RefsOnDisk(receipts, SCENARIOS + 1) {
        var k: nat :| 1 <= k < SCENARIOS + 1 && k in receipts && receipts[k].Whole? && receipts[k].content.runRef == ref;
        assert receipts[(k - 1) + 1] == Whole(done[k - 1]);
        assert done[k - 1] in done;
      }
    }
  }

  /** The scenario loop: an exact PASS receipt is reused, any other receipt is an error, else the scenario runs. */
  method RunScenarios(d: Disk, p: Plan, input: Input) returns (s: Status, done: seq<Receipt>)
    requires d.Valid() && d.Follows(p)
    modifies d`fences, d`events, d`owed, d`receipts
    ensures d.Valid()
    ensures s != Crashed ==> d.owed <= old(d.owed)
    ensures OnlyPushes(old(d.events), d.events, Ordinals() - old(d.fences).Keys - old(d.receipts).Keys)
    ensures s == Ok ==> |done| == SCENARIOS && AllPassed(d.receipts, p)
    ensures s == Ok ==> forall i | 0 <= i < SCENARIOS :: done[i].ordinal == i + 1 && done[i].input == input
    ensures s == Ok ==> OnDisk(d.receipts, done)
  {
    hide Ordinals, Pushes, Paid, OnlyPushes, PassedBelow, OnDisk;
    done := [];
    var k := 1;
    OnlyPushesSelf(d.events, Ordinals() - old(d.fences).Keys - old(d.receipts).Keys);
    NothingDone(d.receipts, p);
    while k <= SCENARIOS
      invariant 1 <= k <= SCENARIOS + 1 && |done| == k - 1
      invariant d.Valid() && d.owed <= old(d.owed)
      invariant old(d.fences).Keys <= d.fences.Keys
      invariant forall j: nat | j >= k :: j in d.receipts ==> j in old(d.receipts)
      invariant forall j: nat | j >= k :: j in old(d.receipts) ==> j in d.receipts
      invariant OnlyPushes(old(d.events), d.events, Ordinals() - old(d.fences).Keys - old(d.receipts).Keys)
      invariant PassedBelow(d.receipts, p, k)
      invariant forall i | 0 <= i < |done| :: done[i].ordinal == i + 1 && done[i].input == input
      invariant OnDisk(d.receipts, done)
    {
      OrdinalIn(k);
      if k in d.receipts {
        var file := d.receipts[k];
        if file.Torn? || !ExactPass(file.content, p, k) || file.content.input != input {
          return Raised, done;
        }
        assert d.receipts[k := file] == d.receipts;
        OneMoreDone(d.receipts, p, done, file.content);
        done := done + [file.content];
      } else {
        var receipt;
        ghost var was, fenced, files := d.events, d.fences.Keys, d.receipts;
        s, receipt := RunScenario(d, p, k, input);
        OnlyPushesOneMore(old(d.events), was, d.events, {k} - fenced, Ordinals() - old(d.fences).Keys - old(d.receipts).Keys);
        if s != Ok {
          return;
        }
        OneMoreDone(files, p, done, receipt);
        done := done + [receipt];
      }
      k := k + 1;
    }
    s := Ok;
  }

  lemma OnlyPushesOneMore(a: seq<Event>, b: seq<Event>, c: seq<Event>, small: set<nat>, allowed: set<nat>)
    requires OnlyPushes(a, b, allowed) && OnlyPushes(b, c, small) && small <= allowed
    ensures OnlyPushes(a, c, allowed)
  {
  }

  /** The plan on disk when it is the asked one, or a new plan written before any provider request. */
  method LoadOrCreatePlan(d: Disk, matrixId: Option<string>, commit: string) returns (s: Status, p: Plan)
    requires d.Valid()
    modifies d`plan
    ensures d.Valid()
    ensures s == Ok ==> d.Follows(p) && p.commit == commit && (matrixId.Some? ==> p.matrixId == matrixId.value)
    ensures old(d.plan).Some? ==> d.plan == old(d.plan)
    ensures forall q | old(d.plan) == Some(Whole(q)) && AskedFor(q, matrixId, commit) :: s == Ok && p == q
  {
    p := *;
    if d.plan.Some? {
      if d.plan.value.Torn? {
        return Raised, p;
      }
      p := d.plan.value.content;
      s := if p.commit == commit && (matrixId == None || matrixId == Some(p.matrixId)) then Ok else Raised;
      return;
    }
    if !LowerHex(commit, 40) {
      return Raised, p;
    }
    var random: string := *;
    p := Plan(if matrixId.Some? then matrixId.value else random, commit);
    s := d.WritePlan(p);
  }

  datatype Precheck = Continue | Stop(Status)

  /** An earlier summary is accepted only together with every exact receipt; nothing is changed. */
  method CheckSummary(d: Disk, p: Plan) returns (r: Precheck)
    ensures r == Stop(Ok) <==>
            && AllPassed(d.receipts, p)
            && d.summary == Some(Whole(Summary(p.matrixId, p.commit, true, RefsOnDisk(d.receipts, SCENARIOS + 1))))
    // any other summary beside a full set of receipts is an error
    ensures AllPassed(d.receipts, p) && d.summary.Some? && r != Stop(Ok) ==> r == Stop(Raised)
  {
    if d.summary.None? {
      return Continue;
    }
    if d.summary.value.Torn? {
      return Stop(Raised);
    }
    var refs: set<string> := {};
    for k := 1 to SCENARIOS + 1
      invariant PassedBelow(d.receipts, p, k) && refs == RefsOnDisk(d.receipts, k)
    {
      if k !in d.receipts {
        return Continue;
      }
      if d.receipts[k].Torn? || !ExactPass(d.receipts[k].content, p, k) {
        return Stop(Raised);
      }
      refs := refs + {d.receipts[k].content.runRef};
    }
    var m := d.summary.value.content;
    r := Stop(if m == Summary(p.matrixId, p.commit, true, refs) then Ok else Raised);
  }

  datatype Outcome = Blocked | Incomplete | Failed | Died

  function RunRefs(done: seq<Receipt>): set<string> { set r | r in done :: r.runRef }

  /** The exit codes: a full smoke pass is still reported as blocked, anything less as a failure. */
  function Verdict(done: seq<Receipt>): Outcome {
    if |done| >= MINIMUM_RUNS && |RunRefs(done)| >= MINIMUM_RUNS then Blocked else Incomplete
  }

  /** Creates the input, runs the scenarios and always deletes the input it obtained. */
  method RunWithInput(d: Disk, p: Plan) returns (s: Status, done: seq<Receipt>)
    requires d.Valid() && d.Follows(p) && d.owed == {}
    modifies d`fences, d`events, d`owed, d`receipts
    ensures d.Valid()
    ensures s != Crashed ==> d.owed == {}
    ensures OnlyPushes(old(d.events), d.events, Ordinals() - old(d.fences).Keys - old(d.receipts).Keys)
    ensures s == Ok ==> |done| == SCENARIOS && AllPassed(d.receipts, p) && OnDisk(d.receipts, done)
    ensures s == Ok ==> Acked(DeleteInput) in d.events
  {
    hide Ordinals, Pushes, Paid, AllPassed, OnDisk;
    done := [];
    var input;
    s, input := d.CreateDataset(p);
    assert s != Ok ==> d.owed == {};
    if s != Ok {
      return;
    }
    s := AnyStatus();  // the privacy proof
    if s == Ok {
      s, done := RunScenarios(d, p, input);
    }
    if s == Crashed {
      return;
    }
    var deleted := d.Delete(p, DeleteInput);
    assert d.owed == {};
    if deleted != Ok {
      s := deleted;
    }
  }

  /** The plan is the one asked for. */
  predicate AskedFor(p: Plan, matrixId: Option<string>, commit: string) {
    p.commit == commit && (matrixId.Some? ==> p.matrixId == matrixId.value)
  }

  /** Every scenario of the plan has its receipt, and the summary names the plan, the verdict and exactly their runs. */
  ghost predicate Finished(
    plan: Option<File<Plan>>, receipts: map<nat, File<Receipt>>, summary: Option<File<Summary>>, p: Plan, pass: bool)
  {
    && plan == Some(Whole(p)) && AllPassed(receipts, p)
    && summary == Some(Whole(Summary(p.matrixId, p.commit, pass, RefsOnDisk(receipts, 17))))
  }

  /** One process: load the plan, create the input, run the scenarios, always delete the input, summarise. */
  method RunMatrix(d: Disk, matrixId: Option<string>, commit: string) returns (o: Outcome)
    requires d.Valid()
    modifies d
    ensures d.Valid()
    // a fenced or receipted scenario is never pushed, and the earlier history stands
    ensures OnlyPushes(old(d.events), d.events, Ordinals() - old(d.fences).Keys - old(d.receipts).Keys)
    // unless the process died, every claim it obtained was asked to be deleted
    ensures o != Died ==> Paid(d.events, |old(d.events)|, {})
    // a plan that has been used stays in use
    ensures old(d.plan).Some? ==> d.plan == old(d.plan)
    // a finished process leaves an exact receipt for every scenario and a summary with the verdict and exactly their runs
    ensures o == Blocked || o == Incomplete ==>
      exists p :: AskedFor(p, matrixId, commit) && Finished(d.plan, d.receipts, d.summary, p, o == Blocked)
    // the verdict counts the runs that the receipts name
    ensures o == Blocked ==> |RefsOnDisk(d.receipts, 17)| >= 15
    ensures o == Incomplete ==> |RefsOnDisk(d.receipts, 17)| < 15
    // after a passing matrix a process asks for nothing and says so again; after a failing one it can only raise
    ensures forall p, pass | Finished(old(d.plan), old(d.receipts), old(d.summary), p, pass) && AskedFor(p, matrixId, commit) ::
      && o == (if pass then Blocked else Failed) && d.events == old(d.events)
      && d.receipts == old(d.receipts) && d.fences == old(d.fences) && d.summary == old(d.summary)
  {
    hide Ordinals, Pushes, Paid, AllPassed, RefsOnDisk, OnDisk, OnlyPushes;
    OnlyPushesSelf(d.events, Ordinals() - d.fences.Keys - d.receipts.Keys);
    d.Restart();
    var s, p := LoadOrCreatePlan(d, matrixId, commit);
    if s != Ok {
      return if s == Crashed then Died else Failed;
    }
    var checked := CheckSummary(d, p);
    if checked.Stop? {
      assert checked == Stop(Ok) ==> AskedFor(p, matrixId, commit) && Finished(d.plan, d.receipts, d.summary, p, true);
      return if checked == Stop(Ok) then Blocked else Failed;
    }
    s := AnyStatus();  // directories, ledger, adapter identity, wheel
    if s != Ok {
      return if s == Crashed then Died else Failed;
    }
    var done;
    s, done := RunWithInput(d, p);
    if s != Ok {
      return if s == Crashed then Died else Failed;
    }
    o := Summarise(d, p, done);
    assert AskedFor(p, matrixId, commit);
  }

  /** The verdict over the listed receipts, and the summary that holds it. */
  method Summarise(d: Disk, p: Plan, done: seq<Receipt>) returns (o: Outcome)
    requires d.Valid() && d.Follows(p) && AllPassed(d.receipts, p) && |done| == SCENARIOS && OnDisk(d.receipts, done)
    modifies d`summary
    ensures d.Valid()
    ensures o == Blocked || o == Incomplete ==> Finished(d.plan, d.receipts, d.summary, p, o == Blocked)
    ensures o == Blocked ==> |RefsOnDisk(d.receipts, 17)| >= 15
    ensures o == Incomplete ==> |RefsOnDisk(d.receipts, 17)| < 15
  {
    hide Pushes, Paid, AllPassed, RefsOnDisk, OnDisk;
    SameRefs(d.receipts, done);
    o := Verdict(done);
    var s := d.WriteSummary(Summary(p.matrixId, p.commit, o == Blocked, RunRefs(done)));
    if s != Ok {
      return if s == Crashed then Died else Failed;
    }
  }

  /** After a passing process, any number of processes for the same plan ask the provider for nothing and all say so again. */
  method RunAgain(d: Disk, matrixId: Option<string>, commit: string, later: nat)
    returns (o: Outcome, outcomes: seq<Outcome>, ghost asked: seq<Event>)
    requires d.Valid()
    modifies d
    ensures d.Valid()
    ensures o == Blocked ==> |outcomes| == later && d.events == asked
    ensures forall i | 0 <= i < |outcomes| :: outcomes[i] == Blocked
    ensures o != Blocked ==> outcomes == []
  {
    hide Finished, OnlyPushes, Paid, Pushes, RefsOnDisk;
    outcomes := [];
    o := RunMatrix(d, matrixId, commit);
    asked := d.events;
    if o != Blocked {
      return;
    }
    ghost var p :| AskedFor(p, matrixId, commit) && Finished(d.plan, d.receipts, d.summary, p, true);
    assert d.plan.Some? by { FinishedPlan(d.plan, d.receipts, d.summary, p); }
    while |outcomes| < later
      invariant d.Valid() && d.plan.Some? && Finished(d.plan, d.receipts, d.summary, p, true)
      invariant d.events == asked && |outcomes| <= later
      invariant forall i | 0 <= i < |outcomes| :: outcomes[i] == Blocked
    {
      var again := RunMatrix(d, matrixId, commit);
      outcomes := outcomes + [again];
    }
  }

  lemma FinishedPlan(
    plan: Option<File<Plan>>, receipts: map<nat, File<Receipt>>, summary: Option<File<Summary>>, p: Plan)
    requires Finished(plan, receipts, summary, p, true)
    ensures plan.Some?
  {
  }

  lemma OnlyPushesSelf(events: seq<Event>, allowed: set<nat>)
    ensures OnlyPushes(events, events, allowed)
  {
  }

  datatype Invocation = Invocation(matrixId: Option<string>, commit: string)

  /** Any number of processes one after the other, each dying or failing anywhere. */
  method RunAll(d: Disk, calls: seq<Invocation>) returns (outcomes: seq<Outcome>)
    requires d.Valid() && d.events == [] && d.receipts == map[]
    modifies d
    ensures d.Valid() && |outcomes| == |calls|
    // at most one push per scenario, and only behind its durable fence
    ensures forall k: nat :: Pushes(d.events, k) <= 1 && (Pushes(d.events, k) > 0 ==> k in d.fences && k in Ordinals())
    // a receipt means the deletion of that run was acknowledged
    ensures forall k | k in d.receipts :: Acked(DeleteScenario(k)) in d.events
    // one matrix identity throughout
    ensures forall a, b | a in d.events && b in d.events && a.Asked? && b.Asked? :: a.matrixId == b.matrixId
  {
    outcomes := [];
    for i := 0 to |calls|
      invariant d.Valid() && |outcomes| == i
      invariant OnlyPushes([], d.events, Ordinals())
    {
      var o := RunMatrix(d, calls[i].matrixId, calls[i].commit);
      outcomes := outcomes + [o];
    }
  }

  /** Over all runs the effects asked of the provider are the same whenever the mutation is the same, and only then. */
  lemma EffectsFollowMutations(uuid5: string -> string, d: Disk, a: Event, b: Event, k: Kind)
    requires Injective(uuid5) && d.Valid()
    requires a in d.events && b in d.events && a.Asked? && b.Asked? && ':' !in a.matrixId
    ensures EffectId(uuid5, a.matrixId, a.m, k) == EffectId(uuid5, b.matrixId, b.m, k) <==> a.m == b.m
  {
    assert a.matrixId == b.matrixId;
    if EffectId(uuid5, a.matrixId, a.m, k) == EffectId(uuid5, b.matrixId, b.m, k) {
      EffectIdsDistinct(uuid5, a.matrixId, b.matrixId, a.m, b.m, k, k);
    }
  }
}
