/**
 * The broker canary: a run of fallible provider steps, followed on every path by the deletion of
 * exactly the claims it registered, with an append-only event log.
 */
module BrokerCanary {
  import opened Prelude
  import opened Identities
  import opened Inventory

  datatype Phase =
    | Planned | BlobGranted | ProducerLaunched | BlobUploaded | DatasetFinalized | VerifierLaunched | Verified
    | CleanupStarted | CleanupFinished | Complete

  const FULL_RUN := [ Planned, BlobGranted, ProducerLaunched, BlobUploaded, DatasetFinalized, VerifierLaunched, Verified,
                      CleanupStarted, CleanupFinished, Complete ]

  datatype Event = Event(sequence: nat, phase: Phase)

  /** An exception, told apart by a number. */
  datatype Error = Error(id: int)

  datatype Claim = Claim(identity: string, ref: string)

  ghost predicate Numbered(events: seq<Event>) { forall i | 0 <= i < |events| :: events[i].sequence == i + 1 }

  function Phases(events: seq<Event>): seq<Phase> { seq(|events|, i requires 0 <= i < |events| => events[i].phase) }

  /** `done` holds every claim once, newest first. */
  ghost predicate NewestFirst(done: seq<Claim>, claims: seq<Claim>) {
    |done| == |claims| && forall k | 0 <= k < |claims| :: done[k] == claims[|claims| - 1 - k]
  }

  function Refs(claims: seq<Claim>): seq<string> { seq(|claims|, i requires 0 <= i < |claims| => claims[i].ref) }

  function IdentitiesOf(claims: seq<Claim>): seq<string> { seq(|claims|, i requires 0 <= i < |claims| => claims[i].identity) }

  const ALL_CLAIMS := ["producer", "dataset", "verifier"]

  // ------------------------------------------------------------------ names

  function DatasetRef(owner: string, suffix: string): string { owner + "/mdh-broker-canary-" + suffix }
  function ProducerRef(owner: string, suffix: string): string { owner + "/mdh-broker-producer-" + suffix }
  function VerifierRef(owner: string, suffix: string): string { owner + "/mdh-broker-verifier-" + suffix }

  lemma RefsDistinct(owner: string, suffix: string)
    ensures DatasetRef(owner, suffix) != ProducerRef(owner, suffix)
    ensures DatasetRef(owner, suffix) != VerifierRef(owner, suffix)
    ensures ProducerRef(owner, suffix) != VerifierRef(owner, suffix)
  {
    var k := |owner| + |"/mdh-broker-"|;
    assert DatasetRef(owner, suffix)[k] == 'c';
    assert ProducerRef(owner, suffix)[k] == 'p';
    assert VerifierRef(owner, suffix)[k] == 'v';
  }

  // ------------------------------------------------------------- the state

  class Canary {
    const owner: string
    const suffix: string
    const live: bool
    /** The event log in memory, and what its file holds. */
    var events: seq<Event>
    var file: seq<Event>
    /** Registered claims, oldest first. */
    var claims: seq<Claim>
    var finalized: bool
    /** Every deletion sent to the provider and every error raised, in order. */
    ghost var deleted: seq<Claim>
    ghost var errors: seq<Error>

    constructor (owner: string, suffix: string, live: bool)
      ensures events == [] && claims == [] && !finalized && deleted == [] && errors == []
      ensures this.owner == owner && this.suffix == suffix && this.live == live
    {
      this.owner, this.suffix, this.live := owner, suffix, live;
      events, file, claims, finalized, deleted, errors := [], [], [], false, [], [];
    }

    /** A step that may raise; whatever is raised is recorded. */
    method Fallible() returns (e: Option<Error>)
      modifies this`errors
      ensures errors == old(errors) + if e.Some? then [e.value] else []
    {
      var raised, id: int := *, *;
      e := None;
      if raised {
        e := Some(Error(id));
        errors := errors + [Error(id)];
      }
    }

    /** A secret-bearing record is refused before it is added; a write that raises replaced the file whole or not at all. */
    method Append(phase: Phase) returns (e: Option<Error>)
      modifies this`events, this`file, this`errors
      ensures errors == old(errors) + if e.Some? then [e.value] else []
      ensures e.None? ==> events == old(events) + [Event(|old(events)| + 1, phase)] && file == events
      ensures e.Some? ==> file == old(file) || file == events
      ensures e.Some? ==> events == old(events) || events == old(events) + [Event(|old(events)| + 1, phase)]
    {
      e := Fallible();
      if e.Some? {
        return;
      }
      events := events + [Event(|events| + 1, phase)];
      e := Fallible();  // encoding and writing the temporary file
      if e.Some? {
        return;
      }
      file := events;
      e := Fallible();  // after the replacement
    }

    /** A provider step that registers a claim when it returns. */
    method Register(identity: string, ref: Option<string>) returns (e: Option<Error>)
      modifies this`claims, this`errors
      ensures errors == old(errors) + if e.Some? then [e.value] else []
      ensures e.Some? ==> claims == old(claims)
      ensures e.None? ==> |claims| == |old(claims)| + 1 && claims[..|old(claims)|] == old(claims)
      ensures e.None? ==> claims[|old(claims)|].identity == identity && (ref.Some? ==> claims[|old(claims)|].ref == ref.value)
    {
      e := Fallible();
      if e.None? {
        var answered: string := *;
        claims := claims + [Claim(identity, if ref.Some? then ref.value else answered)];
      }
    }
  }

  // ---------------------------------------------------------------- the run

  /** All events so far are in order and on disk, and nothing has gone wrong. */
  ghost predicate OnTrack(c: Canary, phases: seq<Phase>, claimed: nat)
    reads c
  {
    && c.errors == [] && Numbered(c.events) && Phases(c.events) == phases
    && claimed <= 3 && IdentitiesOf(c.claims) == ALL_CLAIMS[..claimed] && (c.finalized ==> claimed >= 1)
    && (claimed >= 2 ==> c.finalized && c.claims[1].ref == DatasetRef(c.owner, c.suffix))
  }

  /** Stopped by its first error, with at most `claimed` claims registered. */
  ghost predicate Stopped(c: Canary, e: Error, claimed: nat)
    reads c
  {
    && c.errors == [e] && Numbered(c.events)
    && claimed <= 3 && |c.claims| <= claimed && IdentitiesOf(c.claims) == ALL_CLAIMS[..|c.claims|]
    && (c.finalized ==> |c.claims| >= 1)
    && (|c.claims| >= 2 ==> c.finalized && c.claims[1].ref == DatasetRef(c.owner, c.suffix))
  }

  lemma AppendedPhase(was: seq<Event>, phase: Phase)
    requires Numbered(was)
    ensures Numbered(was + [Event(|was| + 1, phase)])
    ensures Phases(was + [Event(|was| + 1, phase)]) == Phases(was) + [phase]
  {
  }

  /** Appends a phase and keeps the run on track. */
  method Log(c: Canary, phase: Phase, ghost phases: seq<Phase>, ghost claimed: nat) returns (e: Option<Error>)
    requires OnTrack(c, phases, claimed)
    modifies c`events, c`file, c`errors
    ensures e.None? ==> OnTrack(c, phases + [phase], claimed) && c.file == c.events
    ensures e.Some? ==> Stopped(c, e.value, claimed)
  {
    AppendedPhase(c.events, phase);
    e := c.Append(phase);
  }

  method TryStep(c: Canary, ghost phases: seq<Phase>, ghost claimed: nat) returns (e: Option<Error>)
    requires OnTrack(c, phases, claimed)
    modifies c`errors
    ensures e.None? ==> OnTrack(c, phases, claimed)
    ensures e.Some? ==> Stopped(c, e.value, claimed)
  {
    e := c.Fallible();
  }

  /** Registers the next claim: producer, dataset, verifier. */
  method RegisterNext(c: Canary, ref: Option<string>, ghost phases: seq<Phase>, ghost claimed: nat) returns (e: Option<Error>)
    requires claimed < 3 && OnTrack(c, phases, claimed)
    requires claimed == 1 ==> c.finalized && ref == Some(DatasetRef(c.owner, c.suffix))
    modifies c`claims, c`errors
    ensures e.None? ==> OnTrack(c, phases, claimed + 1)
    ensures e.Some? ==> Stopped(c, e.value, claimed)
  {
    assert |IdentitiesOf(c.claims)| == claimed;
    e := c.Register(ALL_CLAIMS[|c.claims|], ref);
    if e.None? {
      assert IdentitiesOf(c.claims) == ALL_CLAIMS[..claimed] + [ALL_CLAIMS[claimed]] == ALL_CLAIMS[..claimed + 1];
    }
  }

  /** Grant, producer run and direct upload. */
  method Produce(c: Canary) returns (e: Option<Error>)
    requires OnTrack(c, FULL_RUN[..1], 0)
    modifies c`events, c`file, c`errors, c`claims
    ensures e.None? ==> OnTrack(c, FULL_RUN[..4], 1)
    ensures e.Some? ==> Stopped(c, e.value, |c.claims|)
  {
    hide OnTrack, Numbered;
    e := TryStep(c, FULL_RUN[..1], 0);
    if e.Some? { return; }
    e := Log(c, BlobGranted, FULL_RUN[..1], 0);
    if e.Some? { return; }
    assert FULL_RUN[..1] + [BlobGranted] == FULL_RUN[..2];
    e := RegisterNext(c, None, FULL_RUN[..2], 0);
    if e.Some? { return; }
    e := Log(c, ProducerLaunched, FULL_RUN[..2], 1);
    if e.Some? { return; }
    assert FULL_RUN[..2] + [ProducerLaunched] == FULL_RUN[..3];
    e := TryStep(c, FULL_RUN[..3], 1);  // poll, read and compare the producer result
    if e.Some? { return; }
    e := Log(c, BlobUploaded, FULL_RUN[..3], 1);
    assert FULL_RUN[..3] + [BlobUploaded] == FULL_RUN[..4];
  }

  /** Central finalisation and the claim on the exact dataset version. */
  method Finalize(c: Canary) returns (e: Option<Error>)
    requires OnTrack(c, FULL_RUN[..4], 1)
    modifies c`events, c`file, c`errors, c`claims, c`finalized
    ensures e.None? ==> OnTrack(c, FULL_RUN[..5], 2)
    ensures e.Some? ==> Stopped(c, e.value, |c.claims|)
  {
    hide Numbered, DatasetRef;
    e := TryStep(c, FULL_RUN[..4], 1);
    if e.Some? { return; }
    c.finalized := true;
    e := TryStep(c, FULL_RUN[..4], 1);  // version 1, reconciled with the expected files
    if e.Some? { return; }
    e := RegisterNext(c, Some(DatasetRef(c.owner, c.suffix)), FULL_RUN[..4], 1);
    if e.Some? { return; }
    e := Log(c, DatasetFinalized, FULL_RUN[..4], 2);
    assert FULL_RUN[..4] + [DatasetFinalized] == FULL_RUN[..5];
  }

  /** The independent verifier run. */
  method Verify(c: Canary) returns (e: Option<Error>)
    requires OnTrack(c, FULL_RUN[..5], 2)
    modifies c`events, c`file, c`errors, c`claims
    ensures e.None? ==> OnTrack(c, FULL_RUN[..7], 3)
    ensures e.Some? ==> Stopped(c, e.value, |c.claims|)
  {
    hide OnTrack, Numbered;
    e := RegisterNext(c, None, FULL_RUN[..5], 2);
    if e.Some? { return; }
    e := Log(c, VerifierLaunched, FULL_RUN[..5], 3);
    if e.Some? { return; }
    assert FULL_RUN[..5] + [VerifierLaunched] == FULL_RUN[..6];
    e := TryStep(c, FULL_RUN[..6], 3);  // poll, read and compare the verifier result
    if e.Some? { return; }
    e := Log(c, Verified, FULL_RUN[..6], 3);
    assert FULL_RUN[..6] + [Verified] == FULL_RUN[..7];
  }

  /** The first error stays the cause. */
  function FirstOf(primary: Option<Error>, later: Option<Error>): Option<Error> {
    if primary.Some? then primary else later
  }

  ghost predicate CauseIsFirst(c: Canary, primary: Option<Error>)
    reads c
  {
    primary == if c.errors == [] then None else Some(c.errors[0])
  }

  /** Deletes every registered claim, newest first, whatever any deletion raises. */
  method DeleteAll(c: Canary, cause: Option<Error>) returns (primary: Option<Error>, cleaned: seq<Claim>)
    requires c.deleted == [] && CauseIsFirst(c, cause)
    modifies c`deleted, c`errors
    ensures NewestFirst(c.deleted, c.claims) && CauseIsFirst(c, primary)
    ensures c.errors == [] ==> cleaned == c.deleted
    ensures old(c.errors) <= c.errors
  {
    primary, cleaned := cause, [];
    var i := |c.claims|;
    while i > 0
      invariant 0 <= i <= |c.claims| && |c.deleted| == |c.claims| - i
      invariant forall k | 0 <= k < |c.deleted| :: c.deleted[k] == c.claims[|c.claims| - 1 - k]
      invariant CauseIsFirst(c, primary)
      invariant c.errors == [] ==> cleaned == c.deleted
      invariant old(c.errors) <= c.errors
    {
      i := i - 1;
      c.deleted := c.deleted + [c.claims[i]];
      var e := c.Fallible();
      if e.None? {
        cleaned := cleaned + [c.claims[i]];
      }
      primary := FirstOf(primary, e);
    }
  }

  // ------------------------------------------------------------- the receipt

  datatype Origin = Observed | TestOrigin | ExampleOrigin
  datatype Execution = Live | TestMode | NotRunMode
  datatype Label = PASS | SIMULATED | NOT_RUN

  datatype Receipt = Receipt(
    origin: Origin, mode: Execution, outcome: Label, liveMutations: bool,
    producerRef: string, datasetRef: string, verifierRef: string, cleanup: seq<string>,
    startedAt: int, completedAt: int)

  /** The receipt validator: truthful labels, ordered times, and a cleanup that covers all three resources. */
  predicate Truthful(r: Receipt) {
    && (r.outcome == PASS <==> r.origin == Observed && r.mode == Live && r.liveMutations)
    && (r.outcome == SIMULATED ==> r.origin == TestOrigin && r.mode == TestMode && !r.liveMutations)
    && (r.outcome == NOT_RUN ==> r.origin == ExampleOrigin && r.mode == NotRunMode && !r.liveMutations)
    && r.completedAt >= r.startedAt
    && |r.cleanup| == 3
    && (set x | x in r.cleanup) == {r.producerRef, r.datasetRef, r.verifierRef}
  }

  /** With three distinct resources, a truthful receipt cleans each of them exactly once. */
  lemma CoversEachOnce(r: Receipt)
    requires Truthful(r)
    requires r.producerRef != r.datasetRef && r.producerRef != r.verifierRef && r.datasetRef != r.verifierRef
    ensures multiset(r.cleanup) == multiset{r.producerRef, r.datasetRef, r.verifierRef}
  {
    var s := r.cleanup;
    assert s == [s[0], s[1], s[2]];
    assert (set x | x in s) == {s[0], s[1], s[2]};
    ThreeDistinct(s[0], s[1], s[2], r.producerRef, r.datasetRef, r.verifierRef);
  }

  lemma ThreeDistinct(a: string, b: string, c: string, p: string, d: string, v: string)
    requires {a, b, c} == {p, d, v} && p != d && p != v && d != v
    ensures multiset{a, b, c} == multiset{p, d, v}
  {
    assert p in {a, b, c} && d in {a, b, c} && v in {a, b, c};
  }

  datatype Outcome = Returned(receipt: Receipt) | Raised(cause: Error)

  /** Closes the guarded part on every path: the second try for a finalised dataset, then all deletions. */
  method CleanUp(c: Canary, failed: Option<Error>) returns (primary: Option<Error>, cleaned: seq<Claim>)
    requires c.deleted == []
    requires if failed.Some? then Stopped(c, failed.value, |c.claims|) else OnTrack(c, FULL_RUN[..7], 3)
    modifies c`events, c`file, c`errors, c`claims, c`deleted
    ensures NewestFirst(c.deleted, c.claims) && IdentitiesOf(c.claims) <= ALL_CLAIMS
    ensures old(c.claims) <= c.claims && Numbered(c.events) && CauseIsFirst(c, primary)
    // a finalised dataset is left without a claim only if the second exact read failed as well
    ensures c.finalized && |c.claims| < 2 ==> |c.errors| >= 2
    ensures primary.None? ==> failed.None? && cleaned == c.deleted && c.claims == old(c.claims)
    ensures primary.None? ==> Phases(c.events) == FULL_RUN[..9] && IdentitiesOf(c.claims) == ALL_CLAIMS
  {
    primary := failed;
    assert |IdentitiesOf(c.claims)| == |c.claims|;
    if c.finalized && |c.claims| < 2 {
      var e := RetryDatasetClaim(c);
      primary := FirstOf(primary, e);
    }
    primary := LogQuietly(c, CleanupStarted, primary);
    assert FULL_RUN[..7] + [CleanupStarted] == FULL_RUN[..8];
    primary, cleaned := DeleteAll(c, primary);
    primary := LogQuietly(c, CleanupFinished, primary);
    assert FULL_RUN[..8] + [CleanupFinished] == FULL_RUN[..9];
  }

  /** Appends a phase; an error is kept only if it is the first. */
  method LogQuietly(c: Canary, phase: Phase, cause: Option<Error>) returns (primary: Option<Error>)
    requires Numbered(c.events) && CauseIsFirst(c, cause)
    modifies c`events, c`file, c`errors
    ensures Numbered(c.events) && CauseIsFirst(c, primary) && old(c.errors) <= c.errors
    ensures primary.None? ==> cause.None? && Phases(c.events) == Phases(old(c.events)) + [phase]
  {
    AppendedPhase(c.events, phase);
    var e := c.Append(phase);
    primary := FirstOf(cause, e);
  }

  /** Reads the exact finalised version once more to obtain its claim. */
  method RetryDatasetClaim(c: Canary) returns (e: Option<Error>)
    requires |c.claims| == 1 && IdentitiesOf(c.claims) == ALL_CLAIMS[..1]
    modifies c`claims, c`errors
    ensures c.errors == old(c.errors) + if e.Some? then [e.value] else []
    ensures |c.claims| == if e.None? then 2 else 1
    ensures old(c.claims) <= c.claims && IdentitiesOf(c.claims) == ALL_CLAIMS[..|c.claims|]
  {
    e := c.Register("dataset", Some(DatasetRef(c.owner, c.suffix)));
    if e.None? {
      assert IdentitiesOf(c.claims) == [c.claims[0].identity, c.claims[1].identity] && IdentitiesOf(old(c.claims))[0] == "producer";
      assert ALL_CLAIMS[..2] == ["producer", "dataset"];
    }
  }

  /** The whole canary. */
  method Run(c: Canary, list: Inventories) returns (r: Outcome)
    requires c.events == [] && c.claims == [] && !c.finalized && c.deleted == [] && c.errors == []
    modifies c
    // on every path: the registered claims, and nothing else, are deleted once each, newest first
    ensures NewestFirst(c.deleted, c.claims) && IdentitiesOf(c.claims) <= ALL_CLAIMS
    ensures c.finalized && |c.claims| < 2 ==> |c.errors| >= 2
    ensures Numbered(c.events)
    // the reported cause is the first error
    ensures r.Raised? ==> c.errors != [] && r.cause == c.errors[0]
    // a normal return: the full phase log on disk, all three claims cleaned, the resources gone
    ensures r.Returned? ==> c.errors == [] && Phases(c.events) == FULL_RUN && c.file == c.events
    ensures r.Returned? ==> IdentitiesOf(c.claims) == ALL_CLAIMS && r.receipt.cleanup == Refs(c.deleted)
    ensures r.Returned? ==>
      multiset(r.receipt.cleanup) == multiset{ProducerRef(c.owner, c.suffix), DatasetRef(c.owner, c.suffix), VerifierRef(c.owner, c.suffix)}
    ensures r.Returned? ==> r.receipt.producerRef == ProducerRef(c.owner, c.suffix)
    ensures r.Returned? ==> r.receipt.datasetRef == DatasetRef(c.owner, c.suffix) && r.receipt.verifierRef == VerifierRef(c.owner, c.suffix)
    ensures r.Returned? ==> ProvedAbsent(list(Dataset), {DatasetRef(c.owner, c.suffix)})
    ensures r.Returned? ==> ProvedAbsent(list(Notebook), {ProducerRef(c.owner, c.suffix), VerifierRef(c.owner, c.suffix)})
    ensures r.Returned? ==> Truthful(r.receipt) && (r.receipt.outcome == PASS <==> c.live)
  {
    hide NewestFirst, ProvedAbsent, OnTrack, Stopped, DatasetRef, ProducerRef, VerifierRef, IdentitiesOf, Phases, Refs, Numbered, Truthful;
    assert IdentitiesOf([]) <= ALL_CLAIMS by { NoIdentities(); }
    var e := Start(c);
    if e.Some? {
      return Raised(e.value);
    }
    e := Produce(c);
    if e.None? {
      e := Finalize(c);
    }
    if e.None? {
      e := Verify(c);
    }
    var primary, cleaned := CleanUp(c, e);
    if primary.Some? {
      return Raised(primary.value);
    }
    r := Conclude(c, list, cleaned);
  }

  lemma NoIdentities()
    ensures IdentitiesOf([]) == []
  {
  }

  /** The identity of the owner and the first event, before anything can be claimed. */
  method Start(c: Canary) returns (e: Option<Error>)
    requires c.events == [] && c.claims == [] && !c.finalized && c.deleted == [] && c.errors == []
    modifies c`events, c`file, c`errors
    ensures e.None? ==> OnTrack(c, FULL_RUN[..1], 0)
    ensures e.Some? ==> c.errors == [e.value] && Numbered(c.events)
    ensures NewestFirst([], c.claims)
  {
    e := c.Fallible();
    if e.Some? {
      return;
    }
    assert OnTrack(c, [], 0);
    e := Log(c, Planned, [], 0);
    assert [] + [Planned] == FULL_RUN[..1];
  }

  /** After a clean run: the inventory proof, the validated receipt and the last event. */
  method Conclude(c: Canary, list: Inventories, cleaned: seq<Claim>) returns (r: Outcome)
    requires c.errors == [] && Numbered(c.events) && Phases(c.events) == FULL_RUN[..9]
    modifies c`events, c`file, c`errors
    ensures Numbered(c.events)
    ensures r.Raised? ==> c.errors != [] && r.cause == c.errors[0]
    ensures r.Returned? ==> c.errors == [] && Phases(c.events) == FULL_RUN && c.file == c.events
    ensures r.Returned? ==> r.receipt.cleanup == Refs(cleaned) && Truthful(r.receipt) && (r.receipt.outcome == PASS <==> c.live)
    ensures r.Returned? ==>
      multiset(r.receipt.cleanup) == multiset{ProducerRef(c.owner, c.suffix), DatasetRef(c.owner, c.suffix), VerifierRef(c.owner, c.suffix)}
    ensures r.Returned? ==> r.receipt.producerRef == ProducerRef(c.owner, c.suffix)
    ensures r.Returned? ==> r.receipt.datasetRef == DatasetRef(c.owner, c.suffix) && r.receipt.verifierRef == VerifierRef(c.owner, c.suffix)
    ensures r.Returned? ==> ProvedAbsent(list(Dataset), {DatasetRef(c.owner, c.suffix)})
    ensures r.Returned? ==> ProvedAbsent(list(Notebook), {ProducerRef(c.owner, c.suffix), VerifierRef(c.owner, c.suffix)})
  {
    hide ProvedAbsent, FullListing, DatasetRef, ProducerRef, VerifierRef;
    var producer, dataset, verifier := ProducerRef(c.owner, c.suffix), DatasetRef(c.owner, c.suffix), VerifierRef(c.owner, c.suffix);
    if |cleaned| != 3 {
      r := RaiseOwn(c);
      return;
    }
    var absent := ProveInventoryAbsent(list, kind => if kind == Dataset then {dataset} else {producer, verifier});
    if absent.None? {
      r := RaiseOwn(c);
      return;
    }
    var started, completed: int := *, *;
    var receipt := if c.live
      then Receipt(Observed, Live, PASS, true, producer, dataset, verifier, Refs(cleaned), started, completed)
      else Receipt(TestOrigin, TestMode, SIMULATED, false, producer, dataset, verifier, Refs(cleaned), started, completed);
    if !Truthful(receipt) {
      r := RaiseOwn(c);
      return;
    }
    var leak := c.Fallible();  // a signed URL or token in the encoded receipt
    if leak.Some? {
      return Raised(leak.value);
    }
    AppendedPhase(c.events, Complete);
    var e := c.Append(Complete);
    if e.Some? {
      return Raised(e.value);
    }
    RefsDistinct(c.owner, c.suffix);
    CoversEachOnce(receipt);
    assert FULL_RUN[..9] + [Complete] == FULL_RUN;
    return Returned(receipt);
  }

  method RaiseOwn(c: Canary) returns (r: Outcome)
    requires c.errors == []
    modifies c`errors
    ensures r.Raised? && c.errors == [r.cause]
  {
    var id: int := *;
    c.errors := [Error(id)];
    r := Raised(Error(id));
  }
}
