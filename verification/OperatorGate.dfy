/** The short-lived, signed gate for remote operator deployments: issuing it and verifying it. */
module OperatorGate {
  import opened Prelude

  // ------------------------------------------------------------------ values

  /** A JSON value as far as the gate looks at it; booleans, lists and the like are `Other`. */
  datatype Value = Str(text: string) | Int(number: int) | Other(shown: string)

  /** The signed part of a gate. */
  datatype Body = Body(
    contract: Value, releaseCommit: Value, outcome: Value, checkpointId: Value, checkpointRevision: Value,
    roleSha: Value, testSha: Value, issuedAt: Value, expiresAt: Value)

  /** The receipt file: not one readable JSON object, an object with other fields, or one with the exact fields. */
  datatype Receipt = Unreadable | OtherFields | Gate(body: Body, signature: Value)

  const CONTRACT := Str("my-data-hub-operator-security-gate.v1")
  const PASSED := Str("PASSED")

  /** Times are counted in microseconds. */
  const MINUTE := 60_000_000
  const MAX_LIFETIME := 24 * 60 * MINUTE

  /** ISO 8601 text, UUID syntax, decimal digits and the keyed digest come from libraries. */
  datatype Library = Library(
    parse: Value -> Option<int>, show: int -> string, isUuid: Value -> bool, decimal: int -> string,
    mac: (string, Body) -> string)

  /** A time written out is read back, and a digest is 64 hexadecimal digits. */
  ghost predicate Faithful(lib: Library) {
    && (forall t :: lib.parse(Str(lib.show(t))) == Some(t))
    && (forall k, b :: LowerHex(lib.mac(k, b), 64))
  }

  // -------------------------------------------------------------- the ledger

  datatype Evidence = Evidence(
    sourceCommit: string, observedAt: int, instance: string, epoch: int, revision: int, roleSha: string, testSha: string)

  /** A checkpoint candidate; its revision is missing when the manifest does not hold one. */
  datatype Candidate = Candidate(verified: bool, verifiedAt: bool, instance: string, epoch: int, revision: Option<int>)

  datatype Ledger = Ledger(evidence: seq<Evidence>, head: Option<string>, candidates: map<string, Candidate>)

  datatype Authority = Authority(checkpointId: string, revision: int, roleSha: string, testSha: string)

  /** The most recently observed evidence for a commit. */
  function Latest(rows: seq<Evidence>, commit: string): Option<Evidence> {
    if rows == [] then None
    else
      var n := |rows| - 1;
      var r := Latest(rows[..n], commit);
      if rows[n].sourceCommit == commit && (r.None? || rows[n].observedAt > r.value.observedAt) then Some(rows[n]) else r
  }

  /** The checkpoint the head names, if it is a candidate. */
  function Current(l: Ledger): Option<Candidate> {
    if l.head.Some? && l.head.value in l.candidates then Some(l.candidates[l.head.value]) else None
  }

  /** The evidence is covered by the checkpoint: same master, same epoch, and nothing canonical after the checkpoint. */
  predicate Protects(c: Candidate, e: Evidence) {
    && c.verified && c.verifiedAt && c.revision.Some?
    && c.instance == e.instance && c.epoch == e.epoch && c.revision.value >= e.revision
  }

  function LedgerAuthority(l: Ledger, commit: string): Option<Authority> {
    var evidence, head := Latest(l.evidence, commit), Current(l);
    if evidence.None? || head.None? || !head.value.verified || !head.value.verifiedAt then None
    else if head.value.revision.None? then None
    else if
      || head.value.instance != evidence.value.instance
      || head.value.epoch != evidence.value.epoch
      || head.value.revision.value < evidence.value.revision then None
    else Some(Authority(l.head.value, head.value.revision.value, evidence.value.roleSha, evidence.value.testSha))
  }

  /** Row `i` is for the commit, none for it was observed later, and none before it in the table at the same time. */
  predicate NewestAt(rows: seq<Evidence>, commit: string, i: nat) {
    && i < |rows| && rows[i].sourceCommit == commit
    && (forall j | 0 <= j < |rows| && rows[j].sourceCommit == commit :: rows[j].observedAt <= rows[i].observedAt)
    && (forall j | 0 <= j < i && rows[j].sourceCommit == commit :: rows[j].observedAt < rows[i].observedAt)
  }

  lemma {:induction false} NoneMeans(rows: seq<Evidence>, commit: string)
    requires Latest(rows, commit).None?
    ensures forall j | 0 <= j < |rows| :: rows[j].sourceCommit != commit
    decreases |rows|
  {
    if rows != [] {
      NoneMeans(rows[..|rows| - 1], commit);
    }
  }

  lemma {:induction false} LatestIsNewest(rows: seq<Evidence>, commit: string) returns (i: nat)
    requires Latest(rows, commit).Some?
    ensures NewestAt(rows, commit, i) && Latest(rows, commit) == Some(rows[i])
    decreases |rows|
  {
    var n := |rows| - 1;
    var front := rows[..n];
    if Latest(front, commit).None? {
      NoneMeans(front, commit);
      i := n;
    } else {
      i := LatestIsNewest(front, commit);
      if rows[n].sourceCommit == commit && rows[n].observedAt > front[i].observedAt {
        i := n;
      }
    }
  }

  lemma NewestIsLatest(rows: seq<Evidence>, commit: string, i: nat)
    requires NewestAt(rows, commit, i)
    ensures Latest(rows, commit) == Some(rows[i])
  {
    if Latest(rows, commit).None? {
      NoneMeans(rows, commit);
      assert false;
    }
    var j := LatestIsNewest(rows, commit);
    assert i == j;
  }

  /** The ledger speaks for a commit exactly when the newest row for it is protected by the current checkpoint. */
  lemma AuthorityMeans(l: Ledger, commit: string, a: Authority)
    ensures LedgerAuthority(l, commit) == Some(a) <==>
            exists i: nat | NewestAt(l.evidence, commit, i) ::
              && l.head == Some(a.checkpointId) && a.checkpointId in l.candidates
              && Protects(l.candidates[a.checkpointId], l.evidence[i])
              && a.revision == l.candidates[a.checkpointId].revision.value
              && a.roleSha == l.evidence[i].roleSha && a.testSha == l.evidence[i].testSha
  {
    hide Latest;
    if Latest(l.evidence, commit).Some? {
      var i := LatestIsNewest(l.evidence, commit);
      assert NewestAt(l.evidence, commit, i);
    }
    forall i: nat | i < |l.evidence| && NewestAt(l.evidence, commit, i) ensures Latest(l.evidence, commit) == Some(l.evidence[i]) {
      NewestIsLatest(l.evidence, commit, i);
    }
  }

  lemma LatestWith(rows: seq<Evidence>, e: Evidence, commit: string)
    ensures
      var r := Latest(rows, commit);
      Latest(rows + [e], commit) ==
        if e.sourceCommit == commit && (r.None? || e.observedAt > r.value.observedAt) then Some(e) else r
  {
    assert (rows + [e])[..|rows|] == rows;
  }

  /** Rows for other commits, and rows for this one that are no newer, change nothing that the ledger says. */
  lemma {:induction false} OldNewsIgnored(rows: seq<Evidence>, more: seq<Evidence>, commit: string)
    requires Latest(rows, commit).Some?
    requires forall e | e in more && e.sourceCommit == commit :: e.observedAt <= Latest(rows, commit).value.observedAt
    ensures Latest(rows + more, commit) == Latest(rows, commit)
    decreases |more|
  {
    if more == [] {
      assert rows + more == rows;
    } else {
      hide Latest;
      var n := |more| - 1;
      OldNewsIgnored(rows, more[..n], commit);
      LatestWith(rows + more[..n], more[n], commit);
      assert rows + more == rows + more[..n] + [more[n]];
    }
  }

  // ---------------------------------------------------------------- verifying

  predicate Sha(v: Value) { v.Str? && LowerHex(v.text, 64) }

  /** What a gate says apart from when it holds. */
  predicate WellFormed(lib: Library, b: Body, commit: string) {
    && b.contract == CONTRACT && b.outcome == PASSED
    && LowerHex(commit, 40) && b.releaseCommit == Str(commit)
    && lib.isUuid(b.checkpointId)
    && b.checkpointRevision.Int? && b.checkpointRevision.number >= 0
    && Sha(b.roleSha) && Sha(b.testSha)
  }

  /** The exact-contract check, guard by guard. */
  predicate ValidateContract(lib: Library, r: Receipt, commit: string, now: int) {
    if !r.Gate? then false
    else if !WellFormed(lib, r.body, commit) then false
    else
      var issued, expires := lib.parse(r.body.issuedAt), lib.parse(r.body.expiresAt);
      if issued.None? || expires.None? then false
      else if expires.value <= issued.value || expires.value - issued.value > MAX_LIFETIME then false
      else !(issued.value > now + 5 * MINUTE || expires.value <= now)
  }

  /** The gate carries the authority's values. */
  predicate Carries(b: Body, a: Authority) {
    && b.checkpointId == Str(a.checkpointId) && b.checkpointRevision == Int(a.revision)
    && b.roleSha == Str(a.roleSha) && b.testSha == Str(a.testSha)
  }

  /** `key` is missing when its file is refused; `ledger` is missing when none was asked for. */
  predicate Verify(lib: Library, r: Receipt, key: Option<string>, commit: string, now: int, ledger: Option<Ledger>) {
    if key.None? || !ValidateContract(lib, r, commit, now) then false
    else
      var supplied := match r.signature case Str(text) => text case Int(n) => lib.decimal(n) case Other(shown) => shown;
      if !LowerHex(supplied, 64) || supplied != lib.mac(key.value, r.body) then false
      else if ledger.None? then true
      else
        var authority := LedgerAuthority(ledger.value, commit);
        authority.Some? && Carries(r.body, authority.value)
  }

  // ------------------------------------------------------------------ issuing

  function Unsigned(lib: Library, commit: string, a: Authority, now: int, expires: int): Body {
    Body(CONTRACT, Str(commit), PASSED, Str(a.checkpointId), Int(a.revision), Str(a.roleSha), Str(a.testSha),
         Str(lib.show(now)), Str(lib.show(expires)))
  }

  /** What is asked for is something a gate may say. */
  predicate Issuable(lib: Library, commit: string, a: Authority, now: int, expires: int) {
    && LowerHex(commit, 40) && lib.isUuid(Str(a.checkpointId)) && a.revision >= 0
    && LowerHex(a.roleSha, 64) && LowerHex(a.testSha, 64)
    && now < expires <= now + MAX_LIFETIME
  }

  /** `r` is the gate issued at `now` under `key`. */
  predicate IssuedGate(lib: Library, r: Receipt, key: string, commit: string, a: Authority, now: int, expires: int) {
    && r == Gate(Unsigned(lib, commit, a, now, expires), Str(lib.mac(key, Unsigned(lib, commit, a, now, expires))))
    && Issuable(lib, commit, a, now, expires)
  }

  class GateFile {
    var content: Receipt

    /** Signs the payload, checks it as a verifier would, and only then replaces the file. */
    method Issue(
      lib: Library, key: Option<string>, commit: string, a: Authority, now: int, expires: Option<int>, writable: bool)
      returns (ok: bool)
      requires Faithful(lib)
      modifies this
      ensures ok <==> key.Some? && expires.Some? && writable && Issuable(lib, commit, a, now, expires.value)
      ensures ok ==> IssuedGate(lib, content, key.value, commit, a, now, expires.value)
      ensures !ok ==> content == old(content)
    {
      if key.None? || expires.None? {
        return false;
      }
      var body := Unsigned(lib, commit, a, now, expires.value);
      var payload := Gate(body, Str(lib.mac(key.value, body)));
      if !ValidateContract(lib, payload, commit, now) {
        return false;
      }
      if !writable {
        return false;
      }
      content := payload;
      return true;
    }

    /** Issues what the ledger says about the commit, and nothing when it says nothing. */
    method IssueFromLedger(
      lib: Library, key: Option<string>, commit: string, l: Ledger, now: int, expires: Option<int>, writable: bool)
      returns (ok: bool)
      requires Faithful(lib)
      modifies this
      ensures ok ==> LedgerAuthority(l, commit).Some? && key.Some? && expires.Some?
      ensures ok ==> IssuedGate(lib, content, key.value, commit, LedgerAuthority(l, commit).value, now, expires.value)
      ensures !ok ==> content == old(content)
    {
      var a := LedgerAuthority(l, commit);
      if a.None? {
        return false;
      }
      ok := Issue(lib, key, commit, a.value, now, expires, writable);
    }
  }

  // ------------------------------------------------------------------ results

  /**
   * An issued gate verifies under its key and commit from five minutes before it was issued until it expires and at
   * no other time; against a ledger, exactly while that ledger's authority for the commit is the one that was signed.
   */
  lemma IssuedVerifies(
    lib: Library, r: Receipt, key: string, commit: string, a: Authority, issued: int, expires: int,
    now: int, ledger: Option<Ledger>)
    requires Faithful(lib) && IssuedGate(lib, r, key, commit, a, issued, expires)
    ensures Verify(lib, r, Some(key), commit, now, ledger) <==>
            && issued - 5 * MINUTE <= now < expires
            && (ledger.Some? ==> LedgerAuthority(ledger.value, commit) == Some(a))
    ensures expires - (issued - 5 * MINUTE) <= MAX_LIFETIME + 5 * MINUTE
  {
    hide LowerHex, LedgerAuthority;
    assert LowerHex(lib.mac(key, r.body), 64);
    assert lib.parse(r.body.issuedAt) == Some(issued) && lib.parse(r.body.expiresAt) == Some(expires);
  }

  /** Whoever wrote the receipt, the times at which it verifies form one interval shorter than 24 hours 5 minutes. */
  lemma VerifiedWindow(
    lib: Library, r: Receipt, key: Option<string>, commit: string, ledger: Option<Ledger>, first: int, last: int, now: int)
    requires Verify(lib, r, key, commit, first, ledger) && Verify(lib, r, key, commit, last, ledger)
    ensures last - first < MAX_LIFETIME + 5 * MINUTE
    ensures first <= now <= last ==> Verify(lib, r, key, commit, now, ledger)
  {
    hide LowerHex, LedgerAuthority;
  }

  /**
   * A gate issued from a ledger goes on verifying while the ledger only gains rows for other commits or older ones,
   * and stops for good against any ledger whose current checkpoint is another one.
   */
  lemma LedgerMovesOn(
    lib: Library, r: Receipt, key: string, commit: string, l: Ledger, issued: int, expires: int,
    more: seq<Evidence>, later: Ledger, now: int)
    requires Faithful(lib) && LedgerAuthority(l, commit).Some?
    requires IssuedGate(lib, r, key, commit, LedgerAuthority(l, commit).value, issued, expires)
    requires issued - 5 * MINUTE <= now < expires
    requires forall e | e in more && e.sourceCommit == commit :: e.observedAt <= Latest(l.evidence, commit).value.observedAt
    ensures Verify(lib, r, Some(key), commit, now, Some(l.(evidence := l.evidence + more)))
    ensures later.head != l.head ==> !Verify(lib, r, Some(key), commit, now, Some(later))
  {
    hide LowerHex, Latest, Verify, IssuedGate;
    var a := LedgerAuthority(l, commit).value;
    OldNewsIgnored(l.evidence, more, commit);
    IssuedVerifies(lib, r, key, commit, a, issued, expires, now, Some(l.(evidence := l.evidence + more)));
    IssuedVerifies(lib, r, key, commit, a, issued, expires, now, Some(later));
  }

  /** Two different bodies with one digest. */
  predicate Collide(lib: Library, key: string, b: Body, c: Body) { b != c && lib.mac(key, b) == lib.mac(key, c) }

  /** Whatever verifies under a signature that was issued is the issued gate, for its commit, or its body collides with the issued one. */
  lemma TamperEvident(
    lib: Library, r: Receipt, q: Receipt, key: string, commit: string, a: Authority, issued: int, expires: int,
    other: string, now: int, ledger: Option<Ledger>)
    requires IssuedGate(lib, r, key, commit, a, issued, expires)
    requires q.Gate? && q.signature == r.signature && Verify(lib, q, Some(key), other, now, ledger)
    ensures (q == r && other == commit) || Collide(lib, key, q.body, r.body)
  {
    hide LowerHex, LedgerAuthority;
  }
}
