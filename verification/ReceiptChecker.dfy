/** The checker that binds a schema-valid completion receipt to its evidence and to the checkout it speaks for. */
module ReceiptChecker {
  import opened Prelude
  import opened ReceiptEvidence
  import opened ReceiptMatrix
  import opened Sorting

  // --------------------------------------------------------------- references

  function RequiredIds(q: Required): set<string> {
    Elements(q.review + q.deployment + q.postDeploy + q.security + q.integrity + q.matrix)
  }

  function GateRefs(gates: seq<GateResult>): set<string> { set g, id | g in gates && id in g.refs :: id }

  function BlockerRefs(blockers: seq<Blocker>): set<string> { set b, id | b in blockers && id in b.refs :: id }

  /** Every evidence id the receipt mentions anywhere. */
  function Cited(r: Receipt): set<string> {
    GateRefs(r.gates) + BlockerRefs(r.blockers) + RequiredIds(r.required)
    + if r.matrix.receiptId.Some? then {r.matrix.receiptId.value} else {}
  }

  method References(r: Receipt) returns (referenced: set<string>)
    ensures referenced == Cited(r)
  {
    referenced := {};
    var n := 0;
    while n < |r.gates|
      invariant n <= |r.gates| && referenced == GateRefs(r.gates[..n])
    {
      assert r.gates[..n + 1] == r.gates[..n] + [r.gates[n]];
      referenced := referenced + Elements(r.gates[n].refs);
      n := n + 1;
    }
    assert r.gates[..n] == r.gates;
    n := 0;
    while n < |r.blockers|
      invariant n <= |r.blockers| && referenced == GateRefs(r.gates) + BlockerRefs(r.blockers[..n])
    {
      assert r.blockers[..n + 1] == r.blockers[..n] + [r.blockers[n]];
      referenced := referenced + Elements(r.blockers[n].refs);
      n := n + 1;
    }
    assert r.blockers[..n] == r.blockers;
    referenced := referenced + RequiredIds(r.required);
    if r.matrix.receiptId.Some? {
      referenced := referenced + {r.matrix.receiptId.value};
    }
  }

  /** As for a list, over a set in any order. */
  method CollectEach(xs: set<string>, ok: string -> bool, section: string) returns (errors: seq<Problem>)
    ensures errors == [] <==> forall x | x in xs :: ok(x)
  {
    errors := [];
    var left := xs;
    while left != {}
      invariant left <= xs && (errors == [] <==> forall x | x in xs - left :: ok(x))
      decreases left
    {
      var x :| x in left;
      if !ok(x) {
        errors := errors + [Problem(section, x)];
      }
      assert xs - (left - {x}) == (xs - left) + {x};
      left := left - {x};
    }
  }

  // -------------------------------------------------------------- any verdict

  function RequiredKinds(q: Required): seq<(seq<string>, Kind)> {
    [(q.review, IMPLEMENTATION_REVIEW), (q.deployment, DEPLOYMENT), (q.postDeploy, POST_DEPLOY),
     (q.security, SECURITY_AUDIT), (q.integrity, DATA_INTEGRITY_AUDIT), (q.matrix, REAL_KAGGLE_MATRIX)]
  }

  predicate OfKind(byId: map<string, Item>, refs: seq<string>, kind: Kind) {
    forall id | id in refs :: id in byId ==> byId[id].kind == kind
  }

  ghost predicate KindsOk(byId: map<string, Item>, pairs: seq<(seq<string>, Kind)>) {
    forall i | 0 <= i < |pairs| :: OfKind(byId, pairs[i].0, pairs[i].1)
  }

  method CheckKinds(byId: map<string, Item>, pairs: seq<(seq<string>, Kind)>) returns (errors: seq<Problem>)
    ensures errors == [] <==> KindsOk(byId, pairs)
  {
    errors := [];
    var n := 0;
    while n < |pairs|
      invariant n <= |pairs| && (errors == [] <==> KindsOk(byId, pairs[..n]))
    {
      assert pairs[..n + 1] == pairs[..n] + [pairs[n]];
      var (refs, kind) := pairs[n];
      var wrong := Collect(refs, id => id in byId ==> byId[id].kind == kind, "required evidence of another kind", id => id);
      assert wrong == [] <==> OfKind(byId, refs, kind);
      errors := errors + wrong;
      n := n + 1;
    }
    assert pairs[..n] == pairs;
  }

  predicate CountsOk(m: Matrix, c: Counts) {
    && c.runIds == |m.runRefs| && c.kernelIds == |m.kernelIds| && c.scenariosPassed == m.passed
    && m.passed + m.failed + m.blocked == m.planned
  }

  method CheckCounts(m: Matrix, c: Counts) returns (errors: seq<Problem>)
    ensures errors == [] <==> CountsOk(m, c)
  {
    errors := Note(c.runIds == |m.runRefs|, "run ids");
    errors := errors + Note(c.kernelIds == |m.kernelIds|, "kernel ids");
    errors := errors + Note(c.scenariosPassed == m.passed, "passed scenarios");
    errors := errors + Note(m.passed + m.failed + m.blocked == m.planned, "scenario total");
  }

  // ------------------------------------------------------------------- commits

  predicate CommitsOk(checkout: Checkout, r: Receipt) {
    && checkout.commit.Some? && r.evaluatedCommit == checkout.commit
    && r.identity.merge == r.evaluatedCommit && r.identity.deployed == r.evaluatedCommit
    && r.identity.postDeploy == r.evaluatedCommit
  }

  method CheckCommits(checkout: Checkout, r: Receipt) returns (errors: seq<Problem>)
    ensures errors == [] <==> CommitsOk(checkout, r)
  {
    errors := Note(checkout.commit.Some? && r.evaluatedCommit == checkout.commit, "evaluated commit");
    errors := errors + Note(r.identity.merge == r.evaluatedCommit, "merge commit");
    errors := errors + Note(r.identity.deployed == r.evaluatedCommit, "deployed commit");
    errors := errors + Note(r.identity.postDeploy == r.evaluatedCommit, "post-deploy verified commit");
  }

  /** The contents behind some references, in order, leaving out those without any. */
  function Found(contents: map<string, Content>, refs: seq<string>): seq<Content> {
    if refs == [] then []
    else Found(contents, refs[..|refs| - 1])
         + if refs[|refs| - 1] in contents then [contents[refs[|refs| - 1]]] else []
  }

  function Names(checks: seq<Check>): (r: seq<string>)
    ensures |r| == |checks| && forall i | 0 <= i < |checks| :: r[i] == checks[i].name
  {
    seq(|checks|, i requires 0 <= i < |checks| => checks[i].name)
  }

  const HOSTED_CHECKS := {"contracts", "postgres-integration"}

  /** A review of exactly this head and merge, with each required check run once on that head. */
  predicate ReviewFits(exact: Option<Relation>, who: Identity, c: Content) {
    && c.reviewedHead == who.reviewedHead && c.merge == who.merge
    && c.relationship == exact
    && Distinct(Names(c.checks)) && HOSTED_CHECKS <= Elements(Names(c.checks))
    && (forall check | check in c.checks :: check.headCommit == who.reviewedHead)
  }

  ghost predicate ReviewOk(checkout: Checkout, r: Receipt, contents: map<string, Content>) {
    var who := r.identity;
    && who.reviewedHead.Some? && who.merge.Some?
    && var exact := checkout.relation(who.reviewedHead.value, who.merge.value);
    && exact.Some?
    && Found(contents, r.required.review) != []
    && (forall c | c in Found(contents, r.required.review) :: ReviewFits(exact, who, c))
  }

  method CheckReview(exact: Option<Relation>, who: Identity, c: Content) returns (errors: seq<Problem>)
    ensures errors == [] <==> ReviewFits(exact, who, c)
  {
    hide Distinct, Elements, Names;
    errors := Note(c.reviewedHead == who.reviewedHead, "reviewed head");
    errors := errors + Note(c.merge == who.merge, "reviewed merge");
    errors := errors + Note(c.relationship == exact, "reviewed relationship");
    var names := Names(c.checks);
    DistinctByCount(names);
    errors := errors + Note(|Elements(names)| == |c.checks|, "repeated hosted check");
    NothingMissing(HOSTED_CHECKS, Elements(names));
    errors := errors + Note(HOSTED_CHECKS - Elements(names) == {}, "missing hosted check");
    var unbound := Collect(c.checks, (x: Check) => x.headCommit == who.reviewedHead, "hosted check head", (x: Check) => x.name);
    errors := errors + unbound;
  }

  lemma NothingMissing(a: set<string>, b: set<string>)
    ensures a - b == {} <==> a <= b
  {
    if a - b == {} {
      forall x | x in a ensures x in b {
        assert x !in a - b;
      }
    }
  }

  method CheckReviews(checkout: Checkout, r: Receipt, contents: map<string, Content>) returns (errors: seq<Problem>)
    ensures errors == [] <==> ReviewOk(checkout, r, contents)
  {
    hide ReviewFits, Found;
    var who := r.identity;
    if who.reviewedHead.None? || who.merge.None? {
      return [Problem("no reviewed head or merge", "")];
    }
    var exact := checkout.relation(who.reviewedHead.value, who.merge.value);
    errors := Note(exact.Some?, "reviewed head is not behind the merge");
    var reviews := Found(contents, r.required.review);
    errors := errors + Note(reviews != [], "no readable review");
    ghost var before := errors;
    var n := 0;
    while n < |reviews|
      invariant n <= |reviews|
      invariant errors == [] <==> before == [] && forall c | c in reviews[..n] :: ReviewFits(exact, who, c)
    {
      assert reviews[..n + 1] == reviews[..n] + [reviews[n]];
      var found := CheckReview(exact, who, reviews[n]);
      errors := errors + found;
      n := n + 1;
    }
    assert reviews[..n] == reviews;
  }

  predicate DeploymentFits(who: Identity, post: bool, c: Content) {
    && c.deployed == who.deployed && (post ==> c.postDeploy == who.postDeploy) && c.clean
    && (post ==> forall check | check in c.checks :: check.headCommit == who.deployed)
  }

  ghost predicate DeploymentOk(who: Identity, post: bool, found: seq<Content>) {
    found != [] && forall c | c in found :: DeploymentFits(who, post, c)
  }

  method CheckDeployment(who: Identity, post: bool, found: seq<Content>) returns (errors: seq<Problem>)
    ensures errors == [] <==> DeploymentOk(who, post, found)
  {
    errors := Note(found != [], "no readable deployment evidence");
    var unfit := Collect(found, c => DeploymentFits(who, post, c), "deployment evidence differs", c => "");
    errors := errors + unfit;
  }

  // --------------------------------------------------------------------- gates

  const GATES := "ABCDEFGHIJKLMN"

  /** The letters from A on, in order. */
  ghost predicate Alphabet(s: string) { forall i | 0 <= i < |s| :: s[i] as int == 'A' as int + i }

  lemma AlphabetCount(s: string, g: char)
    requires Alphabet(s)
    ensures multiset(s)[g] == if 0 <= g as int - 'A' as int < |s| then 1 else 0
  {
    var k := g as int - 'A' as int;
    if 0 <= k < |s| {
      assert s[k] == g;
      assert g in multiset(s);
    }
    if multiset(s)[g] >= 2 {
      Twice(s, g);
    }
    if g in multiset(s) {
      var i :| 0 <= i < |s| && s[i] == g;
    }
  }

  lemma GatesAlphabet()
    ensures |GATES| == 14 && Alphabet(GATES)
  {
  }

  function GateIds(gates: seq<GateResult>): (r: string)
    ensures |r| == |gates| && forall i | 0 <= i < |gates| :: r[i] == gates[i].id
  {
    seq(|gates|, i requires 0 <= i < |gates| => gates[i].id)
  }

  /** Each of the gates A to N occurs once, and no other does. */
  ghost predicate GatesComplete(gates: seq<GateResult>) {
    forall g :: multiset(GateIds(gates))[g] == if 'A' <= g <= 'N' then 1 else 0
  }

  /** Sorted ids are the whole alphabet of gates exactly when each gate occurs once. */
  lemma CompleteWhen(gates: seq<GateResult>, all: string)
    requires |all| == 14 && Alphabet(all)
    ensures Sort(CharOrder(), GateIds(gates)) == all <==> GatesComplete(gates)
  {
    hide Sort, Alphabet;
    var ids := GateIds(gates);
    assert Linear(CharOrder()) && Ordered(CharOrder(), all) by { AlphabetOrdered(all); }
    SortMeans(CharOrder(), ids);
    hide Linear, Ordered;
    OrderedUnique(CharOrder(), Sort(CharOrder(), ids), all);
    forall g {
      AlphabetCount(all, g);
    }
    if GatesComplete(gates) {
      assert forall g :: multiset(ids)[g] == multiset(all)[g];
    }
  }

  lemma AlphabetOrdered(all: string)
    requires Alphabet(all)
    ensures Linear(CharOrder()) && Ordered(CharOrder(), all)
  {
  }

  method CheckGateIds(gates: seq<GateResult>) returns (errors: seq<Problem>)
    ensures errors == [] <==> GatesComplete(gates)
  {
    errors := Note(Sort(CharOrder(), GateIds(gates)) == GATES, "gates A-N");
    GatesAlphabet();
    CompleteWhen(gates, GATES);
  }

  /** The kinds of evidence that can carry a gate. */
  function Permitted(gate: char): set<Kind> {
    match gate
    case 'A' | 'B' | 'C' | 'D' | 'E' | 'F' | 'G' | 'H' => {REAL_KAGGLE_MATRIX, GATE_EVIDENCE}
    case 'I' => {SECURITY_AUDIT}
    case 'J' | 'K' => {DATA_INTEGRITY_AUDIT}
    case 'L' => {CONNECTOR_DURABILITY}
    case 'M' => {DEPLOYMENT, POST_DEPLOY}
    case 'N' => {IMPLEMENTATION_REVIEW, POST_DEPLOY}
    case _ => {}
  }

  /** An item a gate cites has verified content and lies in the gate's scope. */
  predicate InScope(contents: map<string, Content>, gate: char, item: Item) {
    item.id in contents && gate in item.gateIds && item.requirementIds != []
  }

  predicate Carries(byId: map<string, Item>, contents: map<string, Content>, gate: char, id: string) {
    id in byId && byId[id].id in contents && byId[id].kind in Permitted(gate)
  }

  predicate GateOk(byId: map<string, Item>, contents: map<string, Content>, g: GateResult) {
    && (forall id | id in g.refs && id in byId :: InScope(contents, g.id, byId[id]))
    && (exists id | id in g.refs :: Carries(byId, contents, g.id, id))
  }

  method CheckGate(byId: map<string, Item>, contents: map<string, Content>, g: GateResult) returns (errors: seq<Problem>)
    ensures errors == [] <==> GateOk(byId, contents, g)
  {
    hide InScope, Carries;
    var outside := Collect(g.refs, id => id in byId ==> InScope(contents, g.id, byId[id]), "evidence outside its scope", id => id);
    errors := outside + Note(exists id | id in g.refs :: Carries(byId, contents, g.id, id), "no evidence of a permitted kind");
  }

  ghost predicate AllGatesOk(byId: map<string, Item>, contents: map<string, Content>, gates: seq<GateResult>) {
    forall i | 0 <= i < |gates| :: GateOk(byId, contents, gates[i])
  }

  method CheckGates(byId: map<string, Item>, contents: map<string, Content>, gates: seq<GateResult>)
    returns (errors: seq<Problem>)
    ensures errors == [] <==> AllGatesOk(byId, contents, gates)
  {
    hide GateOk;
    errors := [];
    var n := 0;
    while n < |gates|
      invariant n <= |gates| && (errors == [] <==> AllGatesOk(byId, contents, gates[..n]))
    {
      assert gates[..n + 1] == gates[..n] + [gates[n]];
      var found := CheckGate(byId, contents, gates[n]);
      errors := errors + found;
      n := n + 1;
    }
    assert gates[..n] == gates;
  }

  // ----------------------------------------------------------------- the verdict

  predicate ItemOk(evaluated: Option<string>, item: Item) {
    item.live && Some(item.sourceCommit) == evaluated && !Synthetic(item.locator)
  }

  ghost predicate ItemsOk(byId: map<string, Item>, r: Receipt) {
    && (forall id | id in byId :: ItemOk(r.evaluatedCommit, byId[id]))
    && (forall id | id in RequiredIds(r.required) :: id in byId ==> byId[id].inRepository)
    && r.counts.bloggersImported == r.counts.bloggersObserved
  }

  /** The matrix evidence is indexed, is of its kind and, when it is a file, agrees with the receipt down to its scenarios. */
  ghost predicate MatrixOk(checkout: Checkout, byId: map<string, Item>, r: Receipt) {
    && r.matrix.receiptId.Some? && r.matrix.receiptId.value in byId
    && var item := byId[r.matrix.receiptId.value];
    && item.kind == REAL_KAGGLE_MATRIX
    && (item.inRepository ==> MatrixFileOk(checkout, item.locator, r.matrix, r.evaluatedCommit))
  }

  method CheckMatrix(checkout: Checkout, byId: map<string, Item>, r: Receipt) returns (errors: seq<Problem>)
    ensures errors == [] <==> MatrixOk(checkout, byId, r)
  {
    hide MatrixFileOk;
    var id := r.matrix.receiptId;
    if id.None? || id.value !in byId {
      return [Problem("no resolvable matrix evidence", "")];
    }
    var item := byId[id.value];
    if item.kind != REAL_KAGGLE_MATRIX {
      return [Problem("matrix evidence of another kind", item.id)];
    }
    errors := [];
    if item.inRepository {
      errors := CheckMatrixFile(checkout, item.locator, r.matrix, r.evaluatedCommit);
    }
  }

  method CheckItems(byId: map<string, Item>, r: Receipt) returns (errors: seq<Problem>)
    ensures errors == [] <==> ItemsOk(byId, r)
  {
    hide ItemOk, RequiredIds;
    errors := CollectEach(byId.Keys, id => id in byId && ItemOk(r.evaluatedCommit, byId[id]), "stale or synthetic evidence");
    var stored := CollectEach(RequiredIds(r.required), id => id in byId ==> byId[id].inRepository, "not locally verifiable");
    errors := errors + stored;
    errors := errors + Note(r.counts.bloggersImported == r.counts.bloggersObserved, "blogger counts");
  }

  /** What a COMPLETE verdict needs beyond what every receipt needs. */
  ghost predicate CompleteOk(checkout: Checkout, r: Receipt, byId: map<string, Item>, contents: map<string, Content>) {
    && CommitsOk(checkout, r)
    && ReviewOk(checkout, r, contents)
    && DeploymentOk(r.identity, false, Found(contents, r.required.deployment))
    && DeploymentOk(r.identity, true, Found(contents, r.required.postDeploy))
    && GatesComplete(r.gates)
    && AllGatesOk(byId, contents, r.gates)
    && ItemsOk(byId, r)
    && MatrixOk(checkout, byId, r)
  }

  method CheckComplete(checkout: Checkout, r: Receipt, byId: map<string, Item>, contents: map<string, Content>)
    returns (errors: seq<Problem>)
    ensures errors == [] <==> CompleteOk(checkout, r, byId, contents)
  {
    hide *;
    assert CompleteOk(checkout, r, byId, contents) <==>
      && CommitsOk(checkout, r) && ReviewOk(checkout, r, contents)
      && DeploymentOk(r.identity, false, Found(contents, r.required.deployment))
      && DeploymentOk(r.identity, true, Found(contents, r.required.postDeploy))
      && GatesComplete(r.gates) && AllGatesOk(byId, contents, r.gates) && ItemsOk(byId, r) && MatrixOk(checkout, byId, r) by {
      CompleteParts(checkout, r, byId, contents);
    }
    errors := CheckCommits(checkout, r);
    var more := CheckReviews(checkout, r, contents);
    errors := errors + more;
    more := CheckDeployment(r.identity, false, Found(contents, r.required.deployment));
    errors := errors + more;
    more := CheckDeployment(r.identity, true, Found(contents, r.required.postDeploy));
    errors := errors + more;
    more := CheckGateIds(r.gates);
    errors := errors + more;
    more := CheckGates(byId, contents, r.gates);
    errors := errors + more;
    more := CheckItems(byId, r);
    errors := errors + more;
    more := CheckMatrix(checkout, byId, r);
    errors := errors + more;
  }

  lemma CompleteParts(checkout: Checkout, r: Receipt, byId: map<string, Item>, contents: map<string, Content>)
    ensures CompleteOk(checkout, r, byId, contents) <==>
      && CommitsOk(checkout, r) && ReviewOk(checkout, r, contents)
      && DeploymentOk(r.identity, false, Found(contents, r.required.deployment))
      && DeploymentOk(r.identity, true, Found(contents, r.required.postDeploy))
      && GatesComplete(r.gates) && AllGatesOk(byId, contents, r.gates) && ItemsOk(byId, r) && MatrixOk(checkout, byId, r)
  {
  }

  /** The gates a receipt reports as passed. */
  function PassedGates(gates: seq<GateResult>): set<char> { set g | g in gates && g.passed :: g.id }

  /** Everything a completion shows is shown: every gate passed, all evidence cited, a full matrix. */
  predicate ShowsCompletion(r: Receipt) {
    && PassedGates(r.gates) == Elements(GATES)
    && r.required.review != [] && r.required.deployment != [] && r.required.postDeploy != []
    && r.required.security != [] && r.required.integrity != [] && r.required.matrix != []
    && r.matrix.passed == 24 && r.matrix.failed == 0 && r.matrix.blocked == 0
    && |r.matrix.runRefs| >= 15 && |r.matrix.kernelIds| >= 15
  }

  /** What the checker accepts. */
  ghost predicate Accepted(checkout: Checkout, r: Receipt, allowComplete: bool) {
    var byId, contents := ById(r.evidence), ContentById(checkout.files, r.evidence);
    && (r.verdict == COMPLETE ==> allowComplete)
    && IndexOk(checkout, r.evidence)
    && Cited(r) <= byId.Keys
    && KindsOk(byId, RequiredKinds(r.required))
    && CountsOk(r.matrix, r.counts)
    && (r.verdict == COMPLETE ==> CompleteOk(checkout, r, byId, contents))
    && (r.verdict == BLOCKED ==> !ShowsCompletion(r))
  }

  method ValidateReceipt(checkout: Checkout, r: Receipt, allowComplete: bool) returns (errors: seq<Problem>)
    ensures errors == [] <==> Accepted(checkout, r, allowComplete)
  {
    hide ById, ContentById, IndexOk, Cited, KindsOk, RequiredKinds, CountsOk, CompleteOk, ShowsCompletion;
    errors := Note(r.verdict == COMPLETE ==> allowComplete, "synthetic receipts may not be COMPLETE");
    var byId, contents, more := IndexEvidence(checkout, r.evidence);
    errors := errors + more;
    var referenced := References(r);
    more := CollectEach(referenced - byId.Keys, id => false, "unknown evidence_id");
    assert more == [] <==> referenced <= byId.Keys by {
      NothingMissing(referenced, byId.Keys);
      assert more == [] ==> forall x :: x !in referenced - byId.Keys;
    }
    errors := errors + more;
    more := CheckKinds(byId, RequiredKinds(r.required));
    errors := errors + more;
    more := CheckCounts(r.matrix, r.counts);
    errors := errors + more;
    if r.verdict == COMPLETE {
      more := CheckComplete(checkout, r, byId, contents);
      errors := errors + more;
    } else if r.verdict == BLOCKED {
      errors := errors + Note(!ShowsCompletion(r), "BLOCKED receipt presents everything as complete");
    }
  }

  // ----------------------------------------------------------------- what it means

  /** An indexed id stands for exactly one entry, and an entry has content exactly when its file was verified. */
  lemma {:induction false} IndexMeans(checkout: Checkout, items: seq<Item>, id: string)
    requires Distinct(Ids(items))
    ensures id in ById(items) ==> multiset(Ids(items))[id] == 1
    ensures id in ContentById(checkout.files, items) ==>
              id in ById(items) && Readable(checkout.files, ById(items)[id])
    ensures id in ContentById(checkout.files, items) ==>
              Some(ContentById(checkout.files, items)[id]) == checkout.files[ById(items)[id].locator].json
    decreases |items|
  {
    hide Readable;
    ByIdMeans(items, id);
    if multiset(Ids(items))[id] >= 2 {
      Twice(Ids(items), id);
    }
    if items != [] {
      var n := |items| - 1;
      assert Ids(items[..n]) == Ids(items)[..n];
      IndexMeans(checkout, items[..n], id);
      ReadableJson(checkout.files, items[n]);
    }
  }

  lemma ReadableJson(files: map<string, File>, item: Item)
    ensures Readable(files, item) ==> item.locator in files && files[item.locator].json.Some?
  {
  }

  /** The entry at `i` is verified evidence of the gate: digest, content and scope all agree. */
  ghost predicate Evidences(checkout: Checkout, r: Receipt, gate: char, id: string, i: nat) {
    && i < |r.evidence| && r.evidence[i].id == id
    && Readable(checkout.files, r.evidence[i])
    && Matches(checkout, r.evidence[i], checkout.files[r.evidence[i].locator].json.value)
    && gate in r.evidence[i].gateIds && r.evidence[i].requirementIds != []
  }

  lemma EntryOf(items: seq<Item>, id: string) returns (i: nat)
    requires id in ById(items)
    ensures i < |items| && items[i].id == id && ById(items)[id] == items[i]
  {
    ByIdMeans(items, id);
    i :| 0 <= i < |items| && items[i] == ById(items)[id];
  }

  /** Whatever a gate of an accepted COMPLETE receipt cites is one entry of verified evidence in that gate's scope. */
  lemma GateEvidence(checkout: Checkout, r: Receipt, allowComplete: bool, k: nat, id: string) returns (i: nat)
    requires Accepted(checkout, r, allowComplete) && r.verdict == COMPLETE
    requires k < |r.gates| && id in r.gates[k].refs
    ensures Evidences(checkout, r, r.gates[k].id, id, i)
    ensures ById(r.evidence)[id] == r.evidence[i]
  {
    hide CommitsOk, ReviewOk, DeploymentOk, GatesComplete, ItemsOk, MatrixOk, ShowsCompletion, KindsOk, CountsOk, Readable, Matches, Carries;
    var byId, contents := ById(r.evidence), ContentById(checkout.files, r.evidence);
    assert id in byId by { CitedByGate(r, k, id); }
    assert GateOk(byId, contents, r.gates[k]);
    i := EntryOf(r.evidence, id);
    IndexMeans(checkout, r.evidence, id);
    assert InScope(contents, r.gates[k].id, byId[id]);
    assert Backed(checkout, r.evidence[i]);
    ReadableInRepository(checkout.files, r.evidence[i]);
  }

  lemma ReadableInRepository(files: map<string, File>, item: Item)
    ensures Readable(files, item) ==> item.inRepository
  {
  }

  lemma CitedByGate(r: Receipt, k: nat, id: string)
    requires k < |r.gates| && id in r.gates[k].refs
    ensures id in Cited(r)
  {
    assert r.gates[k] in r.gates;
    assert id in GateRefs(r.gates);
  }

  /** The kinds of evidence that may carry each gate. */
  predicate Suits(gate: char, kind: Kind) {
    && 'A' <= gate <= 'N'
    && ('A' <= gate <= 'H' ==> kind == REAL_KAGGLE_MATRIX || kind == GATE_EVIDENCE)
    && (gate == 'I' ==> kind == SECURITY_AUDIT)
    && (gate == 'J' || gate == 'K' ==> kind == DATA_INTEGRITY_AUDIT)
    && (gate == 'L' ==> kind == CONNECTOR_DURABILITY)
    && (gate == 'M' ==> kind == DEPLOYMENT || kind == POST_DEPLOY)
    && (gate == 'N' ==> kind == IMPLEMENTATION_REVIEW || kind == POST_DEPLOY)
  }

  lemma PermittedSuits(gate: char, kind: Kind)
    ensures kind in Permitted(gate) <==> Suits(gate, kind)
  {
  }

  /** Every gate of an accepted COMPLETE receipt is carried by verified evidence of a kind permitted for it. */
  lemma GateCarried(checkout: Checkout, r: Receipt, allowComplete: bool, k: nat) returns (id: string, i: nat)
    requires Accepted(checkout, r, allowComplete) && r.verdict == COMPLETE && k < |r.gates|
    ensures id in r.gates[k].refs && Evidences(checkout, r, r.gates[k].id, id, i)
    ensures Suits(r.gates[k].id, r.evidence[i].kind)
  {
    var byId, contents := ById(r.evidence), ContentById(checkout.files, r.evidence);
    assert GateOk(byId, contents, r.gates[k]) by {
      hide CommitsOk, ReviewOk, DeploymentOk, GatesComplete, ItemsOk, MatrixOk, ShowsCompletion, KindsOk, CountsOk, GateOk, IndexOk, Cited;
    }
    id :| id in r.gates[k].refs && Carries(byId, contents, r.gates[k].id, id);
    i := GateEvidence(checkout, r, allowComplete, k, id);
    hide Permitted, Suits;
    PermittedSuits(r.gates[k].id, r.evidence[i].kind);
  }

  /**
   * An accepted COMPLETE receipt cites every evidence id as exactly one index entry, has each gate A to N once, and
   * binds its evidence, merge, deployment and post-deployment check to the commit of the checkout.
   */
  lemma AcceptedMeans(checkout: Checkout, r: Receipt, allowComplete: bool)
    requires Accepted(checkout, r, allowComplete) && r.verdict == COMPLETE
    ensures forall id | id in Cited(r) :: multiset(Ids(r.evidence))[id] == 1
    ensures forall g :: multiset(GateIds(r.gates))[g] == if 'A' <= g <= 'N' then 1 else 0
    ensures checkout.commit.Some? && r.identity.merge == checkout.commit
    ensures r.identity.deployed == checkout.commit && r.identity.postDeploy == checkout.commit
    ensures forall i | 0 <= i < |r.evidence| ::
              Some(r.evidence[i].sourceCommit) == checkout.commit && r.evidence[i].live && !Synthetic(r.evidence[i].locator)
  {
    hide ReviewOk, DeploymentOk, AllGatesOk, MatrixOk, ShowsCompletion, KindsOk, CountsOk, Backed, Synthetic, Cited, ContentById, ById;
    var byId := ById(r.evidence);
    forall id | id in Cited(r) ensures multiset(Ids(r.evidence))[id] == 1 {
      IndexMeans(checkout, r.evidence, id);
    }
    forall i | 0 <= i < |r.evidence| ensures ItemOk(checkout.commit, r.evidence[i]) {
      OnlyEntry(r.evidence, i);
      assert ItemOk(r.evaluatedCommit, byId[r.evidence[i].id]);
    }
  }

  /**
   * The run refs and kernel ids of an accepted COMPLETE receipt whose matrix evidence is a file are exactly those of its
   * scenario receipts, each of which is a live PASS on the commit of the checkout.
   */
  lemma MatrixRunsAreScenarios(checkout: Checkout, r: Receipt, allowComplete: bool) returns (i: nat, x: MatrixReceipt)
    requires Accepted(checkout, r, allowComplete) && r.verdict == COMPLETE && r.matrix.receiptId.Some?
    requires r.matrix.receiptId.value in ById(r.evidence) && ById(r.evidence)[r.matrix.receiptId.value].inRepository
    ensures i < |r.evidence| && r.matrix.receiptId == Some(r.evidence[i].id) && Readable(checkout.files, r.evidence[i])
    ensures checkout.files[r.evidence[i].locator].json.value.matrix == Some(x)
    ensures RunRefs(checkout, r.evidence[i].locator, x.scenarios) == Elements(r.matrix.runRefs)
    ensures KernelIds(checkout, r.evidence[i].locator, x.scenarios) == Elements(r.matrix.kernelIds)
    ensures forall s | s in x.scenarios :: ScenarioOk(checkout, r.evidence[i].locator, checkout.commit, s)
  {
    hide ReviewOk, DeploymentOk, AllGatesOk, ShowsCompletion, KindsOk, CountsOk, ItemsOk, Cited, ContentById, ById;
    hide GatesComplete, RunRefs, KernelIds, ScenarioOk, Elements, Matches, Unsafe, SchemaFor;
    i := EntryOf(r.evidence, r.matrix.receiptId.value);
    var item := r.evidence[i];
    assert item in r.evidence && Backed(checkout, r.evidence[i]);
    assert MatrixFileOk(checkout, item.locator, r.matrix, r.evaluatedCommit);
    x := checkout.files[item.locator].json.value.matrix.value;
  }

  lemma SamePlace(ids: seq<string>, i: nat, j: nat)
    requires Distinct(ids) && i < |ids| && j < |ids| && ids[i] == ids[j]
    ensures i == j
  {
  }

  lemma OnlyEntry(items: seq<Item>, i: nat)
    requires Distinct(Ids(items)) && i < |items|
    ensures items[i].id in ById(items) && ById(items)[items[i].id] == items[i]
  {
    hide ById, Distinct;
    assert Ids(items)[i] == items[i].id;
    ByIdMeans(items, items[i].id);
    var j := EntryOf(items, items[i].id);
    SamePlace(Ids(items), i, j);
  }
}
