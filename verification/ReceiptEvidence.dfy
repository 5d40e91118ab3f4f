/** The evidence a completion receipt indexes: its entries, the files behind them and what both must agree on. */
module ReceiptEvidence {
  import opened Prelude

  // -------------------------------------------------------------------- data

  datatype Kind = IMPLEMENTATION_REVIEW | DEPLOYMENT | POST_DEPLOY | SECURITY_AUDIT | DATA_INTEGRITY_AUDIT
                | GATE_EVIDENCE | REAL_KAGGLE_MATRIX | CONNECTOR_DURABILITY

  /** An entry of the evidence index. */
  datatype Item = Item(
    id: string, kind: Kind, inRepository: bool, locator: string, sha256: string, schemaPath: string,
    sourceCommit: string, gateIds: seq<char>, requirementIds: seq<string>, live: bool)

  datatype Runner = Hosted | Devstand | Elsewhere

  datatype Check = Check(name: string, runner: Runner, headCommit: Option<string>)

  datatype Assertion = Assertion(gateId: char, requirementIds: seq<string>)

  datatype Relation = Parent | Ancestor

  /** A JSON object found as evidence. A field it does not have is None, or an empty list. */
  datatype Content = Content(
    evidenceClass: Option<Kind>, sourceCommit: Option<string>, gateIds: seq<char>, requirementIds: seq<string>,
    assertions: seq<Assertion>, checks: seq<Check>, commitSha: Option<string>, passed: bool, durable: bool,
    reviewedHead: Option<string>, merge: Option<string>, relationship: Option<Relation>,
    deployed: Option<string>, postDeploy: Option<string>, clean: bool, matrix: Option<MatrixReceipt>)

  /** How often each lifecycle step was exercised, and how long the soak took. */
  datatype Lifecycle = Lifecycle(
    masterBoots: Option<int>, rotations: Option<int>, terminations: Option<int>, controlPlaneRestarts: Option<int>,
    hostReboots: Option<int>, soakRuns: Option<int>, soakSeconds: Option<int>)

  /** The line of a matrix receipt that names one scenario receipt. */
  datatype Summary = Summary(receipt: string, ordinal: int, requirement: string, scenario: string)

  /** What only a matrix receipt holds. */
  datatype MatrixReceipt = MatrixReceipt(
    live: bool, planned: int, passed: int, failed: int, blocked: int, runRefs: seq<string>, kernelIds: seq<int>,
    lifecycle: Lifecycle, scenarios: seq<Summary>)

  datatype ScenarioReceipt = ScenarioReceipt(
    ordinal: int, requirement: string, scenario: string, passed: bool, live: bool, commitSha: Option<string>,
    runRef: Option<string>, kernelId: Option<int>)

  datatype GateResult = GateResult(id: char, passed: bool, refs: seq<string>)

  datatype Blocker = Blocker(refs: seq<string>)

  datatype Required = Required(
    review: seq<string>, deployment: seq<string>, postDeploy: seq<string>, security: seq<string>,
    integrity: seq<string>, matrix: seq<string>)

  datatype Identity = Identity(
    reviewedHead: Option<string>, merge: Option<string>, deployed: Option<string>, postDeploy: Option<string>)

  datatype Matrix = Matrix(
    receiptId: Option<string>, runRefs: seq<string>, kernelIds: seq<int>, planned: int, passed: int, failed: int, blocked: int,
    lifecycle: Lifecycle)

  datatype Counts = Counts(runIds: int, kernelIds: int, scenariosPassed: int, bloggersImported: int, bloggersObserved: int)

  datatype Verdict = COMPLETE | BLOCKED | OtherVerdict

  datatype Receipt = Receipt(
    verdict: Verdict, evidence: seq<Item>, gates: seq<GateResult>, blockers: seq<Blocker>, required: Required,
    matrix: Matrix, counts: Counts, evaluatedCommit: Option<string>, identity: Identity)

  /** A file of the checkout: its digest, and its content when that is a JSON object. */
  datatype File = File(sha256: string, json: Option<Content>)

  /**
   * The checkout: its files, its commit, its history, and whether content satisfies the schema at a path. A scenario
   * receipt is found by the locator of the matrix receipt it lies beside and its own name; it may be unreadable.
   */
  datatype Checkout = Checkout(
    files: map<string, File>, commit: Option<string>, relation: (string, string) -> Option<Relation>,
    schemaValid: (string, Content) -> bool,
    scenarios: map<(string, string), Option<ScenarioReceipt>>, matrixSchemas: bool, scenarioValid: ScenarioReceipt -> bool)

  /** One reported problem and what it is about. */
  datatype Problem = Problem(section: string, about: string)

  // ------------------------------------------------------------------- texts

  function Parts(path: string): seq<string>
    decreases |path|
  {
    var k := IndexOf(path, '/');
    if k == |path| then [path] else [path[..k]] + Parts(path[k + 1..])
  }

  predicate Unsafe(locator: string) { "/" <= locator || ".." in Parts(locator) }

  function Lower(s: string): string {
    if s == "" then "" else [if 'A' <= s[0] <= 'Z' then (s[0] as int + 32) as char else s[0]] + Lower(s[1..])
  }

  predicate Synthetic(locator: string) { Contains(Lower(locator), "examples/") || Contains(Lower(locator), "synthetic") }

  /** FM01 to FM24. */
  function Requirement(n: nat): string
    requires n < 100
  {
    "FM" + [('0' as int + n / 10) as char, ('0' as int + n % 10) as char]
  }

  function MatrixRequirements(): set<string> { set n: nat | 1 <= n <= 24 :: Requirement(n) }

  function SchemaFor(kind: Kind): string {
    match kind
    case REAL_KAGGLE_MATRIX => "schemas/provider/operational-kaggle-matrix-receipt.v1.schema.json"
    case CONNECTOR_DURABILITY => "schemas/connector-durability-receipt.v1.schema.json"
    case _ => "schemas/operational-mvp-evidence.v1.schema.json"
  }

  // ---------------------------------------------------------- collecting errors

  /** One pass over a list that reports every element failing a test: it reports nothing exactly when none fails. */
  method Collect<T>(xs: seq<T>, ok: T -> bool, section: string, about: T -> string) returns (errors: seq<Problem>)
    ensures errors == [] <==> forall x | x in xs :: ok(x)
  {
    errors := [];
    var n := 0;
    while n < |xs|
      invariant n <= |xs| && (errors == [] <==> forall x | x in xs[..n] :: ok(x))
    {
      assert xs[..n + 1] == xs[..n] + [xs[n]];
      if !ok(xs[n]) {
        errors := errors + [Problem(section, about(xs[n]))];
      }
      n := n + 1;
    }
    assert xs[..n] == xs;
  }

  function Note(ok: bool, section: string): (errors: seq<Problem>)
    ensures errors == [] <==> ok
  {
    if ok then [] else [Problem(section, "")]
  }

  // ------------------------------------------------------- content of evidence

  function Requirements(assertions: seq<Assertion>): set<string> {
    set a, r | a in assertions && r in a.requirementIds :: r
  }

  function AssertedGates(assertions: seq<Assertion>): set<char> { set a | a in assertions :: a.gateId }

  predicate Trusted(c: Check) { c.runner == if c.name == "provider-real" then Devstand else Hosted }

  /** The content repeats the entry's class, commit and scope, and its assertions cover exactly that scope. */
  predicate ScopeMatches(item: Item, content: Content) {
    && content.evidenceClass == Some(item.kind)
    && content.sourceCommit == Some(item.sourceCommit)
    && content.gateIds == item.gateIds && content.requirementIds == item.requirementIds
    && AssertedGates(content.assertions) == Elements(item.gateIds)
    && Requirements(content.assertions) == Elements(item.requirementIds)
    && (forall c | c in content.checks :: Trusted(c))
  }

  /** The content says what the index entry says about it. */
  predicate Matches(checkout: Checkout, item: Item, content: Content) {
    && item.schemaPath == SchemaFor(item.kind)
    && checkout.schemaValid(item.schemaPath, content)
    && match item.kind
       case REAL_KAGGLE_MATRIX =>
         && content.commitSha == Some(item.sourceCommit) && content.passed
         && Elements(item.requirementIds) == MatrixRequirements()
       case CONNECTOR_DURABILITY => content.durable && item.gateIds == ['L']
       case _ => ScopeMatches(item, content)
  }

  method ValidateScope(item: Item, content: Content) returns (errors: seq<Problem>)
    ensures errors == [] <==> ScopeMatches(item, content)
  {
    hide Requirements, AssertedGates, Elements, Trusted;
    errors := Note(content.evidenceClass == Some(item.kind), "content class");
    errors := errors + Note(content.sourceCommit == Some(item.sourceCommit), "content source commit");
    errors := errors + Note(content.gateIds == item.gateIds, "content gate scope");
    errors := errors + Note(content.requirementIds == item.requirementIds, "content requirement scope");
    errors := errors + Note(AssertedGates(content.assertions) == Elements(item.gateIds), "asserted gates");
    errors := errors + Note(Requirements(content.assertions) == Elements(item.requirementIds), "asserted requirements");
    var untrusted := Collect(content.checks, c => Trusted(c), "untrusted runner", (c: Check) => c.name);
    errors := errors + untrusted;
  }

  method ValidateContent(checkout: Checkout, item: Item, content: Content) returns (errors: seq<Problem>)
    ensures errors == [] <==> Matches(checkout, item, content)
  {
    hide MatrixRequirements, SchemaFor, ScopeMatches, Elements;
    if item.schemaPath != SchemaFor(item.kind) {
      return [Problem("schema is not authoritative", item.id)];
    }
    if !checkout.schemaValid(item.schemaPath, content) {
      return [Problem("violates its schema", item.id)];
    }
    match item.kind {
      case REAL_KAGGLE_MATRIX =>
        errors := Note(content.commitSha == Some(item.sourceCommit) && content.passed, "matrix is not a source-bound PASS");
        errors := errors + Note(Elements(item.requirementIds) == MatrixRequirements(), "matrix requirements");
      case CONNECTOR_DURABILITY =>
        errors := Note(content.durable, "connector receipt is not durable");
        errors := errors + Note(item.gateIds == ['L'], "connector receipt scope");
      case _ =>
        errors := ValidateScope(item, content);
    }
  }

  // ----------------------------------------------------------------- the index

  /** The first entry with each id. */
  function ById(items: seq<Item>): map<string, Item> {
    if items == [] then map[]
    else
      var n := |items| - 1;
      var seen := ById(items[..n]);
      if items[n].id in seen then seen else seen[items[n].id := items[n]]
  }

  /** The entry names a file of the checkout that has the declared digest and holds a JSON object. */
  predicate Readable(files: map<string, File>, item: Item) {
    && item.inRepository && !Unsafe(item.locator) && item.locator in files
    && files[item.locator].sha256 == item.sha256 && files[item.locator].json.Some?
  }

  function ContentById(files: map<string, File>, items: seq<Item>): map<string, Content> {
    if items == [] then map[]
    else
      var n := |items| - 1;
      var seen, item := ContentById(files, items[..n]), items[n];
      if item.id in ById(items[..n]) || !Readable(files, item) then seen else seen[item.id := files[item.locator].json.value]
  }

  function Ids(items: seq<Item>): (r: seq<string>)
    ensures |r| == |items| && forall i | 0 <= i < |items| :: r[i] == items[i].id
  {
    seq(|items|, i requires 0 <= i < |items| => items[i].id)
  }

  /** A repository entry has verified content that says what the entry says. */
  predicate Backed(checkout: Checkout, item: Item) {
    item.inRepository ==>
      Readable(checkout.files, item) && Matches(checkout, item, checkout.files[item.locator].json.value)
  }

  ghost predicate IndexOk(checkout: Checkout, items: seq<Item>) {
    Distinct(Ids(items)) && forall i | 0 <= i < |items| :: Backed(checkout, items[i])
  }

  lemma {:induction false} ByIdMeans(items: seq<Item>, id: string)
    ensures id in ById(items) <==> id in Ids(items)
    ensures id in ById(items) ==> ById(items)[id] in items && ById(items)[id].id == id
    decreases |items|
  {
    if items != [] {
      var n := |items| - 1;
      ByIdMeans(items[..n], id);
      assert Ids(items) == Ids(items[..n]) + [items[n].id];
    }
  }

  lemma IndexStep(checkout: Checkout, items: seq<Item>, n: nat)
    requires n < |items|
    ensures IndexOk(checkout, items[..n + 1]) <==>
            IndexOk(checkout, items[..n]) && items[n].id !in ById(items[..n]) && Backed(checkout, items[n])
  {
    hide Backed, ById;
    var front, all := items[..n], items[..n + 1];
    ByIdMeans(front, items[n].id);
    assert Ids(all) == Ids(front) + [items[n].id];
    assert forall i | 0 <= i < n :: all[i] == front[i] && Ids(all)[i] == Ids(front)[i];
    if items[n].id in Ids(front) {
      var i :| 0 <= i < n && Ids(front)[i] == items[n].id;
      assert Ids(all)[i] == Ids(all)[n];
    }
    if IndexOk(checkout, all) {
      assert Backed(checkout, all[n]);
      forall i | 0 <= i < n ensures Backed(checkout, front[i]) {
        assert Backed(checkout, all[i]);
      }
    }
  }

  /** What one index entry contributes: nothing but an error when its id is taken. */
  method IndexItem(checkout: Checkout, item: Item) returns (content: Option<Content>, errors: seq<Problem>)
    ensures errors == [] <==> Backed(checkout, item)
    ensures content.Some? <==> Readable(checkout.files, item)
    ensures content.Some? ==> item.locator in checkout.files && content == checkout.files[item.locator].json
  {
    hide Matches, Unsafe;
    if !item.inRepository {
      return None, [];
    }
    if Unsafe(item.locator) {
      return None, [Problem("unsafe locator", item.id)];
    }
    if item.locator !in checkout.files {
      return None, [Problem("evidence does not exist", item.id)];
    }
    if checkout.files[item.locator].sha256 != item.sha256 {
      return None, [Problem("hash mismatch", item.id)];
    }
    if checkout.files[item.locator].json.None? {
      return None, [Problem("not a JSON object", item.id)];
    }
    content := checkout.files[item.locator].json;
    errors := ValidateContent(checkout, item, content.value);
  }

  method IndexEvidence(checkout: Checkout, items: seq<Item>)
    returns (byId: map<string, Item>, contents: map<string, Content>, errors: seq<Problem>)
    ensures byId == ById(items) && contents == ContentById(checkout.files, items)
    ensures errors == [] <==> IndexOk(checkout, items)
  {
    hide Backed, Readable, Distinct;
    byId, contents, errors := map[], map[], [];
    var n := 0;
    assert IndexOk(checkout, items[..0]) by { EmptyIndex(checkout); }
    while n < |items|
      invariant n <= |items|
      invariant byId == ById(items[..n]) && contents == ContentById(checkout.files, items[..n])
      invariant errors == [] <==> IndexOk(checkout, items[..n])
    {
      var item := items[n];
      assert items[..n + 1][..n] == items[..n];
      IndexStep(checkout, items, n);
      hide IndexOk;
      if item.id in byId {
        errors := errors + [Problem("duplicate evidence_id", item.id)];
      } else {
        byId := byId[item.id := item];
        var content, found := IndexItem(checkout, item);
        if content.Some? {
          contents := contents[item.id := content.value];
        }
        errors := errors + found;
      }
      n := n + 1;
    }
    assert items[..n] == items;
  }

  lemma EmptyIndex(checkout: Checkout)
    ensures IndexOk(checkout, [])
  {
  }
}
