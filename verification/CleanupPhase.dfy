/** The RECONCILE and CLEANUP phases: read-only comparison, and one claim-bound deletion. */
module CleanupPhase {
  import opened Prelude
  import opened Gateway
  import opened MasterScenario
  import ClaimLifecycle

  /** The binding that the outer runner reconciled. */
  datatype Binding = Binding(claimTask: Option<string>, claimSha256: Option<string>, carrier: Carrier)

  /** What a Notebook receipt says, once it has passed typed validation. */
  datatype Locator = Locator(claimSha256: string, providerRef: string, runRef: string, kernelId: int, sourceVersion: int, sourceSha256: string)

  /**
   * Digests and the library's value checks: the integer a JSON value is accepted as, and whether a text has the shape
   * of a resource or of a run reference.
   */
  datatype Readers = Readers(
    parsers: Parsers, sha256: Json -> string, integer: Json -> Option<int>, refShape: string -> bool, runShape: string -> bool)

  // ------------------------------------------------------------- the claim

  predicate ExactClaim(c: Fields, req: Request, task: string, cleanupState: string) {
    && Get(c, "found") == Bool(true) && Get(c, "scenario_id") == Str(req.requirement)
    && Get(c, "task_id") == Str(task) && Get(c, "state") == Str("SUCCEEDED")
    && Get(c, "failure_code") == Null && Get(c, "mutation_started") == Bool(true)
    && Get(c, "cleanup_state") == Str(cleanupState) && Get(c, "bounded") == Bool(true)
  }

  function FirstOf(item: Json, eventType: string): seq<Fields> {
    if item.Obj? && Get(item.fields, "event_type") == Str(eventType) then [item.fields] else []
  }

  function OfType(items: seq<Json>, eventType: string): seq<Fields> {
    if items == [] then [] else FirstOf(items[0], eventType) + OfType(items[1..], eventType)
  }

  /** The one receipt of a type in a claim, with a matching digest. */
  function OneEvidence(rd: Readers, c: Fields, eventType: string): Option<Fields> {
    if !Get(c, "evidence").Arr? then None else
    var matches := OfType(c["evidence"].items, eventType);
    if |matches| != 1 then None else
    var value := Get(matches[0], "evidence");
    if value.Obj? && Get(matches[0], "evidence_sha256") == Str(rd.sha256(value)) then Some(value.fields) else None
  }

  const RESULT_FILE := "operational-result.json"
  const OUTPUT_RECEIPT := "output_receipt_sha256"

  /** The output receipt belongs to the Notebook run and carries its own digest. */
  predicate OutputMatches(rd: Readers, notebook: Fields, output: Fields) {
    && Get(notebook, "terminal_state") == Str("complete")
    && Get(output, "provider_run_ref") == Get(notebook, "provider_run_ref")
    && Get(output, "output_file_name") == Str(RESULT_FILE) && EqualsInt(Get(output, "file_count"), 1)
    && Get(output, OUTPUT_RECEIPT) == Str(rd.sha256(Obj(output - {OUTPUT_RECEIPT})))
    && "output_file_sha256" in output && "output_tree_sha256" in output
  }

  predicate Sha(v: Json) { v.Str? && LowerHex(v.s, 64) }

  predicate Positive(v: Option<int>) { v.Some? && v.value >= 1 }

  predicate Fingerprint(v: Json) {
    v.Obj? && v.fields.Keys == {"algorithm", "value"} && v.fields["algorithm"] == Str("sha256") && Sha(v.fields["value"])
  }

  /** The typed locator of a Notebook receipt. */
  function LocatorOf(rd: Readers, n: Fields): Option<Locator> {
    var kernel, version := rd.integer(Get(n, "provider_kernel_id")), rd.integer(Get(n, "source_version"));
    var ref, run := Get(n, "provider_ref"), Get(n, "provider_run_ref");
    if Sha(Get(n, "claim_sha256")) && ref.Str? && rd.refShape(ref.s) && run.Str? && rd.runShape(run.s)
       && Positive(kernel) && Positive(version) && Sha(Get(n, "source_sha256")) && Fingerprint(Get(n, "fingerprint"))
    then Some(Locator(Get(n, "claim_sha256").s, ref.s, run.s, kernel.value, version.value, Get(n, "source_sha256").s))
    else None
  }

  /** The binding rebuilt from a durable claim. */
  function ClaimBinding(rd: Readers, req: Request, task: string, c: Fields, cleanupState: string): Option<Binding> {
    if !ExactClaim(c, req, task, cleanupState) then None else
    var notebook := OneEvidence(rd, c, "PROVIDER_NOTEBOOK");
    var output := OneEvidence(rd, c, "OUTPUT_READ");
    if notebook.None? || output.None? then None else
    if Get(notebook.value, "task_run_id") != Str(req.taskRun) || !OutputMatches(rd, notebook.value, output.value)
       || !Get(notebook.value, "fingerprint").Obj? then None else
    var l := LocatorOf(rd, notebook.value);
    if l.None? then None else
    Some(Binding(Some(task), Some(l.value.claimSha256),
      Carrier(l.value.providerRef, l.value.runRef, l.value.kernelId, l.value.sourceVersion, l.value.sourceSha256,
              Some(Text(output.value[OUTPUT_RECEIPT])), Some(Text(output.value["output_file_sha256"])),
              Some(Text(output.value["output_tree_sha256"])))))
  }

  /** The states in which a finished claim can be rebuilt. */
  predicate CleanupStates(state: string) { state == "PENDING" || state == "COMPLETE" }

  predicate Rebuilds(rd: Readers, req: Request, b: Binding, c: Fields) {
    b.claimTask.Some? && Get(c, "cleanup_state").Str? && CleanupStates(c["cleanup_state"].s) &&
    ClaimBinding(rd, req, b.claimTask.value, c, c["cleanup_state"].s) == Some(b)
  }

  /** The claim is observed as deleted, by a receipt that names the same claim. */
  predicate ObservedComplete(rd: Readers, req: Request, b: Binding, c: Fields) {
    && b.claimTask.Some? && b.claimSha256.Some?
    && ExactClaim(c, req, b.claimTask.value, "COMPLETE")
    && OneEvidence(rd, c, "CLEANUP").Some?
    && Get(OneEvidence(rd, c, "CLEANUP").value, "claim_sha256") == Str(b.claimSha256.value)
  }

  function ClaimGet(req: Request, task: string): Call { ClaimLifecycle.ClaimGet(req.requirement, task) }

  function CleanupArguments(req: Request, b: Binding): Fields
    requires b.claimTask.Some? && b.claimSha256.Some? && b.carrier.outputReceipt.Some?
  {
    map["scenario_id" := Str(req.requirement),
        "task_id" := Str(b.claimTask.value),
        "claim_sha256" := Str(b.claimSha256.value),
        "provider_run_ref" := Str(b.carrier.runRef),
        "output_receipt_sha256" := Str(b.carrier.outputReceipt.value),
        "idempotency_key" := Str("operational:" + req.matrixId + ":" + req.requirement + ":cleanup")]
  }

  // ------------------------------------------------------- what a claim rebuilds

  /** Item `i` is the only one of its type. */
  ghost predicate OnlyAt(items: seq<Json>, eventType: string, i: nat) {
    && i < |items| && Typed(items[i], eventType)
    && forall j | 0 <= j < |items| && Typed(items[j], eventType) :: j == i
  }

  predicate Typed(item: Json, eventType: string) { item.Obj? && Get(item.fields, "event_type") == Str(eventType) }

  lemma {:induction false} OfTypeNone(items: seq<Json>, eventType: string)
    ensures OfType(items, eventType) == [] <==> forall j | 0 <= j < |items| :: !Typed(items[j], eventType)
    decreases |items|
  {
    if items != [] {
      OfTypeNone(items[1..], eventType);
      assert forall j | 1 <= j < |items| :: items[j] == items[1..][j - 1];
    }
  }

  lemma {:induction false} OfTypeOne(items: seq<Json>, eventType: string) returns (i: nat)
    requires |OfType(items, eventType)| == 1
    ensures OnlyAt(items, eventType, i) && OfType(items, eventType) == [items[i].fields]
    decreases |items|
  {
    assert forall j | 1 <= j < |items| :: items[j] == items[1..][j - 1];
    if Typed(items[0], eventType) {
      i := 0;
      OfTypeNone(items[1..], eventType);
    } else {
      var k := OfTypeOne(items[1..], eventType);
      i := k + 1;
    }
  }

  /** The one receipt of a type is at the only item of that type, which carries it with its digest. */
  lemma OneEvidenceMeans(rd: Readers, c: Fields, eventType: string) returns (i: nat)
    requires OneEvidence(rd, c, eventType).Some?
    ensures Get(c, "evidence").Arr? && OnlyAt(c["evidence"].items, eventType, i)
    ensures
      var value, item := Obj(OneEvidence(rd, c, eventType).value), c["evidence"].items[i].fields;
      Get(item, "evidence") == value && Get(item, "evidence_sha256") == Str(rd.sha256(value))
  {
    i := OfTypeOne(c["evidence"].items, eventType);
  }

  /** Each field of a rebuilt binding is the named field of the claim or of its one Notebook or output receipt. */
  lemma RebuildsMeans(rd: Readers, req: Request, b: Binding, c: Fields)
    requires Rebuilds(rd, req, b, c)
    ensures OneEvidence(rd, c, "PROVIDER_NOTEBOOK").Some? && OneEvidence(rd, c, "OUTPUT_READ").Some?
    ensures b.claimTask.Some? && Get(c, "task_id") == Str(b.claimTask.value)
    ensures
      var n, o := OneEvidence(rd, c, "PROVIDER_NOTEBOOK").value, OneEvidence(rd, c, "OUTPUT_READ").value;
      && b.claimSha256.Some? && Get(n, "claim_sha256") == Str(b.claimSha256.value)
      && Get(n, "provider_ref") == Str(b.carrier.providerRef) && Get(n, "provider_run_ref") == Str(b.carrier.runRef)
      && rd.integer(Get(n, "provider_kernel_id")) == Some(b.carrier.kernelId)
      && rd.integer(Get(n, "source_version")) == Some(b.carrier.sourceVersion)
      && Get(n, "source_sha256") == Str(b.carrier.sourceSha256)
      && b.carrier.outputReceipt == Some(Text(Get(o, "output_receipt_sha256")))
      && b.carrier.outputFile == Some(Text(Get(o, "output_file_sha256")))
      && b.carrier.outputTree == Some(Text(Get(o, "output_tree_sha256")))
  {
    hide OneEvidence, Text, Fingerprint, LowerHex, EqualsInt;
  }

  // ------------------------------------------------------- a claim for a binding

  /** A receipt in a claim, with its digest. */
  function Evidence(rd: Readers, eventType: string, value: Fields): Json {
    Obj(map["event_type" := Str(eventType), "evidence" := Obj(value), "evidence_sha256" := Str(rd.sha256(Obj(value)))])
  }

  function NotebookReceipt(req: Request, b: Binding, fingerprint: string): Fields
    requires b.claimSha256.Some?
  {
    map["task_run_id" := Str(req.taskRun), "terminal_state" := Str("complete"),
        "claim_sha256" := Str(b.claimSha256.value), "provider_ref" := Str(b.carrier.providerRef),
        "provider_run_ref" := Str(b.carrier.runRef), "provider_kernel_id" := Int(b.carrier.kernelId),
        "source_version" := Int(b.carrier.sourceVersion), "source_sha256" := Str(b.carrier.sourceSha256),
        "fingerprint" := Obj(map["algorithm" := Str("sha256"), "value" := Str(fingerprint)])]
  }

  /** The output receipt without its own digest. */
  function OutputBody(b: Binding): Fields
    requires b.carrier.outputFile.Some? && b.carrier.outputTree.Some?
  {
    map["provider_run_ref" := Str(b.carrier.runRef), "output_file_name" := Str("operational-result.json"),
        "file_count" := Int(1), "output_file_sha256" := Str(b.carrier.outputFile.value),
        "output_tree_sha256" := Str(b.carrier.outputTree.value)]
  }

  function OutputReceipt(rd: Readers, b: Binding): Fields
    requires b.carrier.outputFile.Some? && b.carrier.outputTree.Some?
  {
    OutputBody(b)["output_receipt_sha256" := Str(rd.sha256(Obj(OutputBody(b))))]
  }

  /** The durable claim of a successful run, with its two receipts. */
  function ClaimFor(rd: Readers, req: Request, b: Binding, fingerprint: string, cleanupState: string): Fields
    requires CleanupRequestable(b)
  {
    map["found" := Bool(true), "scenario_id" := Str(req.requirement), "task_id" := Str(b.claimTask.value),
        "state" := Str("SUCCEEDED"), "failure_code" := Null, "mutation_started" := Bool(true),
        "cleanup_state" := Str(cleanupState), "bounded" := Bool(true),
        "evidence" := Arr([Evidence(rd, "PROVIDER_NOTEBOOK", NotebookReceipt(req, b, fingerprint)),
                           Evidence(rd, "OUTPUT_READ", OutputReceipt(rd, b))])]
  }

  /** A binding whose values have the shapes a provider gives them. */
  predicate Shaped(rd: Readers, b: Binding) {
    && CleanupRequestable(b)
    && LowerHex(b.claimSha256.value, 64) && LowerHex(b.carrier.sourceSha256, 64)
    && rd.refShape(b.carrier.providerRef) && rd.runShape(b.carrier.runRef)
    && b.carrier.kernelId >= 1 && b.carrier.sourceVersion >= 1
    && rd.integer(Int(b.carrier.kernelId)) == Some(b.carrier.kernelId)
    && rd.integer(Int(b.carrier.sourceVersion)) == Some(b.carrier.sourceVersion)
    && b.carrier.outputReceipt == Some(rd.sha256(Obj(OutputBody(b))))
  }

  lemma ReceiptsFound(rd: Readers, req: Request, b: Binding, fingerprint: string, state: string)
    requires CleanupRequestable(b)
    ensures var c := ClaimFor(rd, req, b, fingerprint, state);
      && OneEvidence(rd, c, "PROVIDER_NOTEBOOK") == Some(NotebookReceipt(req, b, fingerprint))
      && OneEvidence(rd, c, "OUTPUT_READ") == Some(OutputReceipt(rd, b))
  {
    hide NotebookReceipt, OutputReceipt;
    var n, o := Evidence(rd, "PROVIDER_NOTEBOOK", NotebookReceipt(req, b, fingerprint)), Evidence(rd, "OUTPUT_READ", OutputReceipt(rd, b));
    var items := [n, o];
    assert items[1..] == [o] && [o][1..] == [];
    assert |"PROVIDER_NOTEBOOK"| != |"OUTPUT_READ"|;
    assert OfType([o], "PROVIDER_NOTEBOOK") == [] && OfType([o], "OUTPUT_READ") == [o.fields] + [];
    assert OfType(items, "PROVIDER_NOTEBOOK") == [n.fields] + [];
    assert OfType(items, "OUTPUT_READ") == [] + [o.fields];
  }

  lemma ClaimExact(rd: Readers, req: Request, b: Binding, fingerprint: string, state: string)
    requires CleanupRequestable(b)
    ensures ExactClaim(ClaimFor(rd, req, b, fingerprint, state), req, b.claimTask.value, state)
  {
    hide Evidence, NotebookReceipt, OutputReceipt;
  }

  lemma NotebookLocated(rd: Readers, req: Request, b: Binding, fingerprint: string)
    requires Shaped(rd, b) && LowerHex(fingerprint, 64)
    ensures LocatorOf(rd, NotebookReceipt(req, b, fingerprint)) ==
      Some(Locator(b.claimSha256.value, b.carrier.providerRef, b.carrier.runRef, b.carrier.kernelId, b.carrier.sourceVersion,
                   b.carrier.sourceSha256))
  {
    hide LowerHex, OutputBody;
  }

  lemma OutputFits(rd: Readers, req: Request, b: Binding, fingerprint: string)
    requires CleanupRequestable(b)
    ensures OutputMatches(rd, NotebookReceipt(req, b, fingerprint), OutputReceipt(rd, b))
    ensures Get(NotebookReceipt(req, b, fingerprint), "task_run_id") == Str(req.taskRun)
    ensures Get(NotebookReceipt(req, b, fingerprint), "fingerprint").Obj?
    ensures var o := OutputReceipt(rd, b);
      && Get(o, "output_receipt_sha256") == Str(rd.sha256(Obj(OutputBody(b))))
      && Get(o, "output_file_sha256") == Str(b.carrier.outputFile.value)
      && Get(o, "output_tree_sha256") == Str(b.carrier.outputTree.value)
  {
    assert OutputReceipt(rd, b) - {OUTPUT_RECEIPT} == OutputBody(b);
  }

  /** The claim of a run rebuilds the binding of that run, in either cleanup state, and no other binding. */
  lemma ClaimRebuilds(rd: Readers, req: Request, b: Binding, fingerprint: string, state: string, other: Binding)
    requires Shaped(rd, b) && LowerHex(fingerprint, 64) && CleanupStates(state)
    ensures Rebuilds(rd, req, other, ClaimFor(rd, req, b, fingerprint, state)) <==> other == b
  {
    ReceiptsFound(rd, req, b, fingerprint, state);
    ClaimExact(rd, req, b, fingerprint, state);
    NotebookLocated(rd, req, b, fingerprint);
    OutputFits(rd, req, b, fingerprint);
    var c := ClaimFor(rd, req, b, fingerprint, state);
    ClaimStates(rd, req, b, fingerprint, state);
    hide ClaimFor, OneEvidence, NotebookReceipt, OutputReceipt, OutputBody, OutputMatches, LocatorOf, LowerHex, ExactClaim, Evidence;
    if Rebuilds(rd, req, other, c) {
      ExactTask(c, req, other.claimTask.value, state);
    }
  }

  lemma ClaimStates(rd: Readers, req: Request, b: Binding, fingerprint: string, state: string)
    requires Shaped(rd, b)
    ensures var c := ClaimFor(rd, req, b, fingerprint, state);
      Get(c, "cleanup_state") == Str(state) && Get(c, "task_id") == Str(b.claimTask.value)
  {
    hide Evidence, NotebookReceipt, OutputReceipt;
  }

  lemma ExactTask(c: Fields, req: Request, task: string, state: string)
    requires ExactClaim(c, req, task, state)
    ensures Get(c, "task_id") == Str(task)
  {
  }

  // ---------------------------------------------------------------- cleanup

  /** The request model admits a CLEANUP phase only with a full claim and output identity. */
  predicate CleanupRequestable(b: Binding) {
    b.claimTask.Some? && b.claimSha256.Some? && b.carrier.outputReceipt.Some? && b.carrier.outputFile.Some? && b.carrier.outputTree.Some?
  }

  /** Right before the deletion, the claim was read and rebuilt exactly the given binding. */
  ghost predicate Authorised(rd: Readers, req: Request, b: Binding, s: Sending)
    requires CleanupRequestable(b)
  {
    && s.sent.call == Tool("provider", "provider.acceptance.claim.cleanup", CleanupArguments(req, b))
    && s.read != [] && var last := s.read[|s.read| - 1];
       last.call == ClaimGet(req, b.claimTask.value) && last.reply.Some? && Rebuilds(rd, req, b, last.reply.value)
  }

  /** Deletes one claim and reports PASS only for a claim that is seen complete. */
  method Cleanup(g: McpGateway, rd: Readers, req: Request, b: Binding) returns (r: Result, ghost after: Fields)
    requires g.Valid() && g.sendings == [] && g.read == [] && CleanupRequestable(b)
    modifies g
    ensures r.outcome == Pass || r.outcome == Fail
    ensures |g.sendings| <= 1 && forall s | s in g.sendings :: Authorised(rd, req, b, s)
    // every deletion that was sent is counted
    ensures |g.sendings| == 1 ==> r.mutationsStarted == 2
    // PASS: the claim was observed complete, in the answer itself or, when that was lost, by reading it back
    ensures r.outcome == Pass ==> |g.sendings| == 1 && ObservedComplete(rd, req, b, after)
    ensures r.outcome == Pass ==>
      g.sendings[0].sent.reply == Some(after) ||
      (g.sendings[0].sent.reply == None && g.read == [Exchange(ClaimGet(req, b.claimTask.value), Some(after))])
  {
    hide ClaimBinding, ObservedComplete, CleanupArguments, ClaimLifecycle.ClaimGet;
    after := *;
    var offered := g.ListTools("provider");
    if offered.None? || !({"provider.acceptance.claim.get", "provider.acceptance.claim.cleanup"} <= offered.value) {
      return Result(Fail, 1), after;
    }
    var before := ClaimLifecycle.ReadClaim(g, req.requirement, b.claimTask.value);
    if before.None? || !Rebuilds(rd, req, b, before.value) {
      return Result(Fail, 2), after;
    }
    var answer := g.CallTool("provider", "provider.acceptance.claim.cleanup", CleanupArguments(req, b));
    if answer.None? {
      answer := ClaimLifecycle.ReadClaim(g, req.requirement, b.claimTask.value);
      if answer.None? {
        return Result(Fail, 2), after;
      }
    }
    after := answer.value;
    return Result(if ObservedComplete(rd, req, b, answer.value) then Pass else Fail, 2), after;
  }

  /** The deletion names the requirement, the task, the claim, the run and the output receipt of the binding. */
  lemma CleanupNames(req: Request, b: Binding)
    requires CleanupRequestable(b)
    ensures var a := CleanupArguments(req, b);
      && a.Keys == {"scenario_id", "task_id", "claim_sha256", "provider_run_ref", "output_receipt_sha256", "idempotency_key"}
      && a["scenario_id"] == Str(req.requirement) && a["task_id"] == Str(b.claimTask.value)
      && a["claim_sha256"] == Str(b.claimSha256.value) && a["provider_run_ref"] == Str(b.carrier.runRef)
      && a["output_receipt_sha256"] == Str(b.carrier.outputReceipt.value)
      && a["idempotency_key"] == Str("operational:" + req.matrixId + ":" + req.requirement + ":cleanup")
  {
  }

  // ------------------------------------------------------ repeating a cleanup

  /** The same claim after its deletion was recorded. */
  function AfterCleanup(c: Fields, receipt: Fields): Fields
    requires Get(c, "evidence").Arr?
  {
    c["cleanup_state" := Str("COMPLETE")]["evidence" := Arr(c["evidence"].items + [Obj(receipt)])]
  }

  lemma {:induction false} OfTypeAppend(items: seq<Json>, receipt: Fields, eventType: string)
    ensures OfType(items + [Obj(receipt)], eventType)
         == OfType(items, eventType) + if Get(receipt, "event_type") == Str(eventType) then [receipt] else []
    decreases |items|
  {
    hide OfType, Get;
    var last := if Get(receipt, "event_type") == Str(eventType) then [receipt] else [];
    if items == [] {
      OfTypeFirst([Obj(receipt)], eventType);
      OfTypeNothing(eventType);
      assert [Obj(receipt)][1..] == [] && items + [Obj(receipt)] == [Obj(receipt)];
      assert last + [] == last && [] + last == last;
    } else {
      var all, rest := items + [Obj(receipt)], OfType(items[1..], eventType);
      assert all[1..] == items[1..] + [Obj(receipt)] && all[0] == items[0];
      OfTypeAppend(items[1..], receipt, eventType);
      OfTypeFirst(all, eventType);
      OfTypeFirst(items, eventType);
      Associate(FirstOf(items[0], eventType), rest, last);
    }
  }

  lemma OfTypeFirst(items: seq<Json>, eventType: string)
    requires items != []
    ensures OfType(items, eventType) == FirstOf(items[0], eventType) + OfType(items[1..], eventType)
  {
    hide Get;
  }

  lemma OfTypeNothing(eventType: string)
    ensures OfType([], eventType) == []
  {
  }

  lemma Associate(a: seq<Fields>, b: seq<Fields>, c: seq<Fields>)
    ensures a + (b + c) == (a + b) + c
  {
  }

  /**
   * Recording the deletion changes neither the rebuilt binding nor its authorisation, so a cleanup
   * whose answer was lost can be repeated, and the recorded claim is the one that is seen complete.
   */
  lemma CleanupRepeatable(rd: Readers, req: Request, b: Binding, c: Fields, receipt: Fields, value: Fields)
    requires b.claimSha256.Some? && Rebuilds(rd, req, b, c)
    requires receipt == map["event_type" := Str("CLEANUP"), "evidence" := Obj(value), "evidence_sha256" := Str(rd.sha256(Obj(value)))]
    requires Get(value, "claim_sha256") == Str(b.claimSha256.value)
    requires Get(c, "evidence").Arr? && OfType(c["evidence"].items, "CLEANUP") == []
    ensures Rebuilds(rd, req, b, AfterCleanup(c, receipt))
    ensures ObservedComplete(rd, req, b, AfterCleanup(c, receipt)) && !ObservedComplete(rd, req, b, c)
  {
    hide OutputMatches, OfType, Text, OneEvidence;
    OneEvidenceKept(rd, c, receipt, "PROVIDER_NOTEBOOK");
    OneEvidenceKept(rd, c, receipt, "OUTPUT_READ");
    OneEvidenceAdded(rd, c, receipt, value);
  }

  lemma OneEvidenceKept(rd: Readers, c: Fields, receipt: Fields, eventType: string)
    requires Get(c, "evidence").Arr? && Get(receipt, "event_type") != Str(eventType)
    ensures OneEvidence(rd, AfterCleanup(c, receipt), eventType) == OneEvidence(rd, c, eventType)
  {
    var items := c["evidence"].items;
    OfTypeAppend(items, receipt, eventType);
    assert OfType(items, eventType) + [] == OfType(items, eventType);
  }

  lemma OneEvidenceAdded(rd: Readers, c: Fields, receipt: Fields, value: Fields)
    requires Get(c, "evidence").Arr? && OfType(c["evidence"].items, "CLEANUP") == []
    requires receipt == map["event_type" := Str("CLEANUP"), "evidence" := Obj(value), "evidence_sha256" := Str(rd.sha256(Obj(value)))]
    ensures OneEvidence(rd, c, "CLEANUP") == None && OneEvidence(rd, AfterCleanup(c, receipt), "CLEANUP") == Some(value)
  {
    OfTypeAppend(c["evidence"].items, receipt, "CLEANUP");
    assert [] + [receipt] == [receipt];
  }

  // -------------------------------------------------------------- reconcile

  /** The reads a reconciliation may make. */
  predicate ReadOnly(req: Request, b: Binding, call: Call) {
    || call == ScenarioStatus(req) || call == MasterStatus() || call == CheckpointStatus()
    || (b.claimTask.Some? && call == ClaimGet(req, b.claimTask.value))
  }

  /** `now` continues `was` by reads alone. */
  ghost predicate OnlyReads(req: Request, b: Binding, was: seq<Exchange>, now: seq<Exchange>) {
    was <= now && forall i | |was| <= i < |now| :: ReadOnly(req, b, now[i].call)
  }

  /** The carrier of the status that was answered, with the master and checkpoint read right after it, is the binding. */
  ghost predicate CarrierMatches(rd: Readers, req: Request, b: Binding, log: seq<Exchange>, p: Proof) {
    && PassReads(req, log, p)
    && log[|log| - |FinalReads(req, p)| - 1].call == ScenarioStatus(req)
    && PassEvidence(rd.parsers, req, p.status, p.target, p.master, p.checkpoint)
    && b == Binding(None, None, rd.parsers.carrier(req, p.status, p.master, p.checkpoint).value)
  }

  /** Compares the durable evidence with the binding; every call is a read. */
  method Reconcile(g: McpGateway, rd: Readers, req: Request, b: Binding)
    returns (r: Result, ghost seen: Fields, ghost proof: Proof)
    requires g.Valid() && g.sendings == []
    modifies g
    ensures g.sendings == [] && OnlyReads(req, b, old(g.log), g.log)
    ensures r.outcome == Pass || r.outcome == Fail
    // for a master scenario PASS means that the evidence read last carries exactly the binding
    ensures r.outcome == Pass && req.requirement in MASTER_REQUIREMENTS ==> CarrierMatches(rd, req, b, g.log, proof)
    // otherwise PASS means that the claim which was read rebuilds the binding
    ensures r.outcome == Pass && req.requirement !in MASTER_REQUIREMENTS ==> Rebuilds(rd, req, b, seen)
    ensures r.outcome == Pass && req.requirement !in MASTER_REQUIREMENTS ==>
              g.log == old(g.log) + [Exchange(ClaimGet(req, b.claimTask.value), Some(seen))]
  {
    hide CarrierMatches, Rebuilds, OnlyReads;
    seen, proof := *, *;
    if req.requirement in MASTER_REQUIREMENTS {
      r, proof := ReconcileMaster(g, rd, req, b);
    } else {
      r, seen := ReconcileClaim(g, rd, req, b);
    }
  }

  method ReconcileMaster(g: McpGateway, rd: Readers, req: Request, b: Binding) returns (r: Result, ghost proof: Proof)
    requires g.Valid() && g.sendings == []
    modifies g
    ensures g.Valid() && g.sendings == [] && OnlyReads(req, b, old(g.log), g.log)
    ensures r.outcome == Pass || r.outcome == Fail
    ensures r.outcome == Pass ==> CarrierMatches(rd, req, b, g.log, proof)
  {
    hide StatusIdentity, PassReads, FinalReads;
    proof := *;
    var operator := g.ListTools("operator");
    if operator.None? || "acceptance.scenario.status" !in operator.value {
      return FAILED, proof;
    }
    var reader := g.ListTools("reader");
    if reader.None? || !(RequiredTools(req, "reader") <= reader.value) {
      return FAILED, proof;
    }
    var status := g.CallTool("operator", "acceptance.scenario.status", map["task_id" := Str(req.taskRun)]);
    if status.None? {
      return FAILED, proof;
    }
    var target := rd.parsers.uuid(Text(Get(status.value, "target_operation_id")));
    if target.None? {
      return FAILED, proof;
    }
    ghost var answered := g.log;
    var carrier;
    carrier, proof := Conclude(g, rd.parsers, req, target, status.value);
    if carrier.None? || b != Binding(None, None, carrier.value) {
      return FAILED, proof;
    }
    ReadsAfter(req, answered, proof);
    assert g.log[|answered| - 1] == answered[|answered| - 1];
    return Result(Pass, 1), proof;
  }

  method ReconcileClaim(g: McpGateway, rd: Readers, req: Request, b: Binding) returns (r: Result, ghost seen: Fields)
    requires g.Valid() && g.sendings == []
    modifies g
    ensures g.Valid() && g.sendings == [] && OnlyReads(req, b, old(g.log), g.log)
    ensures r.outcome == Pass || r.outcome == Fail
    ensures r.outcome == Pass ==> Rebuilds(rd, req, b, seen)
    ensures r.outcome == Pass ==> g.log == old(g.log) + [Exchange(ClaimGet(req, b.claimTask.value), Some(seen))]
  {
    hide ClaimBinding;
    seen := *;
    var offered := g.ListTools("provider");
    if offered.None? || "provider.acceptance.claim.get" !in offered.value || b.claimTask.None? || b.claimSha256.None? {
      return FAILED, seen;
    }
    var claim := ClaimLifecycle.ReadClaim(g, req.requirement, b.claimTask.value);
    if claim.None? {
      return FAILED, seen;
    }
    seen := claim.value;
    return if Rebuilds(rd, req, b, claim.value) then Result(Pass, 1) else FAILED, seen;
  }
}
