/** The matrix receipt behind a completion receipt, and the scenario receipts beside it. */
module ReceiptMatrix {
  import opened Prelude
  import opened ReceiptEvidence

  // ------------------------------------------------------------- scenario receipts

  /** The named scenario receipt is there, readable and valid. */
  predicate Reached(checkout: Checkout, locator: string, s: Summary) {
    && (locator, s.receipt) in checkout.scenarios && checkout.scenarios[(locator, s.receipt)].Some?
    && checkout.scenarioValid(checkout.scenarios[(locator, s.receipt)].value)
  }

  function At(checkout: Checkout, locator: string, s: Summary): ScenarioReceipt
    requires Reached(checkout, locator, s)
  {
    checkout.scenarios[(locator, s.receipt)].value
  }

  /** A live PASS of the summarised scenario on the evaluated commit. */
  predicate Confirms(x: ScenarioReceipt, s: Summary, commit: Option<string>) {
    && x.ordinal == s.ordinal && x.requirement == s.requirement && x.scenario == s.scenario
    && x.passed && x.live && x.commitSha == commit
  }

  predicate ScenarioOk(checkout: Checkout, locator: string, commit: Option<string>, s: Summary) {
    Reached(checkout, locator, s) && Confirms(At(checkout, locator, s), s, commit)
  }

  /** The provider runs the reached receipts name. */
  function RunRefs(checkout: Checkout, locator: string, summaries: seq<Summary>): set<string> {
    set s | s in summaries && Reached(checkout, locator, s) && At(checkout, locator, s).runRef.Some?
      :: At(checkout, locator, s).runRef.value
  }

  function KernelIds(checkout: Checkout, locator: string, summaries: seq<Summary>): set<int> {
    set s | s in summaries && Reached(checkout, locator, s) && At(checkout, locator, s).kernelId.Some?
      :: At(checkout, locator, s).kernelId.value
  }

  ghost predicate AllScenariosOk(checkout: Checkout, locator: string, commit: Option<string>, summaries: seq<Summary>) {
    forall i | 0 <= i < |summaries| :: ScenarioOk(checkout, locator, commit, summaries[i])
  }

  lemma OneMoreRun(checkout: Checkout, locator: string, summaries: seq<Summary>, n: nat)
    requires n < |summaries|
    ensures
      var s := summaries[n];
      && RunRefs(checkout, locator, summaries[..n + 1]) == RunRefs(checkout, locator, summaries[..n])
           + (if Reached(checkout, locator, s) && At(checkout, locator, s).runRef.Some?
              then {At(checkout, locator, s).runRef.value} else {})
      && KernelIds(checkout, locator, summaries[..n + 1]) == KernelIds(checkout, locator, summaries[..n])
           + (if Reached(checkout, locator, s) && At(checkout, locator, s).kernelId.Some?
              then {At(checkout, locator, s).kernelId.value} else {})
  {
    hide Reached;
    assert summaries[..n + 1] == summaries[..n] + [summaries[n]];
  }

  /** The loop over the summaries: an unreachable receipt is an error and names no run. */
  method CheckScenarios(checkout: Checkout, locator: string, commit: Option<string>, summaries: seq<Summary>)
    returns (errors: seq<Problem>, runRefs: set<string>, kernelIds: set<int>)
    ensures errors == [] <==> AllScenariosOk(checkout, locator, commit, summaries)
    ensures runRefs == RunRefs(checkout, locator, summaries) && kernelIds == KernelIds(checkout, locator, summaries)
  {
    hide RunRefs, KernelIds, Confirms;
    errors, runRefs, kernelIds := [], {}, {};
    var n := 0;
    assert RunRefs(checkout, locator, summaries[..0]) == {} && KernelIds(checkout, locator, summaries[..0]) == {} by {
      NoRuns(checkout, locator);
    }
    while n < |summaries|
      invariant n <= |summaries|
      invariant errors == [] <==> AllScenariosOk(checkout, locator, commit, summaries[..n])
      invariant runRefs == RunRefs(checkout, locator, summaries[..n])
      invariant kernelIds == KernelIds(checkout, locator, summaries[..n])
    {
      var s := summaries[n];
      OneMoreRun(checkout, locator, summaries, n);
      assert summaries[..n + 1] == summaries[..n] + [s];
      if !Reached(checkout, locator, s) {
        errors := errors + [Problem("scenario evidence is absent or invalid", s.receipt)];
      } else {
        var x := At(checkout, locator, s);
        errors := errors + Note(Confirms(x, s, commit), "scenario evidence is inconsistent");
        if x.runRef.Some? {
          runRefs := runRefs + {x.runRef.value};
        }
        if x.kernelId.Some? {
          kernelIds := kernelIds + {x.kernelId.value};
        }
      }
      n := n + 1;
    }
    assert summaries[..n] == summaries;
  }

  lemma NoRuns(checkout: Checkout, locator: string)
    ensures RunRefs(checkout, locator, []) == {} && KernelIds(checkout, locator, []) == {}
  {
  }

  // --------------------------------------------------------------- matrix receipt

  /** The matrix receipt says what the completion receipt says about the matrix. */
  predicate Agrees(content: Content, m: Matrix, commit: Option<string>) {
    && content.matrix.Some?
    && var x := content.matrix.value;
    && content.commitSha == commit && content.passed && x.live && x.planned == 24
    && x.passed == m.passed && x.failed == m.failed && x.blocked == m.blocked
    && x.runRefs == m.runRefs && x.kernelIds == m.kernelIds && x.lifecycle == m.lifecycle
  }

  /** The matrix receipt at a locator is valid, agrees with the completion receipt, and so do its scenario receipts. */
  ghost predicate MatrixFileOk(checkout: Checkout, locator: string, m: Matrix, commit: Option<string>) {
    locator in checkout.files ==>
      && checkout.files[locator].json.Some?
      && var content := checkout.files[locator].json.value;
      && checkout.matrixSchemas && checkout.schemaValid(SchemaFor(REAL_KAGGLE_MATRIX), content)
      && Agrees(content, m, commit)
      && AllScenariosOk(checkout, locator, commit, content.matrix.value.scenarios)
      && RunRefs(checkout, locator, content.matrix.value.scenarios) == Elements(m.runRefs)
      && KernelIds(checkout, locator, content.matrix.value.scenarios) == Elements(m.kernelIds)
  }

  method CheckMatrixFile(checkout: Checkout, locator: string, m: Matrix, commit: Option<string>) returns (errors: seq<Problem>)
    ensures errors == [] <==> MatrixFileOk(checkout, locator, m, commit)
  {
    hide SchemaFor, Agrees, AllScenariosOk, RunRefs, KernelIds, Elements;
    if locator !in checkout.files {
      return [];
    }
    if checkout.files[locator].json.None? {
      return [Problem("matrix receipt is not a JSON object", locator)];
    }
    var content := checkout.files[locator].json.value;
    var valid := checkout.schemaValid(SchemaFor(REAL_KAGGLE_MATRIX), content);
    errors := Note(checkout.matrixSchemas, "matrix schemas are absent");
    errors := errors + Note(valid, "matrix receipt violates its schema");
    errors := errors + Note(Agrees(content, m, commit), "matrix receipt differs from the final receipt");
    if checkout.matrixSchemas && valid && content.matrix.Some? {
      var more, runRefs, kernelIds := CheckScenarios(checkout, locator, commit, content.matrix.value.scenarios);
      errors := errors + more;
      errors := errors + Note(runRefs == Elements(m.runRefs), "scenario run identities");
      errors := errors + Note(kernelIds == Elements(m.kernelIds), "scenario kernel ids");
    } else {
      AgreesHasMatrix(content, m, commit);
    }
  }

  lemma AgreesHasMatrix(content: Content, m: Matrix, commit: Option<string>)
    ensures Agrees(content, m, commit) ==> content.matrix.Some?
  {
  }
}
