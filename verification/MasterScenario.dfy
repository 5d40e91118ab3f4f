/** EXECUTE of a master acceptance scenario over a gateway that may answer anything or fail. */
module MasterScenario {
  import opened Prelude
  import opened Gateway

  datatype Request = Request(matrixId: string, requirement: string, taskRun: string, commit: string, resumeOnly: bool)

  datatype Outcome = Ready | Pass | Fail | Blocked
  datatype Result = Result(outcome: Outcome, mutationsStarted: nat)

  /** The provider run that carried a scenario. */
  datatype Carrier = Carrier(
    providerRef: string, runRef: string, kernelId: int, sourceVersion: int, sourceSha256: string,
    outputReceipt: Option<string>, outputFile: Option<string>, outputTree: Option<string>)

  /**
   * Parsers that stay uninterpreted: `uuid` gives the canonical text of a UUID; `carrier` is the typed
   * receipt and carrier of a terminal status that agrees with the final master and checkpoint.
   */
  datatype Parsers = Parsers(
    uuid: string -> Option<string>,
    carrier: (Request, Fields, Fields, Option<Fields>) -> Option<Carrier>)

  const MASTER_REQUIREMENTS := {"FM04", "FM07", "FM08", "FM09", "FM10", "FM11", "FM12", "FM24"}
  const PREBOOT := {"FM04", "FM07"}

  // ----------------------------------------------------------- master states

  predicate ExactAbsent(s: Fields) {
    && Get(s, "master_state") == Str("ABSENT")
    && Get(s, "operation_id") == Null && Get(s, "instance_id") == Null && Get(s, "master_epoch") == Null
    && Get(s, "canonical_revision") == Null && Get(s, "lease_expires_at") == Null
    && Get(s, "capabilities") == Arr([])
  }

  predicate ExactActive(s: Fields) {
    && Get(s, "master_state") == Str("ACTIVE")
    && Get(s, "instance_id").Str? && 1 <= |s["instance_id"].s| <= 300
    && Get(s, "master_epoch").Int? && s["master_epoch"].n >= 1
    && Get(s, "canonical_revision").Int? && s["canonical_revision"].n >= 0
    && Get(s, "capabilities").Arr?
  }

  predicate Preboot(req: Request) { req.requirement in PREBOOT }

  predicate Precondition(req: Request, master: Fields) { if Preboot(req) then ExactAbsent(master) else ExactActive(master) }

  // ---------------------------------------------------------- status identity

  /** A status answer is bound to the exact task, and to the target operation when there is one. */
  predicate StatusIdentity(ps: Parsers, req: Request, v: Fields, target: Option<string>) {
    && Get(v, "found") == Bool(true) && Get(v, "bounded") == Bool(true)
    && Get(v, "task_id") == Str(req.taskRun) && Get(v, "scenario_id") == Str(req.requirement)
    && Get(v, "source_revision") == Str(req.commit)
    && Get(v, "state").Str? && v["state"].s in {"PENDING", "BOUND", "CLAIMED", "PASSED", "FAILED"}
    && var op := Get(v, "operation_id");
       var targetOp := Get(v, "target_operation_id");
       if Preboot(req) then
         && op == targetOp
         && (op != Null ==> ps.uuid(Text(op)).Some?)
         && (target.Some? ==> op == Str(target.value))
       else
         target.Some? && op == Str(target.value) && targetOp == Str(target.value)
  }

  predicate TerminalState(v: Fields) { Get(v, "state") == Str("PASSED") || Get(v, "state") == Str("FAILED") }

  /** The typed evidence behind a PASS. */
  predicate PassEvidence(ps: Parsers, req: Request, status: Fields, target: Option<string>, master: Fields, checkpoint: Option<Fields>) {
    && StatusIdentity(ps, req, status, target)
    && Get(status, "state") == Str("PASSED") && Get(status, "failure_code") == Null
    && ps.carrier(req, status, master, checkpoint).Some?
  }

  // ------------------------------------------------------------------- calls

  function MasterStatus(): Call { Tool("reader", "master.status", map[]) }
  function CheckpointStatus(): Call { Tool("reader", "checkpoint.status", map[]) }
  function ScenarioStatus(req: Request): Call {
    Tool("operator", "acceptance.scenario.status", map["task_id" := Str(req.taskRun)])
  }

  function RequestArguments(req: Request, target: Option<string>): Fields {
    var common := map[
      "task_id" := Str(req.taskRun),
      "scenario" := Str(req.requirement),
      "idempotency_key" := Str("operational:" + req.matrixId + ":" + req.requirement + ":master"),
      "source_revision" := Str(req.commit)];
    if target.Some? then common["target_operation_id" := Str(target.value)] else common
  }

  function ScenarioRequest(req: Request, target: Option<string>): Call {
    Tool("operator", "acceptance.scenario.request", RequestArguments(req, target))
  }

  /** The request asks for exactly this task, requirement, commit and target, under the matrix's own key. */
  predicate Names(req: Request, target: Option<string>, call: Call) {
    && call.profile == "operator" && call.tool == "acceptance.scenario.request"
    && Get(call.arguments, "task_id") == Str(req.taskRun)
    && Get(call.arguments, "scenario") == Str(req.requirement)
    && Get(call.arguments, "idempotency_key") == Str("operational:" + req.matrixId + ":" + req.requirement + ":master")
    && Get(call.arguments, "source_revision") == Str(req.commit)
    && (target.Some? ==> Get(call.arguments, "target_operation_id") == Str(target.value))
    && (target.None? ==> "target_operation_id" !in call.arguments)
    && call.arguments.Keys <= {"task_id", "scenario", "idempotency_key", "source_revision", "target_operation_id"}
  }

  lemma RequestNames(req: Request, target: Option<string>)
    ensures Names(req, target, ScenarioRequest(req, target))
  {
  }

  /** The master the scenario starts from, read before the request, with the target it fixes. */
  predicate StartsFrom(ps: Parsers, req: Request, x: Exchange, target: Option<string>) {
    && x.call == MasterStatus() && x.reply.Some? && Precondition(req, x.reply.value)
    && target == if Preboot(req) then None else ps.uuid(Text(Get(x.reply.value, "operation_id")))
  }

  /** Right before the request the task was read as exactly not found, and the master was exactly right. */
  ghost predicate Justified(ps: Parsers, req: Request, before: seq<Exchange>, call: Call) {
    && before != []
    && before[|before| - 1].call == ScenarioStatus(req)
    && before[|before| - 1].reply.Some? && IsNotFound(before[|before| - 1].reply.value)
    && exists i, target | 0 <= i < |before| :: StartsFrom(ps, req, before[i], target) && Names(req, target, call)
  }

  /** The exchange answered with this status of the task: a status read, or the request itself. */
  predicate Answers(req: Request, target: Option<string>, x: Exchange, status: Fields) {
    (x.call == ScenarioStatus(req) || x.call == ScenarioRequest(req, target)) && x.reply == Some(status)
  }

  ghost predicate LastAnswers(req: Request, target: Option<string>, log: seq<Exchange>, status: Fields) {
    log != [] && Answers(req, target, log[|log| - 1], status)
  }

  /** Before anything was asked: blocked, except that a resume is never blocked. */
  function NotStarted(req: Request): Result { if req.resumeOnly then Result(Fail, 1) else Result(Blocked, 0) }

  const FAILED := Result(Fail, 1)

  // ---------------------------------------------------------------- methods

  function RequiredTools(req: Request, profile: string): set<string> {
    if profile == "reader" then
      if req.requirement == "FM12" then {"master.status", "checkpoint.status"} else {"master.status"}
    else {"acceptance.scenario.request", "acceptance.scenario.status"}
  }

  /** Authenticates both profiles and reads the master; every call is a read. */
  method Probe(g: McpGateway, req: Request) returns (r: Option<Fields>)
    requires g.Valid()
    modifies g
    ensures g.Valid() && g.sendings == old(g.sendings)
    ensures r.Some? ==> Exchange(MasterStatus(), r) in g.read
  {
    var profiles := ["reader", "operator"];
    for i := 0 to |profiles|
      invariant g.Valid() && g.sendings == old(g.sendings)
    {
      var offered := g.ListTools(profiles[i]);
      if offered.None? || !(RequiredTools(req, profiles[i]) <= offered.value) {
        return None;
      }
    }
    r := g.CallTool("reader", "master.status", map[]);
    if r.Some? && req.requirement == "FM12" {
      var checkpoint := g.CallTool("reader", "checkpoint.status", map[]);
      if checkpoint.None? {
        return None;
      }
    }
  }

  /** The scenario is either already known, or may be requested for a target, or the run ends here. */
  datatype Standing = Known(status: Fields, target: Option<string>) | Requestable(target: Option<string>) | Ended(result: Result)

  /** Reads the task and decides; nothing is requested. */
  method Observe(g: McpGateway, ps: Parsers, req: Request, master: Fields) returns (s: Standing)
    requires g.Valid() && Exchange(MasterStatus(), Some(master)) in g.read
    modifies g
    ensures g.Valid() && g.sendings == old(g.sendings)
    ensures s.Known? ==> StatusIdentity(ps, req, s.status, s.target) && LastAnswers(req, s.target, g.log, s.status)
    ensures s.Requestable? ==> !req.resumeOnly && Justified(ps, req, g.read, ScenarioRequest(req, s.target))
    ensures s.Ended? ==> s.result == FAILED || (s.result == Result(Blocked, 0) && !req.resumeOnly)
  {
    hide StatusIdentity, ExactAbsent, ExactActive, RequestArguments, Names;
    ghost var i :| 0 <= i < |g.read| && g.read[i] == Exchange(MasterStatus(), Some(master));
    var observed := g.CallTool("operator", "acceptance.scenario.status", map["task_id" := Str(req.taskRun)]);
    if observed.None? {
      return Ended(NotStarted(req));
    }
    if IsNotFound(observed.value) {
      if req.resumeOnly {
        return Ended(FAILED);
      }
      if !Precondition(req, master) {
        return Ended(Result(Blocked, 0));
      }
      var target := None;
      if !Preboot(req) {
        target := ps.uuid(Text(Get(master, "operation_id")));
        if target.None? {
          return Ended(Result(Blocked, 0));
        }
      }
      assert StartsFrom(ps, req, g.read[i], target);
      RequestNames(req, target);
      return Requestable(target);
    }
    if Get(observed.value, "found") != Bool(true) {
      return Ended(FAILED);
    }
    var target := if Preboot(req) then None else ps.uuid(Text(Get(observed.value, "target_operation_id")));
    if (!Preboot(req) && target.None?) || !StatusIdentity(ps, req, observed.value, target) {
      return Ended(FAILED);
    }
    return Known(observed.value, target);
  }

  /** Sends the one request; a lost answer is settled only by an exact status of the same task. */
  method Launch(g: McpGateway, ps: Parsers, req: Request, target: Option<string>)
    returns (status: Option<Fields>, ghost reply: Option<Fields>)
    requires g.Valid()
    modifies g
    ensures g.Valid()
    ensures g.sendings == old(g.sendings) + [Sending(old(g.read), Exchange(ScenarioRequest(req, target), reply))]
    ensures status.Some? ==> StatusIdentity(ps, req, status.value, target) && LastAnswers(req, target, g.log, status.value)
  {
    hide StatusIdentity;
    status := g.CallTool("operator", "acceptance.scenario.request", RequestArguments(req, target));
    reply := status;
    if status.None? {
      status := g.CallTool("operator", "acceptance.scenario.status", map["task_id" := Str(req.taskRun)]);
    }
    if status.Some? && !StatusIdentity(ps, req, status.value, target) {
      status := None;
    }
  }

  function Timeout(req: Request): nat { if req.requirement == "FM24" then 5700 else 1800 }

  /** Polls to a terminal state, five seconds apart at least; None on timeout, failure or another task's status. */
  method Poll(g: McpGateway, ps: Parsers, req: Request, target: Option<string>, first: Fields) returns (r: Option<Fields>)
    requires g.Valid() && StatusIdentity(ps, req, first, target) && LastAnswers(req, target, g.log, first)
    modifies g
    ensures g.Valid() && g.sendings == old(g.sendings)
    ensures r.Some? ==> TerminalState(r.value) && StatusIdentity(ps, req, r.value, target)
    ensures r.Some? ==> LastAnswers(req, target, g.log, r.value)
  {
    hide StatusIdentity;
    var status := first;
    var elapsed: nat := 0;
    while !TerminalState(status)
      invariant g.Valid() && g.sendings == old(g.sendings)
      invariant StatusIdentity(ps, req, status, target) && LastAnswers(req, target, g.log, status)
      decreases Timeout(req) - elapsed
    {
      if elapsed >= Timeout(req) {
        return None;
      }
      var extra: int := *;
      elapsed := elapsed + 5 + if extra > 0 then extra else 0;
      var next := g.CallTool("operator", "acceptance.scenario.status", map["task_id" := Str(req.taskRun)]);
      if next.None? || !StatusIdentity(ps, req, next.value, target) {
        return None;
      }
      status := next.value;
    }
    return Some(status);
  }

  /** The final reads behind a PASS, kept as ghost values. */
  datatype Proof = Proof(status: Fields, target: Option<string>, master: Fields, checkpoint: Option<Fields>)

  /** What is read last, after the terminal status. */
  function FinalReads(req: Request, p: Proof): seq<Exchange> {
    [Exchange(MasterStatus(), Some(p.master))]
    + if req.requirement == "FM12" then [Exchange(CheckpointStatus(), p.checkpoint)] else []
  }

  /** The log ends with an answer that is the status, then the final master and, for FM12, the checkpoint. */
  ghost predicate PassReads(req: Request, log: seq<Exchange>, p: Proof) {
    var n := |log| - |FinalReads(req, p)|;
    && n >= 1 && log[n..] == FinalReads(req, p) && LastAnswers(req, p.target, log[..n], p.status)
    && (req.requirement == "FM12" ==> p.checkpoint.Some?)
  }

  lemma ReadsAfter(req: Request, answered: seq<Exchange>, p: Proof)
    requires LastAnswers(req, p.target, answered, p.status) && (req.requirement == "FM12" ==> p.checkpoint.Some?)
    ensures PassReads(req, answered + FinalReads(req, p), p)
    ensures var log := answered + FinalReads(req, p); log[..|log| - |FinalReads(req, p)|] == answered
  {
    hide Answers, FinalReads;
    var log := answered + FinalReads(req, p);
    assert log[..|answered|] == answered && log[|answered|..] == FinalReads(req, p);
  }

  /** EXECUTE for one master requirement. */
  method Execute(g: McpGateway, ps: Parsers, req: Request) returns (r: Result, ghost proof: Proof)
    requires g.Valid() && g.sendings == [] && g.read == [] && req.requirement in MASTER_REQUIREMENTS
    modifies g
    // at most one request, never on resume, and only from the exact starting point
    ensures |g.sendings| <= 1
    ensures |g.sendings| == 1 ==> !req.resumeOnly && Justified(ps, req, g.sendings[0].read, g.sendings[0].sent.call)
    // once requested, the outcome is PASS or FAIL and counts the mutation
    ensures |g.sendings| == 1 ==> (r.outcome == Pass || r.outcome == Fail) && r.mutationsStarted >= 1
    // a resume is never blocked, and blocked means that nothing was requested or counted
    ensures r.outcome == Blocked ==> !req.resumeOnly && g.sendings == [] && r.mutationsStarted == 0
    ensures r.outcome != Ready
    // PASS rests on a terminal status that was answered for this task, and on the final master read right after it
    ensures r.outcome == Pass ==> PassEvidence(ps, req, proof.status, proof.target, proof.master, proof.checkpoint)
    ensures r.outcome == Pass ==> PassReads(req, g.log, proof)
  {
    hide StatusIdentity, Precondition, Justified, RequestArguments, Distinct, TerminalState, LastAnswers, PassReads, FinalReads;
    proof := *;
    var master := Probe(g, req);
    if master.None? {
      return NotStarted(req), proof;
    }
    var standing := Observe(g, ps, req, master.value);
    if standing.Ended? {
      return standing.result, proof;
    }
    var status, target;
    if standing.Requestable? {
      target := standing.target;
      var launched, _ := Launch(g, ps, req, target);
      if launched.None? {
        return FAILED, proof;
      }
      status := launched.value;
    } else {
      status, target := standing.status, standing.target;
    }
    var terminal := Poll(g, ps, req, target, status);
    if terminal.None? {
      return FAILED, proof;
    }
    var carrier;
    ghost var answered := g.log;
    carrier, proof := Conclude(g, ps, req, target, terminal.value);
    if carrier.Some? {
      ReadsAfter(req, answered, proof);
    }
    r := if carrier.Some? then Result(Pass, 1) else FAILED;
  }

  /** A terminal status yields its carrier only with the final master, and the checkpoint for FM12. */
  method Conclude(g: McpGateway, ps: Parsers, req: Request, target: Option<string>, status: Fields)
    returns (carrier: Option<Carrier>, ghost proof: Proof)
    requires g.Valid()
    modifies g
    ensures g.Valid() && g.sendings == old(g.sendings)
    ensures carrier.Some? ==> proof.status == status && proof.target == target
    ensures carrier.Some? ==> PassEvidence(ps, req, status, target, proof.master, proof.checkpoint)
    ensures carrier.Some? ==> carrier == ps.carrier(req, status, proof.master, proof.checkpoint)
    ensures carrier.Some? ==> g.log == old(g.log) + FinalReads(req, proof) && (req.requirement == "FM12" ==> proof.checkpoint.Some?)
    ensures old(g.log) <= g.log && |g.log| <= |old(g.log)| + 2
    ensures forall i | |old(g.log)| <= i < |g.log| :: g.log[i].call == MasterStatus() || g.log[i].call == CheckpointStatus()
  {
    hide StatusIdentity;
    carrier, proof := None, *;
    if !StatusIdentity(ps, req, status, target) || Get(status, "state") != Str("PASSED") || Get(status, "failure_code") != Null {
      return;
    }
    var master := g.CallTool("reader", "master.status", map[]);
    if master.None? {
      return;
    }
    var checkpoint := None;
    if req.requirement == "FM12" {
      checkpoint := g.CallTool("reader", "checkpoint.status", map[]);
      if checkpoint.None? {
        return;
      }
    }
    proof := Proof(status, target, master.value, checkpoint);
    carrier := ps.carrier(req, status, master.value, checkpoint);
  }
}
