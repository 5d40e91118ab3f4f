/** Claim reconciliation around a lifecycle request whose answer may be lost. */
module ClaimLifecycle {
  import opened Prelude
  import opened Gateway
  import opened Identities

  datatype LifecycleResult =
    | Answered(reply: Fields)
    | MissingPreActionEvidence
    | AmbiguousEvidenceMutation
    | ClaimReadFailed

  predicate Found(r: Fields) { Get(r, "found") == Bool(true) }
  predicate InState(r: Fields, states: set<string>) { Get(r, "state").Str? && r["state"].s in states }

  const TERMINAL := {"SUCCEEDED", "FAILED"}
  const UNFINISHED := {"CLAIMED", "RUNNING"}

  function ClaimGet(requirement: string, task: string): Call {
    Tool("provider", "provider.acceptance.claim.get", map["scenario_id" := Str(requirement), "task_id" := Str(task)])
  }

  predicate FoundIn(reply: Option<Fields>) { reply.Some? && Found(reply.value) }
  predicate Terminal(reply: Option<Fields>) { FoundIn(reply) && InState(reply.value, TERMINAL) }
  predicate Unfinished(reply: Option<Fields>) { FoundIn(reply) && InState(reply.value, UNFINISHED) }

  ghost predicate Shape(x: seq<Exchange>, calls: seq<Call>) {
    |x| == |calls| && forall i | 0 <= i < |x| :: x[i].call == calls[i]
  }

  /** The first read permits a request. */
  predicate MaySend(first: Option<Fields>, mayCreate: bool) {
    first.Some? && !Terminal(first) && (mayCreate || Found(first.value))
  }

  function Stopped(first: Option<Fields>): LifecycleResult {
    if first.None? then ClaimReadFailed else if Terminal(first) then Answered(first.value) else MissingPreActionEvidence
  }

  function Closed(last: Option<Fields>): LifecycleResult {
    if last.Some? then Answered(last.value) else AmbiguousEvidenceMutation
  }

  /** All ways the exchanges can go once a request is sent, and how they end. */
  ghost predicate Driven(y: seq<Exchange>, get: Call, send: Call, r: LifecycleResult) {
    || (Shape(y, [send]) && y[0].reply.Some? && !Unfinished(y[0].reply) && r == Closed(y[0].reply))
    || (Shape(y, [send, send]) && Unfinished(y[0].reply) && r == Closed(y[1].reply))
    || (Shape(y, [send, get]) && y[0].reply.None? && !Unfinished(y[1].reply)
        && r == if FoundIn(y[1].reply) then Closed(y[1].reply) else AmbiguousEvidenceMutation)
    || (Shape(y, [send, get, send]) && y[0].reply.None? && Unfinished(y[1].reply) && r == Closed(y[2].reply))
  }

  /** One invocation: the claim is read first, and a request is sent only if that read permits it. */
  ghost predicate Reconciled(x: seq<Exchange>, get: Call, send: Call, mayCreate: bool, r: LifecycleResult) {
    && x != [] && x[0].call == get
    && if MaySend(x[0].reply, mayCreate) then Driven(x[1..], get, send, r) else |x| == 1 && r == Stopped(x[0].reply)
  }

  /** How many of the exchanges carried the request. */
  function Sent(x: seq<Exchange>, send: Call): nat {
    if x == [] then 0 else (if x[0].call == send then 1 else 0) + Sent(x[1..], send)
  }

  predicate StateIs(reply: Option<Fields>, state: string) { FoundIn(reply) && Get(reply.value, "state") == Str(state) }

  /** What every invocation keeps, whatever was answered. */
  lemma LifecycleSafety(x: seq<Exchange>, get: Call, send: Call, mayCreate: bool, r: LifecycleResult)
    requires get != send && Reconciled(x, get, send, mayCreate, r)
    // at most two requests, and they are the same request
    ensures Sent(x, send) <= 2 && forall e | e in x :: e.call == get || e.call == send
    // no request for a finished claim, nor when nothing was found and creation is not allowed, nor after a failed read
    ensures Sent(x, send) == 0 <==>
      || x[0].reply.None? || StateIs(x[0].reply, "SUCCEEDED") || StateIs(x[0].reply, "FAILED")
      || (!mayCreate && !FoundIn(x[0].reply))
    // a second request is sent exactly when the claim stands unfinished after the first
    ensures Sent(x, send) == 2 <==> |x| > 2 && x[|x| - 1].call == send
    ensures Sent(x, send) == 2 ==> StateIs(x[|x| - 2].reply, "CLAIMED") || StateIs(x[|x| - 2].reply, "RUNNING")
    ensures Sent(x, send) == 1 ==> !StateIs(x[|x| - 1].reply, "CLAIMED") && !StateIs(x[|x| - 1].reply, "RUNNING")
    ensures (r == ClaimReadFailed || r == MissingPreActionEvidence) ==> Sent(x, send) == 0
    // once a request was sent, the end is an answer or is ambiguous
    ensures Sent(x, send) > 0 ==> r.Answered? || r == AmbiguousEvidenceMutation
    // a lost first answer ends in a claim read back as found, or is ambiguous
    ensures Sent(x, send) > 0 && x[1].reply.None? && r.Answered? ==> |x| > 2 && x[2].call == get && FoundIn(x[2].reply)
    // ambiguity means that some answer was lost
    ensures r == AmbiguousEvidenceMutation ==> exists i | 0 < i < |x| :: x[i].call == send && x[i].reply.None?
  {
    var y := x[1..];
    assert forall i | 1 <= i < |x| :: x[i] == y[i - 1];
    SentCount(x, get, send);
  }

  lemma SentCount(x: seq<Exchange>, get: Call, send: Call)
    requires get != send && 1 <= |x| <= 4 && x[0].call == get
    requires |x| > 1 ==> x[1].call == send
    requires |x| > 3 ==> x[2].call == get
    ensures Sent(x, send) <= 2 && (Sent(x, send) == 0 <==> |x| == 1)
    ensures Sent(x, send) == 2 <==> |x| > 2 && x[|x| - 1].call == send
  {
    hide Sent;
    SentFirst(x, send);
    SentNone(send);
    if |x| == 1 {
      assert x[1..] == [];
    } else {
      var y := x[1..];
      SentFirst(y, send);
      var z := y[1..];
      assert y[0] == x[1] && |z| == |x| - 2;
      if |x| == 3 {
        SentFirst(z, send);
        assert z[0] == x[2] && z[1..] == [];
      } else if |x| == 4 {
        SentFirst(z, send);
        var last := z[1..];
        SentFirst(last, send);
        assert z[0] == x[2] && last[0] == x[3] && last[1..] == [];
      }
    }
  }

  lemma SentFirst(x: seq<Exchange>, send: Call)
    requires x != []
    ensures Sent(x, send) == (if x[0].call == send then 1 else 0) + Sent(x[1..], send)
  {
  }

  lemma SentNone(send: Call)
    ensures Sent([], send) == 0
  {
  }

  /** Drives one durable claim to a terminal answer. */
  method RunLifecycle(g: McpGateway, requirement: string, resumeOnly: bool, tool: string, task: string, arguments: Fields,
                      allowCreateOnResume: bool)
    returns (r: LifecycleResult)
    requires g.Valid() && tool in LIFECYCLE_TOOLS && Get(arguments, "task_id") == Str(task)
    modifies g
    ensures g.Valid() && old(g.log) <= g.log
    ensures Reconciled(g.log[|old(g.log)|..], ClaimGet(requirement, task), Tool("provider", tool, arguments),
                       !resumeOnly || allowCreateOnResume, r)
    ensures g.created == old(g.created) || g.created == old(g.created) + [task]
    // a claim is created only by a request, and so only after a first read that permits one
    ensures g.created != old(g.created) ==> MaySend(g.log[|old(g.log)|].reply, !resumeOnly || allowCreateOnResume)
  {
    hide ClaimGet, Found, InState, Distinct, Driven;
    ghost var was := g.log;
    var existing := ReadClaim(g, requirement, task);
    ghost var first := Exchange(ClaimGet(requirement, task), existing);
    assert g.log[|was|..] == [first];
    if existing.None? {
      return ClaimReadFailed;
    }
    if Found(existing.value) {
      if InState(existing.value, TERMINAL) {
        return Answered(existing.value);
      }
    } else if resumeOnly && !allowCreateOnResume {
      return MissingPreActionEvidence;
    }
    ghost var read := g.log;
    r := Send(g, requirement, tool, task, arguments);
    assert g.log[|was|..][1..] == g.log[|read|..];
  }

  /** Sends the request; only a claim that is read back can settle a lost answer. */
  method Send(g: McpGateway, requirement: string, tool: string, task: string, arguments: Fields)
    returns (r: LifecycleResult)
    requires g.Valid() && tool in LIFECYCLE_TOOLS && Get(arguments, "task_id") == Str(task)
    modifies g
    ensures g.Valid() && old(g.log) <= g.log
    ensures Driven(g.log[|old(g.log)|..], ClaimGet(requirement, task), Tool("provider", tool, arguments), r)
    ensures g.created == old(g.created) || g.created == old(g.created) + [task]
  {
    hide ClaimGet, Found, InState, Distinct;
    ghost var get, send, was := ClaimGet(requirement, task), Tool("provider", tool, arguments), g.log;
    var response := g.CallTool("provider", tool, arguments);
    ghost var y := [Exchange(send, response)];
    assert g.log[|was|..] == y;
    if response.None? {
      response := ReadClaim(g, requirement, task);
      y := y + [Exchange(get, response)];
      assert g.log[|was|..] == y;
      if response.None? || !Found(response.value) {
        return AmbiguousEvidenceMutation;
      }
    }
    if Found(response.value) && InState(response.value, UNFINISHED) {
      response := g.CallTool("provider", tool, arguments);
      y := y + [Exchange(send, response)];
      assert g.log[|was|..] == y;
      if response.None? {
        return AmbiguousEvidenceMutation;
      }
    }
    return Answered(response.value);
  }

  method ReadClaim(g: McpGateway, requirement: string, task: string) returns (r: Option<Fields>)
    requires g.Valid()
    modifies g
    ensures g.Valid() && g.log == old(g.log) + [Exchange(ClaimGet(requirement, task), r)] && g.created == old(g.created)
    ensures g.sendings == old(g.sendings) && g.read == old(g.read) + [Exchange(ClaimGet(requirement, task), r)]
  {
    r := g.CallTool("provider", "provider.acceptance.claim.get", map["scenario_id" := Str(requirement), "task_id" := Str(task)]);
  }

  /** One invocation of the driver for one sub-task. */
  datatype Invocation = Invocation(
    matrixId: string, requirement: string, taskRun: string, kind: Kind,
    resumeOnly: bool, allowCreateOnResume: bool, others: Fields)

  function TaskOf(uuid5: string -> string, v: Invocation): string {
    SubtaskId(uuid5, v.matrixId, v.requirement, v.taskRun, v.kind)
  }

  predicate SameSubtask(v: Invocation, u: Invocation) {
    v.matrixId == u.matrixId && v.requirement == u.requirement && v.taskRun == u.taskRun && v.kind == u.kind
  }

  function ToolOf(kind: Kind): string {
    if kind == Dataset then "provider.acceptance.dataset.lifecycle" else "provider.acceptance.notebook.lifecycle"
  }

  predicate PlainIds(v: Invocation) { ':' !in v.matrixId && ':' !in v.requirement && ':' !in v.taskRun }

  /** Any sequence of first and resumed invocations, with any answers lost. */
  method Drive(g: McpGateway, uuid5: string -> string, calls: seq<Invocation>) returns (results: seq<LifecycleResult>)
    requires g.Valid() && g.created == []
    requires forall v | v in calls :: PlainIds(v)
    modifies g
    ensures |results| == |calls|
    // no claim is created twice, and every claim belongs to some invocation
    ensures Distinct(g.created)
    ensures forall t | t in g.created :: exists v | v in calls :: TaskOf(uuid5, v) == t
    // under injective identities, invocations share a claim exactly when they are about the same sub-task
    ensures Injective(uuid5) ==> forall v, u | v in calls && u in calls :: TaskOf(uuid5, v) == TaskOf(uuid5, u) <==> SameSubtask(v, u)
  {
    hide TaskOf;
    results := [];
    for i := 0 to |calls|
      invariant g.Valid() && |results| == i
      invariant forall t | t in g.created :: exists v | v in calls :: TaskOf(uuid5, v) == t
    {
      var v := calls[i];
      var task := TaskOf(uuid5, v);
      var r := RunLifecycle(g, v.requirement, v.resumeOnly, ToolOf(v.kind), task, v.others["task_id" := Str(task)], v.allowCreateOnResume);
      results := results + [r];
      assert v in calls;
    }
    if Injective(uuid5) {
      forall v, u | v in calls && u in calls ensures TaskOf(uuid5, v) == TaskOf(uuid5, u) <==> SameSubtask(v, u) {
        SubtasksShareClaim(uuid5, v, u);
      }
    }
  }

  lemma SubtasksShareClaim(uuid5: string -> string, v: Invocation, u: Invocation)
    requires Injective(uuid5) && PlainIds(v) && PlainIds(u)
    ensures TaskOf(uuid5, v) == TaskOf(uuid5, u) <==> SameSubtask(v, u)
  {
    if TaskOf(uuid5, v) == TaskOf(uuid5, u) {
      SubtaskIdInjective(uuid5, v.matrixId, v.requirement, v.taskRun, v.kind, u.matrixId, u.requirement, u.taskRun, u.kind);
    }
  }
}
