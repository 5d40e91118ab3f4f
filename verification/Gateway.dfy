/** JSON values as the driver reads them, and the control gateway it talks to. */
module Gateway {
  import opened Prelude

  datatype Json =
    | Null
    | Bool(b: bool)
    | Int(n: int)
    | Str(s: string)
    | Arr(items: seq<Json>)
    | Obj(fields: map<string, Json>)

  type Fields = map<string, Json>

  /** A missing key reads as null. */
  function Get(o: Fields, key: string): Json { if key in o then o[key] else Null }

  /** Python's `str` of a scalar; lists and objects print as text that names nothing. */
  function Text(v: Json): string {
    match v
    case Null => "None"
    case Bool(b) => if b then "True" else "False"
    case Int(n) => if n < 0 then "-" + Decimal(-n) else Decimal(n)
    case Str(s) => s
    case Arr(_) => "[...]"
    case Obj(_) => "{...}"
  }

  /** Python equality of a value with an integer: `True` is 1 and `False` is 0. */
  predicate EqualsInt(v: Json, n: int) {
    v == Int(n) || (v == Bool(true) && n == 1) || (v == Bool(false) && n == 0)
  }

  /** Equality with the exact answer for an unknown task. */
  predicate IsNotFound(o: Fields) { o.Keys == {"found"} && EqualsInt(o["found"], 0) }

  datatype Call = Tool(profile: string, tool: string, arguments: Fields)

  /** A call with its answer; None means that it raised, with or without effect. */
  datatype Exchange = Exchange(call: Call, reply: Option<Fields>)

  const MUTATING_TOOLS := {
    "acceptance.scenario.request",
    "provider.acceptance.dataset.lifecycle",
    "provider.acceptance.notebook.lifecycle",
    "provider.acceptance.claim.cleanup"
  }

  const LIFECYCLE_TOOLS := {"provider.acceptance.dataset.lifecycle", "provider.acceptance.notebook.lifecycle"}

  /** A mutating request with its answer, and everything read since the one before it. */
  datatype Sending = Sending(read: seq<Exchange>, sent: Exchange)

  /** A gateway that may answer anything or fail at every call. */
  class McpGateway {
    ghost var log: seq<Exchange>
    /** The mutating part of the log, and what has been read since its end. */
    ghost var sendings: seq<Sending>
    ghost var read: seq<Exchange>
    /** Task ids in the order in which the provider created a durable claim for them. */
    ghost var created: seq<string>

    constructor ()
      ensures log == [] && created == [] && sendings == [] && read == []
    {
      log, created, sendings, read := [], [], [], [];
    }

    ghost predicate Valid() reads this { Distinct(created) }

    method CallTool(profile: string, tool: string, arguments: Fields) returns (r: Option<Fields>)
      requires Valid()
      modifies this
      ensures Valid()
      ensures log == old(log) + [Exchange(Tool(profile, tool, arguments), r)]
      ensures tool in MUTATING_TOOLS ==>
        sendings == old(sendings) + [Sending(old(read), Exchange(Tool(profile, tool, arguments), r))] && read == []
      ensures tool !in MUTATING_TOOLS ==>
        sendings == old(sendings) && read == old(read) + [Exchange(Tool(profile, tool, arguments), r)]
      // the provider keeps one claim per task id and creates it only for a lifecycle request
      ensures created == old(created) ||
        (tool in LIFECYCLE_TOOLS && Get(arguments, "task_id").Str? && arguments["task_id"].s !in old(created) &&
         created == old(created) + [arguments["task_id"].s])
    {
      r := *;
      ghost var x := Exchange(Tool(profile, tool, arguments), r);
      log := log + [x];
      if tool in MUTATING_TOOLS {
        sendings, read := sendings + [Sending(read, x)], [];
      } else {
        read := read + [x];
      }
      ghost var reached: bool := *;
      if reached && tool in LIFECYCLE_TOOLS && Get(arguments, "task_id").Str? && arguments["task_id"].s !in created {
        created := created + [arguments["task_id"].s];
      }
    }

    /** The tools a profile offers; None when the credential or the answer is missing. */
    method ListTools(profile: string) returns (r: Option<set<string>>)
      requires Valid()
      ensures Valid()
    {
      r := *;
    }
  }
}
