/**
 * Names from which effect and task identities are derived. A name is a list of fields
 * joined by colons; it determines its fields when none of them holds a colon.
 */
module Identities {
  import opened Prelude

  function Join(fields: seq<string>): string {
    if fields == [] then "" else if |fields| == 1 then fields[0] else fields[0] + ":" + Join(fields[1..])
  }

  predicate ColonFree(fields: seq<string>) { forall f | f in fields :: ':' !in f }

  lemma {:induction false} JoinHolds(fields: seq<string>)
    requires ColonFree(fields) && fields != []
    ensures IndexOf(Join(fields), ':') == |fields[0]|
    ensures |fields| == 1 <==> ':' !in Join(fields)
    ensures |fields| > 1 ==> Join(fields)[|fields[0]| + 1..] == Join(fields[1..])
  {
    if |fields| > 1 {
      var rest := Join(fields[1..]);
      assert Join(fields) == fields[0] + [':'] + rest;
      IndexOfSplit(fields[0], ':', rest);
      assert Join(fields)[|fields[0]|] == ':';
    } else {
      assert ':' !in fields[0];
    }
  }

  /** Colon-free fields are read back from their joined name. */
  lemma {:induction false} JoinInjective(a: seq<string>, b: seq<string>)
    requires ColonFree(a) && ColonFree(b) && a != [] && b != []
    requires Join(a) == Join(b)
    ensures a == b
    decreases |a|
  {
    JoinHolds(a);
    JoinHolds(b);
    assert a[0] == Join(a)[..|a[0]|] && b[0] == Join(b)[..|b[0]|];
    if |a| > 1 {
      JoinInjective(a[1..], b[1..]);
      assert a == [a[0]] + a[1..] && b == [b[0]] + b[1..];
    } else {
      assert a == [a[0]] && b == [b[0]];
    }
  }

  lemma {:induction false} DecimalInjective(m: nat, n: nat)
    requires Decimal(m) == Decimal(n)
    ensures m == n
    decreases m
  {
    var s := Decimal(m);
    if m >= 10 && n >= 10 {
      assert s[..|s| - 1] == Decimal(m / 10) == Decimal(n / 10);
      DecimalInjective(m / 10, n / 10);
      assert s[|s| - 1] == Digit(m % 10) == Digit(n % 10);
      assert m % 10 == n % 10;
    }
  }

  // ------------------------------------------------- the planned mutations

  /** Every mutation one matrix may ask the provider for. */
  datatype Mutation =
    | CreateInput
    | PushScenario(ordinal: nat)
    | DeleteScenario(ordinal: nat)
    | ReplayDelete(ordinal: nat)
    | DeleteInput

  /** The kind of the deleted claim decides the action that is named. */
  datatype Kind = Dataset | Notebook

  function IdentityFields(m: Mutation): seq<string> {
    match m
    case CreateInput => ["input-dataset"]
    case PushScenario(k) => ["scenario", Decimal(k), "push"]
    case DeleteScenario(k) => ["scenario", Decimal(k), "cleanup"]
    case ReplayDelete(k) => ["scenario", Decimal(k), "replay", "cleanup"]
    case DeleteInput => ["input-dataset", "cleanup"]
  }

  function ActionName(m: Mutation, kind: Kind): string {
    match m
    case CreateInput => "create_dataset"
    case PushScenario(_) => "push_notebook"
    case _ => if kind == Dataset then "delete_dataset" else "delete_notebook"
  }

  function EffectFields(matrixId: string, m: Mutation, kind: Kind): seq<string> {
    ["real-kaggle-matrix", matrixId] + IdentityFields(m) + [ActionName(m, kind), "effect"]
  }

  /** The identity of the effect that carries out one planned mutation. */
  function EffectId(uuid5: string -> string, matrixId: string, m: Mutation, kind: Kind): string {
    uuid5(Join(EffectFields(matrixId, m, kind)))
  }

  lemma ColonFreeConcat(a: seq<string>, b: seq<string>)
    requires ColonFree(a) && ColonFree(b)
    ensures ColonFree(a + b)
  {
  }

  lemma IdentityColonFree(m: Mutation)
    ensures ColonFree(IdentityFields(m))
  {
    hide Decimal;
  }

  lemma EffectFieldsColonFree(matrixId: string, m: Mutation, kind: Kind)
    requires ':' !in matrixId
    ensures ColonFree(EffectFields(matrixId, m, kind))
  {
    hide IdentityFields;
    var head, tail := ["real-kaggle-matrix", matrixId], [ActionName(m, kind), "effect"];
    IdentityColonFree(m);
    ColonFreeConcat(head, IdentityFields(m));
    ColonFreeConcat(head + IdentityFields(m), tail);
  }

  /** Two planned mutations share an effect identity only when they are the same mutation of the same matrix. */
  lemma EffectIdsDistinct(uuid5: string -> string, a: string, b: string, m: Mutation, n: Mutation, k: Kind, l: Kind)
    requires Injective(uuid5) && ':' !in a && ':' !in b
    requires EffectId(uuid5, a, m, k) == EffectId(uuid5, b, n, l)
    ensures a == b && m == n && ActionName(m, k) == ActionName(n, l)
  {
    var f, g := EffectFields(a, m, k), EffectFields(b, n, l);
    EffectFieldsColonFree(a, m, k);
    EffectFieldsColonFree(b, n, l);
    JoinInjective(f, g);
    assert f[1] == g[1] && f[2] == g[2] && f[3] == g[3] && f[|f| - 2] == g[|g| - 2];
    assert |f| == |IdentityFields(m)| + 4 && |g| == |IdentityFields(n)| + 4;
    if m.PushScenario? || m.DeleteScenario? || m.ReplayDelete? {
      assert n.PushScenario? || n.DeleteScenario? || n.ReplayDelete?;
      assert f[4] == g[4];
      DecimalInjective(m.ordinal, n.ordinal);
    }
  }

  // ------------------------------------------------ the driver's sub-tasks

  function SubtaskFields(matrixId: string, requirement: string, taskRun: string, kind: Kind): seq<string> {
    ["operational", matrixId, requirement, taskRun, if kind == Dataset then "dataset" else "notebook"]
  }

  function SubtaskId(uuid5: string -> string, matrixId: string, requirement: string, taskRun: string, kind: Kind): string {
    uuid5(Join(SubtaskFields(matrixId, requirement, taskRun, kind)))
  }

  /** A sub-task identity determines matrix, requirement, task run and kind. */
  lemma SubtaskIdInjective(uuid5: string -> string, m: string, r: string, t: string, k: Kind, m': string, r': string, t': string, k': Kind)
    requires Injective(uuid5)
    requires ':' !in m && ':' !in r && ':' !in t && ':' !in m' && ':' !in r' && ':' !in t'
    requires SubtaskId(uuid5, m, r, t, k) == SubtaskId(uuid5, m', r', t', k')
    ensures m == m' && r == r' && t == t' && k == k'
  {
    var f, g := SubtaskFields(m, r, t, k), SubtaskFields(m', r', t', k');
    JoinInjective(f, g);
    assert f[1] == g[1] && f[2] == g[2] && f[3] == g[3] && f[4] == g[4];
    assert "dataset"[0] != "notebook"[0];
  }
}
