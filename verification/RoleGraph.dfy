/** Role memberships as a graph: the roles a role belongs to, directly or through other roles. */
module RoleGraph {

  type Edges = set<(string, string)>

  ghost predicate Closed(edges: Edges, s: set<string>) {
    forall e | e in edges && e.0 in s :: e.1 in s
  }

  function Parents(edges: Edges, s: set<string>): set<string> { set e | e in edges && e.0 in s :: e.1 }

  lemma {:induction false} Smaller<T>(a: set<T>, b: set<T>)
    requires a < b
    ensures |a| < |b|
    decreases a
  {
    if a != {} {
      var x :| x in a;
      Smaller(a - {x}, b - {x});
    } else {
      var x :| x in b;
      assert |b| == |b - {x}| + 1;
    }
  }

  /** Adds parents until there is none to add; `all` bounds what can be added. */
  function Saturate(edges: Edges, s: set<string>, all: set<string>): (r: set<string>)
    requires s <= all && forall e | e in edges :: e.1 in all
    ensures s <= r && Closed(edges, r)
    ensures forall t | s <= t && Closed(edges, t) :: r <= t
    decreases |all - s|
  {
    var more := s + Parents(edges, s);
    if more == s then
      assert forall e | e in edges && e.0 in s :: e.1 in Parents(edges, s);
      s
    else
      Smaller(all - more, all - s);
      Saturate(edges, more, all)
  }

  /** A role together with every role it is a member of, through any number of steps: the least closed set. */
  function Above(edges: Edges, role: string): (r: set<string>)
    ensures role in r && Closed(edges, r)
    ensures forall t | role in t && Closed(edges, t) :: r <= t
  {
    Saturate(edges, {role}, {role} + set e | e in edges :: e.1)
  }

  /** No role is a member of itself. */
  ghost predicate Acyclic(edges: Edges) {
    forall e | e in edges :: e.0 !in Above(edges, e.1)
  }

  lemma AboveMonotone(a: Edges, b: Edges, role: string)
    requires a <= b
    ensures Above(a, role) <= Above(b, role)
  {
    assert Closed(a, Above(b, role));
  }

  lemma AboveTransitive(edges: Edges, x: string, y: string)
    requires y in Above(edges, x)
    ensures Above(edges, y) <= Above(edges, x)
  {
  }

  /** What one more edge adds to the roles above a role. */
  lemma AboveWithEdge(edges: Edges, from: string, to: string, role: string)
    ensures Above(edges + {(from, to)}, role) ==
            if from in Above(edges, role) then Above(edges, role) + Above(edges, to) else Above(edges, role)
  {
    hide Above;
    var more := edges + {(from, to)};
    var a, b := Above(edges, role), Above(edges, to);
    AboveMonotone(edges, more, role);
    AboveMonotone(edges, more, to);
    if from in a {
      assert Closed(more, a + b);
      assert to in Above(more, role) by { assert (from, to) in more; }
      AboveTransitive(more, role, to);
      assert a + b <= Above(more, role);
    } else {
      assert Closed(more, a);
    }
  }

  /** An edge that closes no cycle keeps the graph acyclic. */
  lemma AcyclicWithEdge(edges: Edges, from: string, to: string)
    requires Acyclic(edges) && from !in Above(edges, to)
    ensures Acyclic(edges + {(from, to)})
  {
    var more := edges + {(from, to)};
    forall e | e in more ensures e.0 !in Above(more, e.1) {
      AboveWithEdge(edges, from, to, e.1);
      if e in edges && from in Above(edges, e.1) && e.0 in Above(edges, to) {
        AboveTransitive(edges, to, e.0);
        AboveTransitive(edges, e.0, e.1);
        assert false;
      }
    }
  }

  /** A role with one direct membership sits below exactly what that one sits below. */
  lemma AboveOnlyParent(edges: Edges, role: string, parent: string)
    requires (role, parent) in edges && forall e | e in edges && e.0 == role :: e.1 == parent
    ensures Above(edges, role) == {role} + Above(edges, parent)
  {
    hide Above;
    assert Closed(edges, {role} + Above(edges, parent));
    assert parent in Above(edges, role) by { assert (role, parent) in edges; }
    AboveTransitive(edges, role, parent);
  }
}
