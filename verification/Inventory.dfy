/** The bounded proof that cleaned resources are gone from a paginated inventory. */
module Inventory {
  import opened Prelude
  import opened Identities

  datatype Page = Page(refs: seq<string>, next: Option<string>)

  /** One kind's inventory: a page for every cursor; the first page has none. */
  type Listing = Option<string> -> Page

  const MAX_PAGES := 20

  // -------------------------------------------------------- the cursor chain

  /** The cursor of the n-th page of the chain, if the chain gets that far. */
  function CursorAt(f: Listing, n: nat): Option<Option<string>> {
    if n == 0 then Some(None)
    else if CursorAt(f, n - 1).None? then None
    else
      var next := f(CursorAt(f, n - 1).value).next;
      if next.None? then None else Some(next)
  }

  predicate EndsAt(f: Listing, n: nat) { CursorAt(f, n).Some? && f(CursorAt(f, n).value).next.None? }

  /** The refs listed on pages below n. */
  function RefsBelow(f: Listing, n: nat): seq<string> {
    if n == 0 then []
    else RefsBelow(f, n - 1) + if CursorAt(f, n - 1).Some? then f(CursorAt(f, n - 1).value).refs else []
  }

  predicate Disjoint(listed: seq<string>, expected: set<string>) { forall r | r in listed :: r !in expected }

  /** The chain ends within the bound and none of its pages holds an expected ref. */
  ghost predicate ProvedAbsent(f: Listing, expected: set<string>) {
    exists n: nat | n < MAX_PAGES :: EndsAt(f, n) && Disjoint(RefsBelow(f, n + 1), expected)
  }

  /** A chain that ends at n lists exactly the pages up to n; there is only one such end. */
  ghost predicate FullListing(f: Listing, listed: seq<string>) {
    exists n: nat | n < MAX_PAGES :: EndsAt(f, n) && listed == RefsBelow(f, n + 1)
  }

  lemma {:induction false} ReachedBefore(f: Listing, n: nat, m: nat)
    requires CursorAt(f, m).Some? && n < m
    ensures CursorAt(f, n).Some? && !EndsAt(f, n)
    decreases m
  {
    if n < m - 1 {
      ReachedBefore(f, n, m - 1);
    }
  }

  lemma {:induction false} Shift(f: Listing, a: nat, b: nat, k: nat)
    requires CursorAt(f, a) == CursorAt(f, b)
    ensures CursorAt(f, a + k) == CursorAt(f, b + k)
    decreases k
  {
    if k > 0 {
      Shift(f, a, b, k - 1);
    }
  }

  /** A chain that comes back to a cursor never ends. */
  lemma {:induction false} CycleNeverEnds(f: Listing, a: nat, b: nat, n: nat)
    requires a < b && CursorAt(f, b).Some? && CursorAt(f, a) == CursorAt(f, b)
    ensures !EndsAt(f, n)
    decreases n
  {
    if n < b {
      ReachedBefore(f, n, b);
    } else {
      Shift(f, a, b, n - b);
      CycleNeverEnds(f, a, b, a + (n - b));
    }
  }

  lemma {:induction false} RefsGrow(f: Listing, n: nat, m: nat)
    requires n <= m
    ensures forall r | r in RefsBelow(f, n) :: r in RefsBelow(f, m)
    decreases m
  {
    if n < m {
      RefsGrow(f, n, m - 1);
    }
  }

  // -------------------------------------------------------------- the walk

  /** Walks one kind's pages; None stands for every error the walk raises. */
  method Walk(f: Listing, expected: set<string>) returns (r: Option<seq<string>>)
    ensures r.Some? <==> ProvedAbsent(f, expected)
    ensures r.Some? ==> FullListing(f, r.value) && Disjoint(r.value, expected)
  {
    var observed: seq<string>, cursor: Option<string>, seen: set<string> := [], None, {};
    for i := 0 to MAX_PAGES
      invariant CursorAt(f, i) == Some(cursor)
      invariant observed == RefsBelow(f, i) && Disjoint(observed, expected)
      invariant forall c | c in seen :: exists j | 0 < j <= i :: CursorAt(f, j) == Some(Some(c))
    {
      var page := f(cursor);
      var j := 0;
      while j < |page.refs|
        invariant 0 <= j <= |page.refs|
        invariant observed == RefsBelow(f, i) + page.refs[..j] && Disjoint(observed, expected)
      {
        if page.refs[j] in expected {
          Refused(f, expected, i, page.refs[j]);
          return None;
        }
        observed := observed + [page.refs[j]];
        j := j + 1;
      }
      assert page.refs[..j] == page.refs;
      if page.next.None? {
        assert EndsAt(f, i);
        return Some(observed);
      }
      if page.next.value in seen {
        var k :| 0 < k <= i && CursorAt(f, k) == Some(page.next);
        forall n: nat ensures !EndsAt(f, n) {
          CycleNeverEnds(f, k, i + 1, n);
        }
        return None;
      }
      seen := seen + {page.next.value};
      cursor := page.next;
    }
    forall n: nat | n < MAX_PAGES ensures !EndsAt(f, n) {
      ReachedBefore(f, n, MAX_PAGES);
    }
    return None;
  }

  /** An expected ref on a reached page rules out every end of the chain. */
  lemma Refused(f: Listing, expected: set<string>, i: nat, ref: string)
    requires CursorAt(f, i).Some? && ref in f(CursorAt(f, i).value).refs && ref in expected
    ensures !ProvedAbsent(f, expected)
  {
    forall n: nat | EndsAt(f, n) ensures ref in RefsBelow(f, n + 1) {
      if n < i {
        ReachedBefore(f, n, i);
      } else {
        RefsGrow(f, i + 1, n + 1);
      }
    }
  }

  // ------------------------------------------------------------ both copies

  type Inventories = Kind -> Listing

  /** The canary's copy: each kind has its own expected refs. */
  method ProveInventoryAbsent(list: Inventories, expected: Kind -> set<string>) returns (r: Option<(seq<string>, seq<string>)>)
    ensures r.Some? <==> ProvedAbsent(list(Dataset), expected(Dataset)) && ProvedAbsent(list(Notebook), expected(Notebook))
    ensures r.Some? ==> FullListing(list(Dataset), r.value.0) && FullListing(list(Notebook), r.value.1)
  {
    var datasets := Walk(list(Dataset), expected(Dataset));
    if datasets.None? {
      return None;
    }
    var notebooks := Walk(list(Notebook), expected(Notebook));
    return if notebooks.None? then None else Some((datasets.value, notebooks.value));
  }

  /** The dependency smoke's copy: the same refs are expected to be gone from both kinds. */
  method InventoryAbsence(list: Inventories, refs: set<string>) returns (r: Option<(seq<string>, seq<string>)>)
    ensures r.Some? <==> ProvedAbsent(list(Dataset), refs) && ProvedAbsent(list(Notebook), refs)
    ensures r.Some? ==> FullListing(list(Dataset), r.value.0) && FullListing(list(Notebook), r.value.1)
  {
    var found := [];
    var kinds := [Dataset, Notebook];
    for i := 0 to 2
      invariant |found| == i
      invariant forall k | 0 <= k < i :: ProvedAbsent(list(kinds[k]), refs) && FullListing(list(kinds[k]), found[k])
    {
      var walked := Walk(list(kinds[i]), refs);
      if walked.None? {
        return None;
      }
      found := found + [walked.value];
    }
    assert kinds[0] == Dataset && kinds[1] == Notebook;
    return Some((found[0], found[1]));
  }

  lemma FullListingUnique(f: Listing, a: seq<string>, b: seq<string>)
    requires FullListing(f, a) && FullListing(f, b)
    ensures a == b
  {
    var n: nat :| n < MAX_PAGES && EndsAt(f, n) && a == RefsBelow(f, n + 1);
    var m: nat :| m < MAX_PAGES && EndsAt(f, m) && b == RefsBelow(f, m + 1);
    if n < m {
      ReachedBefore(f, n, m);
    } else if m < n {
      ReachedBefore(f, m, n);
    }
  }

  /** On the same inventory and the same refs, both copies give the same verdict and the same listing. */
  method BothCopiesAgree(list: Inventories, refs: set<string>)
    returns (first: Option<(seq<string>, seq<string>)>, second: Option<(seq<string>, seq<string>)>)
    ensures first == second
    ensures first.Some? <==> ProvedAbsent(list(Dataset), refs) && ProvedAbsent(list(Notebook), refs)
  {
    first := ProveInventoryAbsent(list, _ => refs);
    second := InventoryAbsence(list, refs);
    if first.Some? {
      FullListingUnique(list(Dataset), first.value.0, second.value.0);
      FullListingUnique(list(Notebook), first.value.1, second.value.1);
    }
  }
}
