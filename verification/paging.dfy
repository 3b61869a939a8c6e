/**
 What cursor paging delivers from one filter's result, as a function of the sorted result
 (internal/relay/req_query.go: the until = oldest - 1 cursor of fetchREQPage).
 */
module Paging {
  import opened Base
  import opened Nostr

  /** created_at <= last - 1: what the next page of a cursor can see. */
  function Below(last: Int64): Event -> bool { (e: Event) => e.createdAt < last }

  function PageLimit(p: nat, b: nat): nat { if 0 < b < p then b else p }

  function LastOf(s: seq<Event>): Event
    requires s != []
  {
    s[|s| - 1]
  }

  lemma FilterShorter(s: seq<Event>, keep: Event -> bool, e: Event)
    requires e in s && !keep(e)
    ensures |Filter(s, keep)| < |s|
  {
  }

  /** What is left for the cursor after a full page of n rows. */
  function Rest(s: seq<Event>, n: nat): (r: seq<Event>)
    requires 0 < n <= |s|
    ensures |r| < |s|
  {
    FilterShorter(s, Below(s[n - 1].createdAt), s[n - 1]);
    Filter(s, Below(s[n - 1].createdAt))
  }

  function BudgetLeft(b: nat, n: nat): nat
    requires n <= b || b == 0
  {
    if b > 0 then b - n else 0
  }

  /**
   The rows delivered from a sorted result s with page size p and budget b (0 is unlimited):
   a full page moves the cursor strictly below its last timestamp.
   */
  function PageOut(s: seq<Event>, p: nat, b: nat): seq<Event>
    requires p > 0
    decreases |s|
  {
    var n := PageLimit(p, b);
    if |s| < n then s
    else if n == b then s[..n]
    else s[..n] + PageOut(Rest(s, n), p, BudgetLeft(b, n))
  }

  /** The last rows of the full pages. */
  function FullPageEnds(s: seq<Event>, p: nat, b: nat): seq<Event>
    requires p > 0
    decreases |s|
  {
    var n := PageLimit(p, b);
    if |s| < n then []
    else if n == b then [s[n - 1]]
    else [s[n - 1]] + FullPageEnds(Rest(s, n), p, BudgetLeft(b, n))
  }

  /** Ordered after a full page's last row yet sharing its timestamp. */
  ghost predicate TiedAfterEnd(ends: seq<Event>, e: Event) {
    exists r :: r in ends && r.createdAt == e.createdAt && Newer(r, e)
  }

  ghost predicate BeyondBudget(out: seq<Event>, b: nat, e: Event) {
    b > 0 && |out| == b && Newer(LastOf(out), e)
  }

  lemma PageSplit(s: seq<Event>, n: nat, e: Event)
    requires Sorted(s, Newer) && 0 < n <= |s| && e in s
    ensures e in s[..n] ==> !Newer(s[n - 1], e) && e.createdAt >= s[n - 1].createdAt
    ensures e !in s[..n] ==> Newer(s[n - 1], e)
    ensures e in Rest(s, n) <==> e.createdAt < s[n - 1].createdAt
    ensures e in Rest(s, n) ==> e !in s[..n]
  {
    OrdersAreStrict();
    var i :| 0 <= i < |s| && s[i] == e;
    if i < n {
      assert s[..n][i] == e;
    }
  }

  lemma {:induction false} PageOutMembers(s: seq<Event>, p: nat, b: nat)
    requires p > 0
    ensures forall e :: e in PageOut(s, p, b) ==> e in s
    ensures forall r :: r in FullPageEnds(s, p, b) ==> r in s
    ensures b > 0 ==> |PageOut(s, p, b)| <= b
    decreases |s|
  {
    var n := PageLimit(p, b);
    if |s| >= n && n != b { PageOutMembers(Rest(s, n), p, BudgetLeft(b, n)); }
  }

  lemma {:induction false} PageOutSorted(s: seq<Event>, p: nat, b: nat)
    requires p > 0 && Sorted(s, Newer)
    ensures Sorted(PageOut(s, p, b), Newer)
    decreases |s|
  {
    var n := PageLimit(p, b);
    if |s| >= n && n != b {
      var rest := Rest(s, n);
      FilterSorted(s, Below(s[n - 1].createdAt), Newer);
      PageOutSorted(rest, p, BudgetLeft(b, n));
      PageOutMembers(rest, p, BudgetLeft(b, n));
      var tail := PageOut(rest, p, BudgetLeft(b, n));
      forall x, y | x in s[..n] && y in tail ensures Newer(x, y) {
        PageSplit(s, n, x);
      }
    }
  }

  lemma FirstPageEscapes(s: seq<Event>, n: nat, tail: seq<Event>, tailEnds: seq<Event>, e: Event)
    requires Sorted(s, Newer) && 0 < n <= |s| && e in s[..n]
    requires forall t :: t in tail || t in tailEnds ==> t.createdAt < s[n - 1].createdAt
    ensures !TiedAfterEnd([s[n - 1]] + tailEnds, e) && !Newer(LastOf(s[..n] + tail), e)
  {
    PageSplit(s, n, e);
    var last := LastOf(s[..n] + tail);
    assert if tail == [] then last == s[n - 1] else last == LastOf(tail) && last in tail;
  }

  /** The shape of a paged result with more than one page. */
  lemma PagesUnfold(s: seq<Event>, p: nat, b: nat)
    requires p > 0 && PageLimit(p, b) <= |s| && PageLimit(p, b) != b
    ensures var n := PageLimit(p, b);
      && PageOut(s, p, b) == s[..n] + PageOut(Rest(s, n), p, BudgetLeft(b, n))
      && FullPageEnds(s, p, b) == [s[n - 1]] + FullPageEnds(Rest(s, n), p, BudgetLeft(b, n))
  {}

  lemma InFirstPage(s: seq<Event>, p: nat, b: nat, e: Event)
    requires p > 0 && Sorted(s, Newer) && PageLimit(p, b) <= |s| && PageLimit(p, b) != b
    requires e in s[..PageLimit(p, b)]
    ensures !TiedAfterEnd(FullPageEnds(s, p, b), e) && !BeyondBudget(PageOut(s, p, b), b, e)
  {
    var n := PageLimit(p, b);
    var rest, left := Rest(s, n), BudgetLeft(b, n);
    PagesUnfold(s, p, b);
    PageOutMembers(rest, p, left);
    FirstPageEscapes(s, n, PageOut(rest, p, left), FullPageEnds(rest, p, left), e);
  }

  lemma BudgetInRest(first: seq<Event>, tail: seq<Event>, b: nat, left: nat, e: Event)
    requires first != [] && (b == 0 || |first| < b) && left == BudgetLeft(b, |first|)
    ensures BeyondBudget(first + tail, b, e) <==> BeyondBudget(tail, left, e)
  {
    if tail != [] { assert LastOf(first + tail) == LastOf(tail); }
  }

  lemma InRest(s: seq<Event>, p: nat, b: nat, e: Event)
    requires p > 0 && Sorted(s, Newer) && PageLimit(p, b) <= |s| && PageLimit(p, b) != b
    requires e in Rest(s, PageLimit(p, b))
    ensures var n := PageLimit(p, b);
      var rest, left := Rest(s, n), BudgetLeft(b, n);
      && (e in PageOut(s, p, b) <==> e in PageOut(rest, p, left))
      && (TiedAfterEnd(FullPageEnds(s, p, b), e) <==> TiedAfterEnd(FullPageEnds(rest, p, left), e))
      && (BeyondBudget(PageOut(s, p, b), b, e) <==> BeyondBudget(PageOut(rest, p, left), left, e))
  {
    var n := PageLimit(p, b);
    var tail := PageOut(Rest(s, n), p, BudgetLeft(b, n));
    PageSplit(s, n, e);
    PagesUnfold(s, p, b);
    BudgetInRest(s[..n], tail, b, BudgetLeft(b, n), e);
  }

  lemma SkippedTie(s: seq<Event>, p: nat, b: nat, e: Event)
    requires p > 0 && Sorted(s, Newer) && PageLimit(p, b) <= |s| && PageLimit(p, b) != b
    requires e in s && e !in s[..PageLimit(p, b)] && e !in Rest(s, PageLimit(p, b))
    ensures e !in PageOut(s, p, b) && TiedAfterEnd(FullPageEnds(s, p, b), e)
  {
    var n := PageLimit(p, b);
    PageSplit(s, n, e);
    PageOutMembers(Rest(s, n), p, BudgetLeft(b, n));
    assert s[n - 1] in FullPageEnds(s, p, b);
  }

  /** Exactly which rows of a result paging delivers. */
  lemma {:induction false} PageOutExactly(s: seq<Event>, p: nat, b: nat, e: Event)
    requires p > 0 && Sorted(s, Newer) && e in s
    ensures e in PageOut(s, p, b) <==>
      !TiedAfterEnd(FullPageEnds(s, p, b), e) && !BeyondBudget(PageOut(s, p, b), b, e)
    decreases |s|
  {
    var n := PageLimit(p, b);
    if |s| < n {
    } else if n == b {
      PageSplit(s, n, e);
    } else if e in s[..n] {
      InFirstPage(s, p, b, e);
    } else if e in Rest(s, n) {
      InRest(s, p, b, e);
      FilterSorted(s, Below(s[n - 1].createdAt), Newer);
      PageOutExactly(Rest(s, n), p, BudgetLeft(b, n), e);
    } else {
      SkippedTie(s, p, b, e);
    }
  }

  // ---- against the one-shot query ------------------------------------------------------

  /** What one unpaged query returns: the first b rows, or all of them. */
  function OneShot(s: seq<Event>, b: nat): seq<Event> { if b > 0 then Take(s, b) else s }

  ghost predicate AdjacentDiffer(s: seq<Event>) {
    forall i :: 0 < i < |s| ==> s[i - 1].createdAt != s[i].createdAt
  }

  lemma RestIsSuffix(s: seq<Event>, n: nat)
    requires Sorted(s, Newer) && 0 < n <= |s|
    requires n < |s| ==> s[n - 1].createdAt != s[n].createdAt
    ensures Rest(s, n) == s[n..]
  {
    FilterSplit(s, Below(s[n - 1].createdAt), n);
  }

  /** No page boundary of the one-shot result lies between two rows with the same timestamp. */
  ghost predicate BoundariesDiffer(s: seq<Event>, p: nat)
    requires p > 0
  {
    forall i :: 0 < i < |s| && i % p == 0 ==> s[i - 1].createdAt != s[i].createdAt
  }

  lemma ModUnique(a: int, p: int, q: int, r: int)
    requires p > 0 && a == q * p + r && 0 <= r < p
    ensures a % p == r
  {
    var d := a / p - q;
    assert d * p == r - a % p;
    assert d >= 1 ==> d * p >= p;
    assert d <= -1 ==> d * p <= -p;
  }

  lemma ModShift(i: nat, p: nat)
    requires p > 0
    ensures (i + p) % p == i % p
  {
    assert i + p == (i / p + 1) * p + i % p;
    ModUnique(i + p, p, i / p + 1, i % p);
  }

  lemma SmallIsNoBoundary(i: nat, p: nat)
    requires p > 0 && 0 < i && i % p == 0
    ensures i >= p
  {
    if i < p { ModUnique(i, p, 0, i); }
  }

  lemma BoundariesNext(s: seq<Event>, p: nat)
    requires 0 < p <= |s| && BoundariesDiffer(s, p)
    ensures (p < |s| ==> s[p - 1].createdAt != s[p].createdAt) && BoundariesDiffer(s[p..], p)
  {
    ModShift(0, p);
    forall j | 0 < j < |s[p..]| && j % p == 0 ensures s[p..][j - 1].createdAt != s[p..][j].createdAt {
      ModShift(j, p);
    }
  }

  lemma BoundariesBefore(s: seq<Event>, p: nat)
    requires 0 < p <= |s| && (p < |s| ==> s[p - 1].createdAt != s[p].createdAt) && BoundariesDiffer(s[p..], p)
    ensures BoundariesDiffer(s, p)
  {
    forall i | 0 < i < |s| && i % p == 0 ensures s[i - 1].createdAt != s[i].createdAt {
      SmallIsNoBoundary(i, p);
      if i > p {
        ModShift(i - p, p);
        assert s[p..][i - p - 1].createdAt != s[p..][i - p].createdAt;
      }
    }
  }

  lemma OneShotSplits(s: seq<Event>, p: nat, b: nat)
    requires 0 < p <= |s| && (b == 0 || b > p)
    ensures |OneShot(s, b)| >= p && OneShot(s, b)[..p] == s[..p]
    ensures OneShot(s, b)[p..] == OneShot(s[p..], BudgetLeft(b, p))
    ensures |OneShot(s, b)| > p <==> |s| > p
  {}

  /** A boundary between two rows of the same timestamp: the second is not what comes next. */
  lemma TieIsSkipped(s: seq<Event>, p: nat, b: nat)
    requires Sorted(s, Newer) && 0 < p < |s| && (b == 0 || b > p) && s[p - 1].createdAt == s[p].createdAt
    ensures PageOut(s, p, b) != OneShot(s, b)
  {
    var tail := PageOut(Rest(s, p), p, BudgetLeft(b, p));
    OneShotSplits(s, p, b);
    PageOutMembers(Rest(s, p), p, BudgetLeft(b, p));
    assert OneShot(s, b)[p] == s[p] && PageOut(s, p, b) == s[..p] + tail;
    if tail != [] { assert tail[0] in Rest(s, p); }
  }

  /** Pages of this size return what the one-shot query returns exactly when none of its boundaries splits a tie. */
  lemma {:induction false} PagingIsOneShotAt(s: seq<Event>, p: nat, b: nat)
    requires p > 0 && Sorted(s, Newer)
    ensures PageOut(s, p, b) == OneShot(s, b) <==> BoundariesDiffer(OneShot(s, b), p)
    decreases |s|
  {
    var n := PageLimit(p, b);
    if |s| < n || n == b {
      forall i | 0 < i < |OneShot(s, b)| ensures i % p != 0 {
        if i % p == 0 { SmallIsNoBoundary(i, p); }
      }
    } else if p < |s| && s[p - 1].createdAt == s[p].createdAt {
      TieIsSkipped(s, p, b);
      OneShotSplits(s, p, b);
      ModShift(0, p);
    } else {
      LaterPages(s, p, b);
    }
  }

  lemma LaterPages(s: seq<Event>, p: nat, b: nat)
    requires 0 < p <= |s| && (b == 0 || b > p) && Sorted(s, Newer)
    requires p < |s| ==> s[p - 1].createdAt != s[p].createdAt
    ensures PageOut(s, p, b) == OneShot(s, b) <==> BoundariesDiffer(OneShot(s, b), p)
    decreases |s|, 0
  {
    var left, one := BudgetLeft(b, p), OneShot(s, b);
    FirstOfPages(s, p, b);
    PagingIsOneShotAt(s[p..], p, left);
    if BoundariesDiffer(one, p) { BoundariesNext(one, p); }
    if BoundariesDiffer(OneShot(s[p..], left), p) { BoundariesBefore(one, p); }
  }

  /** A page whose boundary splits no tie: paged and one-shot results are the same exactly when the rests are. */
  lemma FirstOfPages(s: seq<Event>, p: nat, b: nat)
    requires 0 < p <= |s| && (b == 0 || b > p) && Sorted(s, Newer)
    requires p < |s| ==> s[p - 1].createdAt != s[p].createdAt
    ensures Sorted(s[p..], Newer) && p <= |OneShot(s, b)|
    ensures var left := BudgetLeft(b, p);
      PageOut(s, p, b) == OneShot(s, b) <==> PageOut(s[p..], p, left) == OneShot(s[p..], left)
    ensures OneShot(s, b)[p..] == OneShot(s[p..], BudgetLeft(b, p))
    ensures var one := OneShot(s, b); p < |one| ==> one[p - 1].createdAt != one[p].createdAt
  {
    var left, one := BudgetLeft(b, p), OneShot(s, b);
    RestIsSuffix(s, p);
    FilterSorted(s, Below(s[p - 1].createdAt), Newer);
    OneShotSplits(s, p, b);
    assert PageOut(s, p, b) == s[..p] + PageOut(s[p..], p, left) && one == s[..p] + OneShot(s[p..], left);
    assert PageOut(s, p, b)[p..] == PageOut(s[p..], p, left);
  }

  lemma DistinctStampsPageAll(s: seq<Event>, p: nat, b: nat)
    requires p > 0 && Sorted(s, Newer) && AdjacentDiffer(OneShot(s, b))
    ensures PageOut(s, p, b) == OneShot(s, b)
  {
    PagingIsOneShotAt(s, p, b);
  }

  ghost predicate PagesLikeOneShot(s: seq<Event>, b: nat, p: nat) {
    p > 0 ==> PageOut(s, p, b) == OneShot(s, b)
  }

  /**
   Paging returns what the one-shot query returns, whatever the page size, exactly when the
   one-shot result has no two neighbours with the same timestamp.
   */
  lemma PagingIsOneShotIff(s: seq<Event>, b: nat)
    requires Sorted(s, Newer)
    ensures (forall p: nat :: PagesLikeOneShot(s, b, p)) <==> AdjacentDiffer(OneShot(s, b))
  {
    if AdjacentDiffer(OneShot(s, b)) {
      forall p: nat | p > 0 ensures PagesLikeOneShot(s, b, p) { DistinctStampsPageAll(s, p, b); }
    }
    if PagesLikeOneShot(s, b, 1) { PagingIsOneShotAt(s, 1, b); }
  }
}
