/**
 The initial snapshot of a REQ: paged with one cursor per filter, or fetched in one shot
 (internal/relay/req_query.go).
 */
module ReqQuery {
  import opened Base
  import opened Nostr
  import opened EventTables
  import opened EventQuery
  import opened Paging

  /** A stable store: its log, and the relevance order it gives to a search. */
  datatype StoreView = StoreView(log: seq<Event>, rank: (string, NFilter) -> seq<Event>)

  ghost predicate GoodStore(v: StoreView) {
    DistinctIds(v.log) && forall q, f, e :: e in v.rank(q, f) ==> e in v.log
  }

  // ---- one cursor --------------------------------------------------------------------

  /** remaining is the budget; zero means unlimited. */
  datatype Cursor = Cursor(base: NFilter, until: Option<Int64>, remaining: nat, exhausted: bool)

  function Narrowed(c: Cursor): NFilter { if c.until.Some? then c.base.(until := c.until) else c.base }

  function PageOf(log: seq<Event>, c: Cursor, p: nat): seq<Event> {
    if c.exhausted then [] else Top(log, Narrowed(c).(limit := Some(PageLimit(p, c.remaining))))
  }

  /** The cursor after its page: until = oldest - 1 in int64 arithmetic. */
  function Advance(log: seq<Event>, c: Cursor, p: nat): Cursor {
    if c.exhausted then c
    else
      var page := PageOf(log, c, p);
      var remaining := if c.remaining > |page| then c.remaining - |page| else 0;
      Cursor(
        c.base,
        if page == [] then c.until else Some(Pred64(LastOf(page).createdAt)),
        remaining,
        (c.remaining > 0 && remaining == 0) || |page| < PageLimit(p, c.remaining))
  }

  /** What the cursor can still see, newest first. */
  function Visible(log: seq<Event>, c: Cursor): seq<Event> {
    if c.exhausted then [] else Selected(log, Narrowed(c))
  }

  /** The search-free cursors the pager keeps: until only ever narrows the filter. */
  predicate CursorOk(c: Cursor) {
    && !HasSearch(c.base)
    && (c.until.Some? && c.base.until.Some? ==> c.until.value <= c.base.until.value)
  }

  /** No accepted event sits at the smallest int64, where oldest - 1 wraps around. */
  ghost predicate AboveFloor(log: seq<Event>, base: NFilter) {
    forall e :: e in log && StoredAccepts(base, e) ==> e.createdAt > MIN_INT64
  }

  lemma SelectedSame(log: seq<Event>, f: NFilter, g: NFilter)
    requires HasSearch(f) == HasSearch(g)
    requires forall e :: e in log ==> StoredAccepts(f, e) == StoredAccepts(g, e)
    ensures Selected(log, f) == Selected(log, g)
  {
    FilterSame(log, MatchPred(f), MatchPred(g));
  }

  lemma StoredIgnoresLimit(f: NFilter, lim: Option<int>, e: Event)
    ensures StoredAccepts(f.(limit := lim), e) == StoredAccepts(f, e)
  {
  }

  lemma PageIsPrefix(log: seq<Event>, c: Cursor, p: nat)
    requires !c.exhausted && p > 0
    ensures PageOf(log, c, p) == Take(Visible(log, c), PageLimit(p, c.remaining))
  {
    var f := Narrowed(c).(limit := Some(PageLimit(p, c.remaining)));
    forall e | e in log ensures StoredAccepts(f, e) == StoredAccepts(Narrowed(c), e) {
      StoredIgnoresLimit(Narrowed(c), Some(PageLimit(p, c.remaining)), e);
    }
    SelectedSame(log, f, Narrowed(c));
  }

  lemma StoredWithUntil(f: NFilter, u: Int64, e: Event)
    requires f.until.Some? ==> u <= f.until.value
    ensures StoredAccepts(f.(until := Some(u)), e) <==> StoredAccepts(f, e) && e.createdAt <= u
  {
  }

  /** Narrowing until is filtering the sorted result. */
  lemma NarrowIsFilter(log: seq<Event>, f: NFilter, u: Int64, last: Int64)
    requires DistinctIds(log) && !HasSearch(f) && u == last - 1 && (f.until.Some? ==> u <= f.until.value)
    ensures Selected(log, f.(until := Some(u))) == Filter(Selected(log, f), Below(last))
  {
    var g := f.(until := Some(u));
    OrdersAreStrict();
    SelectedSorted(log, f);
    SelectedSorted(log, g);
    FilterSorted(Selected(log, f), Below(last), Newer);
    forall e ensures e in Selected(log, g) <==> e in Filter(Selected(log, f), Below(last)) {
      StoredWithUntil(f, u, e);
    }
    SortedUnique(Selected(log, g), Filter(Selected(log, f), Below(last)), Newer);
  }

  lemma VisibleAboveFloor(log: seq<Event>, c: Cursor, e: Event)
    requires DistinctIds(log) && CursorOk(c) && AboveFloor(log, c.base) && e in Visible(log, c)
    ensures e.createdAt > MIN_INT64 && e.createdAt - 1 == Pred64(e.createdAt)
    ensures Narrowed(c).until.Some? ==> e.createdAt <= Narrowed(c).until.value
    ensures c.base.until.Some? ==> e.createdAt <= c.base.until.value
  {
    SelectedSorted(log, Narrowed(c));
    if c.until.Some? { StoredWithUntil(c.base.(until := None), c.until.value, e); }
    assert StoredAccepts(c.base, e);
  }

  /** The cursor set to just below a visible event sees exactly the older events. */
  lemma NarrowBelow(log: seq<Event>, c: Cursor, last: Event)
    requires DistinctIds(log) && CursorOk(c) && AboveFloor(log, c.base) && last in Visible(log, c)
    ensures var c' := c.(until := Some(Pred64(last.createdAt)));
      CursorOk(c') && Selected(log, Narrowed(c')) == Filter(Selected(log, Narrowed(c)), Below(last.createdAt))
  {
    VisibleAboveFloor(log, c, last);
    NarrowIsFilter(log, Narrowed(c), Pred64(last.createdAt), last.createdAt);
    assert Narrowed(c).(until := Some(Pred64(last.createdAt))) == Narrowed(c.(until := Some(Pred64(last.createdAt))));
  }

  lemma AdvanceBudget(log: seq<Event>, c: Cursor, p: nat)
    requires p > 0 && !c.exhausted
    ensures var s, n, c' := Visible(log, c), PageLimit(p, c.remaining), Advance(log, c, p);
      && c'.base == c.base
      && (c'.exhausted <==> |s| < n || n == c.remaining)
      && (!c'.exhausted ==> c'.remaining == BudgetLeft(c.remaining, n))
  {
    PageIsPrefix(log, c, p);
  }

  /** A page that holds something moves the cursor to just below its last event. */
  lemma AdvanceMoves(log: seq<Event>, c: Cursor, p: nat)
    requires p > 0 && !c.exhausted && PageOf(log, c, p) != []
    ensures var last := LastOf(PageOf(log, c, p));
      last in Visible(log, c) &&
      Narrowed(Advance(log, c, p)) == Narrowed(c.(until := Some(Pred64(last.createdAt)))) &&
      Advance(log, c, p).until == Some(Pred64(last.createdAt)) && Advance(log, c, p).base == c.base
  {
    PageIsPrefix(log, c, p);
  }

  lemma FullPageLast(log: seq<Event>, c: Cursor, p: nat)
    requires p > 0 && !c.exhausted && |Visible(log, c)| >= PageLimit(p, c.remaining)
    ensures PageOf(log, c, p) != [] && LastOf(PageOf(log, c, p)) == Visible(log, c)[PageLimit(p, c.remaining) - 1]
  {
    PageIsPrefix(log, c, p);
  }

  lemma AdvanceNarrows(log: seq<Event>, c: Cursor, p: nat)
    requires DistinctIds(log) && CursorOk(c) && AboveFloor(log, c.base) && p > 0 && !c.exhausted
    ensures var s, n, c' := Visible(log, c), PageLimit(p, c.remaining), Advance(log, c, p);
      && CursorOk(c')
      && (|s| >= n ==> Selected(log, Narrowed(c')) == Rest(s, n))
  {
    if PageOf(log, c, p) != [] {
      AdvanceMoves(log, c, p);
      NarrowBelow(log, c, LastOf(PageOf(log, c, p)));
    }
    if |Visible(log, c)| >= PageLimit(p, c.remaining) { FullPageLast(log, c, p); }
  }

  /** One page takes the next page off what the cursor sees, and leaves the rest. */
  lemma AdvanceTakesPage(log: seq<Event>, c: Cursor, p: nat)
    requires DistinctIds(log) && CursorOk(c) && AboveFloor(log, c.base) && p > 0 && !c.exhausted
    ensures var s, n, c' := Visible(log, c), PageLimit(p, c.remaining), Advance(log, c, p);
      && CursorOk(c') && c'.base == c.base
      && (if |s| < n || n == c.remaining then c'.exhausted
          else !c'.exhausted && c'.remaining == BudgetLeft(c.remaining, n) && Visible(log, c') == Rest(s, n))
  {
    AdvanceBudget(log, c, p);
    AdvanceNarrows(log, c, p);
  }

  /** Everything the cursor will deliver, over all its pages. */
  function Delivers(log: seq<Event>, c: Cursor, p: nat): seq<Event>
    requires p > 0
  {
    if c.exhausted then [] else PageOut(Visible(log, c), p, c.remaining)
  }

  lemma DeliversUnfolds(log: seq<Event>, c: Cursor, p: nat)
    requires DistinctIds(log) && CursorOk(c) && AboveFloor(log, c.base) && p > 0
    ensures Delivers(log, c, p) == PageOf(log, c, p) + Delivers(log, Advance(log, c, p), p)
    ensures CursorOk(Advance(log, c, p)) && Advance(log, c, p).base == c.base
    ensures !c.exhausted ==> Advance(log, c, p).exhausted || |Visible(log, Advance(log, c, p))| < |Visible(log, c)|
  {
    if !c.exhausted {
      AdvanceTakesPage(log, c, p);
      PageIsPrefix(log, c, p);
      UnfoldFrom(Visible(log, c), p, c.remaining);
    }
  }

  lemma UnfoldFrom(s: seq<Event>, p: nat, b: nat)
    requires p > 0
    ensures var n := PageLimit(p, b);
      if |s| < n || n == b then PageOut(s, p, b) == Take(s, n)
      else PageOut(s, p, b) == Take(s, n) + PageOut(Rest(s, n), p, BudgetLeft(b, n))
  {
    var n := PageLimit(p, b);
    if |s| >= n { assert s[..n] == Take(s, n); }
  }

  // ---- cursor paging ends, exactly when -------------------------------------------------

  function AdvanceTimes(log: seq<Event>, c: Cursor, p: nat, n: nat): Cursor
    decreases n
  {
    if n == 0 then c else AdvanceTimes(log, Advance(log, c, p), p, n - 1)
  }

  ghost predicate Ends(log: seq<Event>, c: Cursor, p: nat) {
    exists n: nat :: AdvanceTimes(log, c, p, n).exhausted
  }

  lemma EndsLater(log: seq<Event>, c: Cursor, p: nat)
    requires Ends(log, Advance(log, c, p), p)
    ensures Ends(log, c, p)
  {
    var n: nat :| AdvanceTimes(log, Advance(log, c, p), p, n).exhausted;
    assert AdvanceTimes(log, c, p, n + 1).exhausted;
  }

  lemma {:induction false} EndsAboveFloor(log: seq<Event>, c: Cursor, p: nat)
    requires DistinctIds(log) && CursorOk(c) && AboveFloor(log, c.base) && p > 0
    ensures Ends(log, c, p)
    decreases if c.exhausted then 0 else |Visible(log, c)| + 1
  {
    if c.exhausted {
      assert AdvanceTimes(log, c, p, 0).exhausted;
    } else {
      DeliversUnfolds(log, c, p);
      EndsAboveFloor(log, Advance(log, c, p), p);
      EndsLater(log, c, p);
    }
  }

  lemma FloorVisible(log: seq<Event>, c: Cursor, e: Event)
    requires DistinctIds(log) && !HasSearch(c.base) && !c.exhausted
    requires e in log && StoredAccepts(c.base, e) && e.createdAt == MIN_INT64
    ensures e in Visible(log, c)
  {
    SelectedSorted(log, Narrowed(c));
    assert StoredAccepts(Narrowed(c), e);
  }

  /** Not exhausted, and with no budget to run out of. */
  predicate Alive(c: Cursor, base: NFilter) { !c.exhausted && c.remaining == 0 && c.base == base }

  /** A single-row page never comes back empty while an event at the floor matches. */
  lemma FloorPageFull(log: seq<Event>, c: Cursor, base: NFilter, e: Event)
    requires DistinctIds(log) && !HasSearch(base) && Alive(c, base)
    requires e in log && StoredAccepts(base, e) && e.createdAt == MIN_INT64
    ensures Alive(Advance(log, c, 1), base)
  {
    FloorVisible(log, c, e);
    PageIsPrefix(log, c, 1);
    assert |PageOf(log, c, 1)| == 1;
  }

  lemma OneAdvance(log: seq<Event>, c: Cursor, p: nat, n: nat)
    requires n > 0
    ensures AdvanceTimes(log, c, p, n) == AdvanceTimes(log, Advance(log, c, p), p, n - 1)
  {}

  lemma {:induction false} FloorNeverEnds(log: seq<Event>, c: Cursor, base: NFilter, e: Event, n: nat)
    requires DistinctIds(log) && !HasSearch(base) && Alive(c, base)
    requires e in log && StoredAccepts(base, e) && e.createdAt == MIN_INT64
    ensures Alive(AdvanceTimes(log, c, 1, n), base)
    decreases n
  {
    if n > 0 {
      var next := Advance(log, c, 1);
      assert Alive(next, base) by { FloorPageFull(log, c, base, e); }
      FloorNeverEnds(log, next, base, e, n - 1);
      OneAdvance(log, c, 1, n);
    }
  }

  /**
   An unlimited filter stops paging for every page size exactly when no matching event has the
   smallest int64 timestamp: there oldest - 1 wraps to the largest and paging starts over.
   */
  lemma UnlimitedPagingEndsIff(log: seq<Event>, base: NFilter)
    requires DistinctIds(log) && !HasSearch(base)
    ensures (forall p: nat :: p > 0 ==> Ends(log, Cursor(base, None, 0, false), p)) <==> AboveFloor(log, base)
  {
    var c := Cursor(base, None, 0, false);
    if AboveFloor(log, base) {
      forall p: nat | p > 0 ensures Ends(log, c, p) { EndsAboveFloor(log, c, p); }
    } else {
      var e :| e in log && StoredAccepts(base, e) && e.createdAt <= MIN_INT64;
      forall n: nat ensures !AdvanceTimes(log, c, 1, n).exhausted { FloorNeverEnds(log, c, base, e, n); }
      assert !Ends(log, c, 1);
    }
  }

  /** With a positive limit the budget alone ends the paging, whatever the timestamps. */
  lemma {:induction false} LimitedPagingEnds(log: seq<Event>, c: Cursor, p: nat)
    requires p > 0 && c.remaining > 0
    ensures Ends(log, c, p)
    decreases c.remaining
  {
    if c.exhausted {
      assert AdvanceTimes(log, c, p, 0).exhausted;
    } else if Advance(log, c, p).exhausted {
      assert AdvanceTimes(log, Advance(log, c, p), p, 0).exhausted;
      EndsLater(log, c, p);
    } else {
      LimitedPagingEnds(log, Advance(log, c, p), p);
      EndsLater(log, c, p);
    }
  }
}
