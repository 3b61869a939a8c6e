/**
 A whole REQ snapshot: draining every page against fetching everything at once
 (internal/relay/req_query.go; drainRemainingPages of internal/relay/readqueue.go).
 */
module ReqSnapshot {
  import opened Base
  import opened Nostr
  import opened EventTables
  import opened EventQuery
  import opened Paging
  import opened ReqQuery
  import opened ReqPager

  // ---- all that is still to be sent ------------------------------------------------------

  predicate DeliveredBySome(log: seq<Event>, cs: seq<Cursor>, p: nat, e: Event)
    requires p > 0
  {
    exists i :: 0 <= i < |cs| && e in Delivers(log, cs[i], p)
  }

  ghost function WillSend(v: StoreView, cs: seq<Cursor>, hits: seq<Event>, p: nat): iset<Event>
    requires p > 0
  {
    iset e | e in hits || DeliveredBySome(v.log, cs, p, e)
  }

  ghost predicate GoodCursors(log: seq<Event>, cs: seq<Cursor>) {
    forall i :: 0 <= i < |cs| ==> CursorOk(cs[i]) && AboveFloor(log, cs[i].base)
  }

  function AdvanceAll(log: seq<Event>, cs: seq<Cursor>, p: nat): seq<Cursor> {
    Map(cs, (c: Cursor) => Advance(log, c, p))
  }

  /** One page sends its own events and leaves exactly the rest to be sent. */
  lemma PageThenRest(v: StoreView, cs: seq<Cursor>, hits: seq<Event>, p: nat)
    requires DistinctIds(v.log) && GoodCursors(v.log, cs) && p > 0
    ensures GoodCursors(v.log, AdvanceAll(v.log, cs, p))
    ensures WillSend(v, cs, hits, p) ==
      GatheredSet(v, cs, hits, p) + WillSend(v, AdvanceAll(v.log, cs, p), [], p)
  {
    var next := AdvanceAll(v.log, cs, p);
    forall i | 0 <= i < |cs|
      ensures CursorOk(next[i]) && AboveFloor(v.log, next[i].base)
      ensures Delivers(v.log, cs[i], p) == PageOf(v.log, cs[i], p) + Delivers(v.log, next[i], p)
    {
      DeliversUnfolds(v.log, cs[i], p);
    }
    forall e ensures DeliveredBySome(v.log, cs, p, e) <==> OnSomePage(v.log, cs, p, e) || DeliveredBySome(v.log, next, p, e) {
      if DeliveredBySome(v.log, cs, p, e) {
        var i :| 0 <= i < |cs| && e in Delivers(v.log, cs[i], p);
        assert e in PageOf(v.log, cs[i], p) || e in Delivers(v.log, next[i], p);
      }
      if OnSomePage(v.log, cs, p, e) {
        var i :| 0 <= i < |cs| && e in PageOf(v.log, cs[i], p);
        assert e in Delivers(v.log, cs[i], p);
      }
      if DeliveredBySome(v.log, next, p, e) {
        var i :| 0 <= i < |cs| && e in Delivers(v.log, next[i], p);
        assert e in Delivers(v.log, cs[i], p);
      }
    }
  }

  // ---- draining ends ------------------------------------------------------------------------

  ghost function Work(log: seq<Event>, c: Cursor): nat { if c.exhausted then 0 else |Visible(log, c)| + 1 }

  ghost function TotalWork(log: seq<Event>, cs: seq<Cursor>): nat {
    if cs == [] then 0 else Work(log, cs[0]) + TotalWork(log, cs[1..])
  }

  predicate SomeLeft(cs: seq<Cursor>) { exists i :: 0 <= i < |cs| && !cs[i].exhausted }

  lemma OneShrinks(log: seq<Event>, c: Cursor, p: nat)
    requires DistinctIds(log) && CursorOk(c) && AboveFloor(log, c.base) && p > 0
    ensures Work(log, Advance(log, c, p)) <= Work(log, c)
    ensures !c.exhausted ==> Work(log, Advance(log, c, p)) < Work(log, c)
  {
    DeliversUnfolds(log, c, p);
  }

  lemma AdvanceAllFront(log: seq<Event>, cs: seq<Cursor>, p: nat)
    requires cs != []
    ensures AdvanceAll(log, cs, p)[0] == Advance(log, cs[0], p)
    ensures AdvanceAll(log, cs, p)[1..] == AdvanceAll(log, cs[1..], p)
  {}

  lemma {:induction false} WorkShrinks(log: seq<Event>, cs: seq<Cursor>, p: nat)
    requires DistinctIds(log) && GoodCursors(log, cs) && p > 0
    ensures TotalWork(log, AdvanceAll(log, cs, p)) <= TotalWork(log, cs)
    ensures SomeLeft(cs) ==> TotalWork(log, AdvanceAll(log, cs, p)) < TotalWork(log, cs)
  {
    if cs != [] {
      OneShrinks(log, cs[0], p);
      WorkShrinks(log, cs[1..], p);
      AdvanceAllFront(log, cs, p);
      if SomeLeft(cs) && cs[0].exhausted {
        var i :| 0 <= i < |cs| && !cs[i].exhausted;
        assert !cs[1..][i - 1].exhausted;
      }
    }
  }

  lemma ExhaustedStays(log: seq<Event>, cs: seq<Cursor>, p: nat)
    requires SomeLeft(AdvanceAll(log, cs, p))
    ensures SomeLeft(cs)
  {
    var i :| 0 <= i < |cs| && !AdvanceAll(log, cs, p)[i].exhausted;
    assert !cs[i].exhausted;
  }

  lemma SendExtends(v: StoreView, all: seq<Event>, out: seq<Event>, page: iset<Event>, hits: seq<Event>)
    requires GoodStore(v) && DistinctIds(all) && forall e :: e in all ==> e in v.log
    requires Within(page, v.log) && MergedPage(out, hits, page, Ids(all)) && forall e :: e in hits ==> e in page
    ensures DistinctIds(all + out) && Ids(all + out) == Ids(all) + Ids(out)
    ensures (iset e | e in all + out) == (iset e | e in all) + page
    ensures forall e :: e in all + out ==> e in v.log
  {
    MergedIds(out, hits, page, Ids(all), v.log);
    forall e | e in page && e.id in Ids(all) ensures e in all {
      var x :| x in all && x.id == e.id;
      SameIdSameEvent(v.log, x, e);
    }
    forall i, j | 0 <= i < |all| && 0 <= j < |out| ensures all[i].id != out[j].id {
      assert all[i] in all && out[j] in out;
    }
    forall e ensures e in all + out <==> e in all || e in out {}
  }

  /** A page sent from these cursors moves as much from what is left to what is sent. */
  lemma PageSent(v: StoreView, cs: seq<Cursor>, hits: seq<Event>, p: nat, all: seq<Event>, out: seq<Event>,
                 page: iset<Event>)
    requires GoodStore(v) && p > 0 && GoodCursors(v.log, cs) && DistinctIds(all) && forall e :: e in all ==> e in v.log
    requires page == GatheredSet(v, cs, hits, p) && Within(page, v.log)
    requires MergedPage(out, hits, page, Ids(all))
    ensures DistinctIds(all + out) && Ids(all + out) == Ids(all) + Ids(out)
    ensures (forall e :: e in all + out ==> e in v.log) && GoodCursors(v.log, AdvanceAll(v.log, cs, p))
    ensures (iset e | e in all) + WillSend(v, cs, hits, p) ==
      (iset e | e in all + out) + WillSend(v, AdvanceAll(v.log, cs, p), [], p)
  {
    PageThenRest(v, cs, hits, p);
    SendExtends(v, all, out, page, hits);
  }

  // ---- the pages of one snapshot ----------------------------------------------------------------

  /** One result of FetchPage: the events to send, and whether there is more. */
  datatype Page = Page(evs: seq<Event>, more: bool)

  function Flat(pages: seq<Page>): seq<Event> {
    if pages == [] then [] else Flat(pages[..|pages| - 1]) + pages[|pages| - 1].evs
  }

  /** The cursors after n pages. */
  function AdvancedBy(log: seq<Event>, cs: seq<Cursor>, p: nat, n: nat): seq<Cursor> {
    if n == 0 then cs else AdvanceAll(log, AdvancedBy(log, cs, p, n - 1), p)
  }

  /** These are the first pages FetchPage makes of an unchanging store, the search hits on the first. */
  ghost predicate PagesOf(v: StoreView, cs: seq<Cursor>, hits: seq<Event>, p: nat, pages: seq<Page>) {
    forall n: nat :: n < |pages| ==> IsPage(v, cs, hits, p, pages, n)
  }

  ghost predicate IsPage(v: StoreView, cs: seq<Cursor>, hits: seq<Event>, p: nat, pages: seq<Page>, n: nat)
    requires n < |pages|
  {
    var now, lead := AdvancedBy(v.log, cs, p, n), if n == 0 then hits else [];
    && MergedPage(pages[n].evs, lead, GatheredSet(v, now, lead, p), Ids(Flat(pages[..n])))
    && (pages[n].more <==> SomeLeft(AdvanceAll(v.log, now, p)))
  }

  lemma FlatNext(pages: seq<Page>, page: Page)
    ensures Flat(pages + [page]) == Flat(pages) + page.evs
  {
    assert (pages + [page])[..|pages|] == pages;
  }

  lemma PagesNext(v: StoreView, cs: seq<Cursor>, hits: seq<Event>, p: nat, pages: seq<Page>, page: Page)
    requires PagesOf(v, cs, hits, p, pages) && IsPage(v, cs, hits, p, pages + [page], |pages|)
    ensures PagesOf(v, cs, hits, p, pages + [page])
  {
    var more := pages + [page];
    forall n: nat | n < |more| ensures IsPage(v, cs, hits, p, more, n) {
      if n < |pages| {
        assert IsPage(v, cs, hits, p, pages, n);
        assert more[n] == pages[n] && more[..n] == pages[..n];
      }
    }
  }

  lemma PagesFront(v: StoreView, cs: seq<Cursor>, hits: seq<Event>, p: nat, pages: seq<Page>)
    requires PagesOf(v, cs, hits, p, pages) && pages != []
    ensures PagesOf(v, cs, hits, p, pages[..|pages| - 1]) && IsPage(v, cs, hits, p, pages, |pages| - 1)
  {
    var front := pages[..|pages| - 1];
    forall n: nat | n < |front| ensures IsPage(v, cs, hits, p, front, n) {
      assert IsPage(v, cs, hits, p, pages, n);
      assert front[..n] == pages[..n];
    }
  }

  lemma GatheredIsStored(v: StoreView, cs: seq<Cursor>, hits: seq<Event>, p: nat)
    requires GoodStore(v) && forall e :: e in hits ==> e in v.log
    ensures Within(GatheredSet(v, cs, hits, p), v.log)
  {
    forall e | Gathered(v, cs, hits, p, e) ensures e in v.log {
      if OnSomePage(v.log, cs, p, e) {
        var i :| 0 <= i < |cs| && e in PageOf(v.log, cs[i], p);
        PageStored(v.log, cs[i], p);
      }
    }
  }

  /** What the first pages send, and what is left after them, is what the whole snapshot should send. */
  ghost predicate Partition(v: StoreView, cs: seq<Cursor>, hits: seq<Event>, p: nat, pages: seq<Page>)
    requires p > 0
  {
    var all, now := Flat(pages), AdvancedBy(v.log, cs, p, |pages|);
    && DistinctIds(all) && (forall e :: e in all ==> e in v.log) && GoodCursors(v.log, now)
    && WillSend(v, cs, hits, p) == (iset e | e in all) + WillSend(v, now, if pages == [] then hits else [], p)
  }

  lemma {:induction false} PagesPartition(v: StoreView, cs: seq<Cursor>, hits: seq<Event>, p: nat, pages: seq<Page>)
    requires GoodStore(v) && p > 0 && GoodCursors(v.log, cs) && PagesOf(v, cs, hits, p, pages)
    requires forall e :: e in hits ==> e in v.log
    ensures Partition(v, cs, hits, p, pages)
    decreases |pages|
  {
    if pages != [] {
      var n := |pages| - 1;
      PagesFront(v, cs, hits, p, pages);
      PagesPartition(v, cs, hits, p, pages[..n]);
      PartitionNext(v, cs, hits, p, pages);
    }
  }

  lemma PartitionNext(v: StoreView, cs: seq<Cursor>, hits: seq<Event>, p: nat, pages: seq<Page>)
    requires GoodStore(v) && p > 0 && pages != [] && IsPage(v, cs, hits, p, pages, |pages| - 1)
    requires Partition(v, cs, hits, p, pages[..|pages| - 1]) && forall e :: e in hits ==> e in v.log
    ensures Partition(v, cs, hits, p, pages)
  {
    var n := |pages| - 1;
    var now, lead, all := AdvancedBy(v.log, cs, p, n), if n == 0 then hits else [], Flat(pages[..n]);
    GatheredIsStored(v, now, lead, p);
    PageSent(v, now, lead, p, all, pages[n].evs, GatheredSet(v, now, lead, p));
    assert Flat(pages) == all + pages[n].evs && AdvancedBy(v.log, cs, p, |pages|) == AdvanceAll(v.log, now, p);
  }

  lemma NothingLeft(v: StoreView, cs: seq<Cursor>, p: nat)
    requires p > 0 && !SomeLeft(cs)
    ensures WillSend(v, cs, [], p) == iset{}
  {}

  /** Pages up to one that says there is no more hold exactly what the snapshot should send, each event once. */
  lemma CompletePages(v: StoreView, cs: seq<Cursor>, hits: seq<Event>, p: nat, pages: seq<Page>)
    requires GoodStore(v) && p > 0 && GoodCursors(v.log, cs) && PagesOf(v, cs, hits, p, pages)
    requires (forall e :: e in hits ==> e in v.log) && pages != [] && !pages[|pages| - 1].more
    ensures DistinctIds(Flat(pages)) && forall e :: e in Flat(pages) <==> e in WillSend(v, cs, hits, p)
  {
    PagesPartition(v, cs, hits, p, pages);
    PagesFront(v, cs, hits, p, pages);
    NothingLeft(v, AdvancedBy(v.log, cs, p, |pages|), p);
  }

  predicate NoFaults(faults: PageFaults) { faults.search == {} && faults.cursor == {} }

  lemma IdsAppend(a: seq<Event>, b: seq<Event>)
    ensures Ids(a + b) == Ids(a) + Ids(b)
  {
    assert forall e :: e in a + b <==> e in a || e in b;
  }

  /** One page of the loop: the cursors advance, and less is left to do. */
  method DrainPage(st: ReqQueryState, v: StoreView, p: nat, all: seq<Event>, faults: PageFaults)
    returns (ok: bool, page: Page)
    requires GoodStore(v) && p > 0 && GoodCursors(v.log, st.nonSearch) && st.seen == Ids(all)
    modifies st
    ensures NoFaults(faults) ==> ok
    ensures ok ==> st.nonSearch == AdvanceAll(v.log, old(st.nonSearch), p) && GoodCursors(v.log, st.nonSearch)
    ensures ok ==> st.seen == Ids(all + page.evs) && st.PageHits(v) == [] && (page.more <==> SomeLeft(st.nonSearch))
    ensures ok ==>
      MergedPage(page.evs, old(st.PageHits(v)), GatheredSet(v, old(st.nonSearch), old(st.PageHits(v)), p),
        Ids(all))
    ensures ok && page.more ==> TotalWork(v.log, st.nonSearch) < TotalWork(v.log, old(st.nonSearch))
  {
    ghost var cs, hits := st.nonSearch, st.PageHits(v);
    var r, got := st.FetchPage(v, p, faults);
    if r.None? { return false, Page([], false); }
    assert st.nonSearch == AdvanceAll(v.log, cs, p);
    PageThenRest(v, cs, hits, p);
    WorkShrinks(v.log, cs, p);
    IdsAppend(all, r.value.0);
    ok, page := true, Page(r.value.0, r.value.1);
    if page.more { ExhaustedStays(v.log, cs, p); }
  }

  lemma {:induction false} FirstPageFirst(pages: seq<Page>)
    requires pages != []
    ensures pages[0].evs <= Flat(pages)
    decreases |pages|
  {
    if |pages| > 1 {
      FirstPageFirst(pages[..|pages| - 1]);
    } else {
      assert pages[..0] == [] && Flat(pages) == [] + pages[0].evs;
    }
  }

  lemma LeadOf(out: seq<Event>, hits: seq<Event>, page: iset<Event>, seen: set<string>)
    requires MergedPage(out, hits, page, seen)
    ensures FreshHits(hits, seen) <= out
  {}

  lemma LedPages(v: StoreView, cs: seq<Cursor>, search: seq<NFilter>, p: nat, pages: seq<Page>)
    requires PagesOf(v, cs, Hits(v, search), p, pages) && pages != []
    ensures LedByRank(v, search, {}, Flat(pages))
  {
    var hits := Hits(v, search);
    assert IsPage(v, cs, hits, p, pages, 0);
    assert Flat(pages[..0]) == [] && Ids(Flat(pages[..0])) == {};
    LeadOf(pages[0].evs, hits, GatheredSet(v, cs, hits, p), {});
    FirstPageFirst(pages);
    LeadIsRanked(v, search, {}, Flat(pages));
  }

  lemma HitsStored(v: StoreView, search: seq<NFilter>)
    requires GoodStore(v)
    ensures forall e :: e in Hits(v, search) ==> e in v.log
  {
    forall e | e in Hits(v, search) ensures e in v.log { HitsAreRanked(v, search, e); }
  }

  /** One more page of the chain. */
  lemma DrainedPage(v: StoreView, cs: seq<Cursor>, hits: seq<Event>, p: nat, pages: seq<Page>, page: Page)
    requires PagesOf(v, cs, hits, p, pages)
    requires var now, lead := AdvancedBy(v.log, cs, p, |pages|), if pages == [] then hits else [];
      && MergedPage(page.evs, lead, GatheredSet(v, now, lead, p), Ids(Flat(pages)))
      && (page.more <==> SomeLeft(AdvanceAll(v.log, now, p)))
    ensures PagesOf(v, cs, hits, p, pages + [page]) && Flat(pages + [page]) == Flat(pages) + page.evs
  {
    FlatNext(pages, page);
    assert (pages + [page])[..|pages|] == pages;
    PagesNext(v, cs, hits, p, pages, page);
  }

  /** What a chain that has come to its end has sent. */
  lemma DrainedAll(v: StoreView, cs: seq<Cursor>, search: seq<NFilter>, p: nat, pages: seq<Page>)
    requires GoodStore(v) && p > 0 && GoodCursors(v.log, cs) && PagesOf(v, cs, Hits(v, search), p, pages)
    requires pages != [] && !pages[|pages| - 1].more
    ensures DistinctIds(Flat(pages)) && LedByRank(v, search, {}, Flat(pages))
    ensures forall e :: e in Flat(pages) <==> Ranked(v, search, e) || DeliveredBySome(v.log, cs, p, e)
  {
    HitsStored(v, search);
    CompletePages(v, cs, Hits(v, search), p, pages);
    LedPages(v, cs, search, p, pages);
    forall e ensures e in Hits(v, search) <==> Ranked(v, search, e) { HitsAreRanked(v, search, e); }
  }

  /** Pages until one says that there is no more; ok is false when a query of the n-th page failed. */
  method DrainPages(st: ReqQueryState, v: StoreView, p: nat, faults: nat -> PageFaults)
    returns (ok: bool, all: seq<Event>, ghost pages: seq<Page>)
    requires GoodStore(v) && p > 0 && st.seen == {} && !st.searchDone && GoodCursors(v.log, st.nonSearch)
    modifies st
    ensures (forall n :: NoFaults(faults(n))) ==> ok
    ensures ok ==> DistinctIds(all)
    ensures ok ==> forall e :: e in all <==>
      Ranked(v, old(st.search), e) || DeliveredBySome(v.log, old(st.nonSearch), p, e)
    ensures ok ==> LedByRank(v, old(st.search), {}, all)
    ensures ok ==> all == Flat(pages) && PagesOf(v, old(st.nonSearch), Hits(v, old(st.search)), p, pages)
    ensures ok ==> pages != [] && !pages[|pages| - 1].more
  {
    all, pages := [], [];
    ghost var cs, search := st.nonSearch, st.search;
    var n: nat, more := 0, true;
    while more
      invariant n == |pages| && all == Flat(pages) && PagesOf(v, cs, Hits(v, search), p, pages)
      invariant st.nonSearch == AdvancedBy(v.log, cs, p, n) && GoodCursors(v.log, st.nonSearch) && st.seen == Ids(all)
      invariant st.PageHits(v) == if n == 0 then Hits(v, search) else []
      invariant more == if n == 0 then true else pages[n - 1].more
      decreases if more then TotalWork(v.log, st.nonSearch) + 1 else 0
    {
      var page;
      ok, page := DrainPage(st, v, p, all, faults(n));
      if !ok { return false, all, pages; }
      DrainedPage(v, cs, Hits(v, search), p, pages, page);
      all, more, n, pages := all + page.evs, page.more, n + 1, pages + [page];
    }
    ok := true;
    DrainedAll(v, cs, search, p, pages);
  }

  // ---- paged against one-shot ----------------------------------------------------------------

  lemma FreshDelivers(log: seq<Event>, f: NFilter, p: nat)
    requires !HasSearch(f) && p > 0
    ensures Delivers(log, FreshCursor(f), p) == PageOut(Selected(log, f), p, BudgetOf(f))
    ensures Top(log, f) == OneShot(Selected(log, f), BudgetOf(f))
  {
    var c := FreshCursor(f);
    assert Narrowed(c) == f;
  }

  /** A row selected by the filter that paging sends: not a skipped tie, not past the limit. */
  ghost predicate SentByFilter(log: seq<Event>, f: NFilter, p: nat, e: Event)
    requires p > 0
  {
    var s, b := Selected(log, f), BudgetOf(f);
    e in s && !TiedAfterEnd(FullPageEnds(s, p, b), e) && !BeyondBudget(PageOut(s, p, b), b, e)
  }

  /** Exactly what a paged snapshot sends. */
  lemma PagedSnapshotExactly(v: StoreView, filters: seq<NFilter>, hits: seq<Event>, p: nat, e: Event)
    requires GoodStore(v) && p > 0
    ensures var kept := Filter(filters, SearchFree());
      e in WillSend(v, Cursors(kept), hits, p) <==>
        e in hits || exists i :: 0 <= i < |kept| && SentByFilter(v.log, kept[i], p, e)
  {
    var kept := Filter(filters, SearchFree());
    var cs := Cursors(kept);
    forall i | 0 <= i < |kept| ensures e in Delivers(v.log, cs[i], p) <==> SentByFilter(v.log, kept[i], p, e) {
      assert kept[i] in kept;
      FreshDelivers(v.log, kept[i], p);
      SelectedSorted(v.log, kept[i]);
      var s, b := Selected(v.log, kept[i]), BudgetOf(kept[i]);
      PageOutMembers(s, p, b);
      if e in s { PageOutExactly(s, p, b, e); }
    }
    if DeliveredBySome(v.log, cs, p, e) {
      var i :| 0 <= i < |cs| && e in Delivers(v.log, cs[i], p);
      assert SentByFilter(v.log, kept[i], p, e);
    }
    if i :| 0 <= i < |kept| && SentByFilter(v.log, kept[i], p, e) {
      assert e in Delivers(v.log, cs[i], p);
    }
  }

  /** No filter ever sends more rows than its limit. */
  lemma PagedWithinLimit(log: seq<Event>, f: NFilter, p: nat)
    requires DistinctIds(log) && !HasSearch(f) && p > 0
    ensures f.limit.Some? && f.limit.value > 0 ==> |Delivers(log, FreshCursor(f), p)| <= f.limit.value
    ensures forall e :: e in Delivers(log, FreshCursor(f), p) ==> e in log && StoredAccepts(f, e)
  {
    FreshDelivers(log, f, p);
    SelectedSorted(log, f);
    PageOutMembers(Selected(log, f), p, BudgetOf(f));
  }

  /**
   When neighbouring rows of each filter's one-shot result differ in timestamp, the paged
   snapshot sends exactly the events of the one-shot snapshot.
   */
  lemma PagedEqualsOneShot(v: StoreView, filters: seq<NFilter>, hits: seq<Event>, p: nat, e: Event)
    requires GoodStore(v) && p > 0
    requires forall f :: f in Filter(filters, SearchFree()) ==> AdjacentDiffer(Top(v.log, f))
    ensures var cs := Cursors(Filter(filters, SearchFree()));
      e in WillSend(v, cs, hits, p) <==> e in hits || OnSomeShot(v.log, cs, e)
  {
    var kept := Filter(filters, SearchFree());
    var cs := Cursors(kept);
    forall i | 0 <= i < |cs| ensures Delivers(v.log, cs[i], p) == Top(v.log, cs[i].base) {
      assert kept[i] in kept;
      FreshDelivers(v.log, kept[i], p);
      SelectedSorted(v.log, kept[i]);
      DistinctStampsPageAll(Selected(v.log, kept[i]), p, BudgetOf(kept[i]));
    }
    if DeliveredBySome(v.log, cs, p, e) {
      var i :| 0 <= i < |cs| && e in Delivers(v.log, cs[i], p);
      assert e in Top(v.log, cs[i].base);
    }
    if OnSomeShot(v.log, cs, e) {
      var i :| 0 <= i < |cs| && e in Top(v.log, cs[i].base);
      assert e in Delivers(v.log, cs[i], p);
    }
  }
}
