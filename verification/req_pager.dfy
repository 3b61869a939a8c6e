/**
 The REQ pager: several cursors, search hits on the first page only, and a set of ids already
 sent that spans the pages (internal/relay/req_query.go, and the draining loop of
 internal/relay/readqueue.go).
 */
module ReqPager {
  import opened Base
  import opened Nostr
  import opened EventTables
  import opened EventQuery
  import opened Paging
  import opened ReqQuery

  // ---- newREQQueryState ----------------------------------------------------------------

  function WithDefaultLimit(f: NFilter, d: int): NFilter {
    if d > 0 && f.limit.None? then f.(limit := Some(d)) else f
  }

  method ApplyDefaultQueryLimit(filters: seq<NFilter>, d: int) returns (out: seq<NFilter>)
    ensures |out| == |filters| && forall i :: 0 <= i < |out| ==> out[i] == WithDefaultLimit(filters[i], d)
    ensures forall i :: 0 <= i < |out| ==> out[i].(limit := filters[i].limit) == filters[i]
    ensures forall i :: 0 <= i < |out| ==>
      out[i].limit == if d > 0 && filters[i].limit == None then Some(d) else filters[i].limit
  {
    if d <= 0 { return filters; }
    var needsCopy := false;
    for i := 0 to |filters|
      invariant !needsCopy && forall j :: 0 <= j < i ==> filters[j].limit.Some?
    {
      if filters[i].limit.None? {
        needsCopy := true;
        break;
      }
    }
    if !needsCopy { return filters; }
    out := filters;
    for j := 0 to |out|
      invariant |out| == |filters|
      invariant forall i :: 0 <= i < j ==> out[i] == WithDefaultLimit(filters[i], d)
      invariant forall i :: j <= i < |out| ==> out[i] == filters[i]
    {
      if out[j].limit.None? { out := out[j := out[j].(limit := Some(d))]; }
    }
  }

  function BudgetOf(f: NFilter): nat { if f.limit.Some? && f.limit.value > 0 then f.limit.value else 0 }

  function FreshCursor(f: NFilter): Cursor { Cursor(f, None, BudgetOf(f), false) }

  function SearchFree(): NFilter -> bool { (f: NFilter) => !HasSearch(f) }

  function Searching(): NFilter -> bool { (f: NFilter) => HasSearch(f) }

  function Cursors(fs: seq<NFilter>): seq<Cursor> { Map(fs, FreshCursor) }

  // ---- what one page contains ------------------------------------------------------------

  function Hits(v: StoreView, search: seq<NFilter>): seq<Event> {
    if search == [] then []
    else
      var n := |search| - 1;
      Hits(v, search[..n]) + v.rank(SearchText(search[n]), WithoutSearch(search[n]))
  }

  /** Some search filter's ranking holds the event. */
  predicate Ranked(v: StoreView, search: seq<NFilter>, e: Event) {
    exists i :: 0 <= i < |search| && e in v.rank(SearchText(search[i]), WithoutSearch(search[i]))
  }

  predicate Piece(v: StoreView, f: NFilter, hits: seq<Event>, cuts: seq<nat>, i: nat)
    requires i + 1 < |cuts|
  {
    cuts[i] <= cuts[i + 1] <= |hits| && hits[cuts[i]..cuts[i + 1]] == v.rank(SearchText(f), WithoutSearch(f))
  }

  /** The store's rankings one after the other, filter by filter: the i-th lies between the i-th two cuts. */
  predicate CutsAre(v: StoreView, search: seq<NFilter>, hits: seq<Event>, cuts: seq<nat>) {
    && |cuts| == |search| + 1 && cuts[0] == 0 && cuts[|search|] == |hits|
    && forall i: nat :: i < |search| ==> Piece(v, search[i], hits, cuts, i)
  }

  ghost predicate InRankOrder(v: StoreView, search: seq<NFilter>, hits: seq<Event>) {
    exists cuts :: CutsAre(v, search, hits, cuts)
  }

  lemma CutsNext(v: StoreView, search: seq<NFilter>, hits: seq<Event>, cuts: seq<nat>, f: NFilter)
    requires CutsAre(v, search, hits, cuts)
    ensures var more := v.rank(SearchText(f), WithoutSearch(f));
      CutsAre(v, search + [f], hits + more, cuts + [|hits + more|])
  {
    var more := v.rank(SearchText(f), WithoutSearch(f));
    var all, fs, cs := hits + more, search + [f], cuts + [|hits + more|];
    forall i: nat | i < |fs| ensures Piece(v, fs[i], all, cs, i) {
      if i < |search| {
        assert Piece(v, search[i], hits, cuts, i);
        assert all[cs[i]..cs[i + 1]] == hits[cuts[i]..cuts[i + 1]];
      } else {
        assert all[cs[i]..cs[i + 1]] == more;
      }
    }
  }

  lemma {:induction false} HitsInRankOrder(v: StoreView, search: seq<NFilter>)
    ensures InRankOrder(v, search, Hits(v, search))
  {
    if search == [] {
      assert CutsAre(v, search, [], [0]);
    } else {
      var n := |search| - 1;
      HitsInRankOrder(v, search[..n]);
      var cuts :| CutsAre(v, search[..n], Hits(v, search[..n]), cuts);
      CutsNext(v, search[..n], Hits(v, search[..n]), cuts, search[n]);
      assert search[..n] + [search[n]] == search;
    }
  }

  lemma {:induction false} HitsAreRanked(v: StoreView, search: seq<NFilter>, e: Event)
    ensures e in Hits(v, search) <==> Ranked(v, search, e)
  {
    if search != [] {
      var n := |search| - 1;
      HitsAreRanked(v, search[..n], e);
      if Ranked(v, search, e) {
        var i :| 0 <= i < |search| && e in v.rank(SearchText(search[i]), WithoutSearch(search[i]));
        assert i < n ==> search[..n][i] == search[i];
      }
      if Ranked(v, search[..n], e) {
        var i :| 0 <= i < n && e in v.rank(SearchText(search[..n][i]), WithoutSearch(search[..n][i]));
        assert search[i] == search[..n][i];
      }
    }
  }

  predicate OnSomePage(log: seq<Event>, cs: seq<Cursor>, p: nat, e: Event) {
    exists i :: 0 <= i < |cs| && e in PageOf(log, cs[i], p)
  }

  predicate OnSomeShot(log: seq<Event>, cs: seq<Cursor>, e: Event) {
    exists i :: 0 <= i < |cs| && e in Top(log, cs[i].base)
  }

  predicate OnEarlierShot(log: seq<Event>, cs: seq<Cursor>, i: nat, e: Event)
    requires i <= |cs|
  {
    exists j :: 0 <= j < i && e in Top(log, cs[j].base)
  }

  ghost function EarlierShots(log: seq<Event>, cs: seq<Cursor>, i: nat): iset<Event>
    requires i <= |cs|
  {
    iset e | OnEarlierShot(log, cs, i, e)
  }

  predicate OnEarlierPage(log: seq<Event>, cs: seq<Cursor>, i: nat, p: nat, e: Event)
    requires i <= |cs|
  {
    exists j :: 0 <= j < i && e in PageOf(log, cs[j], p)
  }

  ghost function EarlierPages(log: seq<Event>, cs: seq<Cursor>, i: nat, p: nat): iset<Event>
    requires i <= |cs|
  {
    iset e | OnEarlierPage(log, cs, i, p, e)
  }

  /** The first i cursors have advanced by a page, the others not yet. */
  predicate TurnedTo(log: seq<Event>, was: seq<Cursor>, now: seq<Cursor>, i: nat, p: nat)
    requires i <= |was| == |now|
  {
    && (forall j :: 0 <= j < i ==> now[j] == Advance(log, was[j], p))
    && (forall j :: i <= j < |was| ==> now[j] == was[j])
  }

  lemma TurnNext(log: seq<Event>, was: seq<Cursor>, now: seq<Cursor>, i: nat, p: nat, fc: Cursor)
    requires i < |was| == |now| && TurnedTo(log, was, now, i, p) && fc == Advance(log, was[i], p)
    ensures TurnedTo(log, was, now[i := fc], i + 1, p)
  {}

  lemma TurnedAll(log: seq<Event>, was: seq<Cursor>, now: seq<Cursor>, p: nat)
    requires |was| == |now| && TurnedTo(log, was, now, |was|, p)
    ensures now == Map(was, (c: Cursor) => Advance(log, c, p))
    ensures EarlierPages(log, was, |was|, p) == iset e | OnSomePage(log, was, p, e)
  {
    forall e ensures OnEarlierPage(log, was, |was|, p, e) <==> OnSomePage(log, was, p, e) {}
  }

  lemma EarlierPageNext(log: seq<Event>, cs: seq<Cursor>, i: nat, p: nat)
    requires i < |cs|
    ensures EarlierPages(log, cs, i + 1, p) == EarlierPages(log, cs, i, p) + (iset e | e in PageOf(log, cs[i], p))
  {
    forall e ensures OnEarlierPage(log, cs, i + 1, p, e) <==> OnEarlierPage(log, cs, i, p, e) || e in PageOf(log, cs[i], p) {
      if e in PageOf(log, cs[i], p) { assert OnEarlierPage(log, cs, i + 1, p, e); }
    }
  }

  /** These cursors have had their turn, and the page has grown by what they brought. */
  ghost predicate Turned(log: seq<Event>, was: seq<Cursor>, now: seq<Cursor>, i: nat, p: nat, page: iset<Event>,
                         page': iset<Event>) {
    i <= |was| == |now| && TurnedTo(log, was, now, i, p) && page' == page + EarlierPages(log, was, i, p)
  }

  lemma TurnStep(log: seq<Event>, was: seq<Cursor>, now: seq<Cursor>, i: nat, p: nat, page: iset<Event>,
                 page': iset<Event>)
    requires i < |was| && Turned(log, was, now, i, p, page, page')
    ensures now[i] == was[i]
    ensures var fc := Advance(log, was[i], p);
      Turned(log, was, now[i := fc], i + 1, p, page, page' + iset e | e in PageOf(log, was[i], p))
  {
    TurnNext(log, was, now, i, p, Advance(log, was[i], p));
    EarlierPageNext(log, was, i, p);
  }

  /** The events gathered for one page, before removing the ones already sent. */
  ghost predicate Gathered(v: StoreView, cs: seq<Cursor>, hits: seq<Event>, p: nat, e: Event) {
    e in hits || OnSomePage(v.log, cs, p, e)
  }

  /** The first occurrence of each hit not sent before: relevance order is kept. */
  function FreshHits(hits: seq<Event>, seen: set<string>): seq<Event> {
    if hits == [] then []
    else if hits[0].id in seen then FreshHits(hits[1..], seen)
    else [hits[0]] + FreshHits(hits[1..], seen + {hits[0].id})
  }

  lemma IdsOfCons(e: Event, s: seq<Event>)
    ensures Ids([e] + s) == {e.id} + Ids(s)
  {
    assert e in [e] + s;
    assert forall x :: x in s ==> x in [e] + s;
  }

  lemma {:induction false} FreshHitsIds(hits: seq<Event>, seen: set<string>)
    ensures Ids(FreshHits(hits, seen)) == Ids(hits) - seen
  {
    if hits != [] {
      assert hits == [hits[0]] + hits[1..];
      IdsOfCons(hits[0], hits[1..]);
      if hits[0].id in seen {
        FreshHitsIds(hits[1..], seen);
      } else {
        FreshHitsIds(hits[1..], seen + {hits[0].id});
        IdsOfCons(hits[0], FreshHits(hits[1..], seen + {hits[0].id}));
      }
    }
  }

  lemma ConsDistinct(e: Event, s: seq<Event>)
    requires DistinctIds(s) && forall x :: x in s ==> x.id != e.id
    ensures DistinctIds([e] + s)
  {}

  lemma {:induction false} FreshHitsMembers(hits: seq<Event>, seen: set<string>)
    ensures var r := FreshHits(hits, seen);
      DistinctIds(r) && (forall e :: e in r ==> e in hits && e.id !in seen) && Ids(r) == Ids(hits) - seen
  {
    FreshHitsIds(hits, seen);
    if hits != [] {
      if hits[0].id in seen {
        FreshHitsMembers(hits[1..], seen);
      } else {
        FreshHitsMembers(hits[1..], seen + {hits[0].id});
        ConsDistinct(hits[0], FreshHits(hits[1..], seen + {hits[0].id}));
      }
    }
  }

  ghost function GatheredSet(v: StoreView, cs: seq<Cursor>, hits: seq<Event>, p: nat): iset<Event> {
    iset e | Gathered(v, cs, hits, p, e)
  }

  /** No earlier hit has its id, and it was not sent before. */
  predicate IsFirst(hits: seq<Event>, seen: set<string>, j: nat)
    requires j < |hits|
  {
    hits[j].id !in seen && forall i :: 0 <= i < j ==> hits[i].id != hits[j].id
  }

  /** lead holds the hits at these places, in order, and these are the places of all first occurrences. */
  predicate FirstAt(lead: seq<Event>, hits: seq<Event>, seen: set<string>, at: seq<nat>) {
    && |at| == |lead| && (forall a, b :: 0 <= a < b < |at| ==> at[a] < at[b])
    && (forall a :: 0 <= a < |at| ==> at[a] < |hits| && lead[a] == hits[at[a]])
    && (forall j: nat :: j < |hits| ==> (j in at <==> IsFirst(hits, seen, j)))
  }

  ghost predicate FirstOnes(lead: seq<Event>, hits: seq<Event>, seen: set<string>) {
    exists at :: FirstAt(lead, hits, seen, at)
  }

  function Shifted(at: seq<nat>): (r: seq<nat>)
    ensures |r| == |at| && forall a :: 0 <= a < |at| ==> r[a] == at[a] + 1
  {
    seq(|at|, a requires 0 <= a < |at| => at[a] + 1)
  }

  lemma ShiftedMembers(at: seq<nat>, j: nat)
    ensures j + 1 in Shifted(at) <==> j in at
    ensures 0 !in Shifted(at)
  {
    if j in at {
      var a :| 0 <= a < |at| && at[a] == j;
      assert Shifted(at)[a] == j + 1;
    }
  }

  lemma FirstInRest(hits: seq<Event>, seen: set<string>, j: nat)
    requires 0 < j < |hits|
    ensures IsFirst(hits, seen, j) <==> IsFirst(hits[1..], seen + {hits[0].id}, j - 1)
  {
    assert hits[1..][j - 1] == hits[j];
    assert forall i :: 0 < i < j ==> hits[1..][i - 1] == hits[i];
    if IsFirst(hits[1..], seen + {hits[0].id}, j - 1) {
      assert forall i :: 0 < i < j ==> hits[i].id == hits[1..][i - 1].id != hits[j].id;
    }
  }

  /** The places found in the rest are those behind the first. */
  lemma ShiftedFirst(hits: seq<Event>, seen: set<string>, lead: seq<Event>, at: seq<nat>)
    requires hits != [] && FirstAt(lead, hits[1..], seen + {hits[0].id}, at)
    ensures forall j: nat :: j < |hits| ==> (j in Shifted(at) <==> j > 0 && IsFirst(hits, seen, j))
    ensures forall a :: 0 <= a < |at| ==> Shifted(at)[a] < |hits| && lead[a] == hits[Shifted(at)[a]]
  {
    forall j: nat | j < |hits| ensures j in Shifted(at) <==> j > 0 && IsFirst(hits, seen, j) {
      if j > 0 {
        FirstInRest(hits, seen, j);
        ShiftedMembers(at, j - 1);
      } else {
        ShiftedMembers(at, 0);
      }
    }
    forall a | 0 <= a < |at| ensures lead[a] == hits[Shifted(at)[a]] { assert hits[1..][at[a]] == hits[at[a] + 1]; }
  }

  lemma FirstIsSeen(hits: seq<Event>, seen: set<string>, lead: seq<Event>, at: seq<nat>)
    requires hits != [] && FirstAt(lead, hits[1..], seen + {hits[0].id}, at) && hits[0].id in seen
    ensures FirstAt(lead, hits, seen, Shifted(at))
  {
    ShiftedFirst(hits, seen, lead, at);
  }

  lemma FirstIsFresh(hits: seq<Event>, seen: set<string>, lead: seq<Event>, at: seq<nat>)
    requires hits != [] && FirstAt(lead, hits[1..], seen + {hits[0].id}, at) && hits[0].id !in seen
    ensures FirstAt([hits[0]] + lead, hits, seen, [0] + Shifted(at))
  {
    var later, places, all := Shifted(at), [0] + Shifted(at), [hits[0]] + lead;
    ShiftedFirst(hits, seen, lead, at);
    forall a, b | 0 <= a < b < |places| ensures places[a] < places[b] {
      assert places[b] == later[b - 1] && (a > 0 ==> places[a] == later[a - 1]);
    }
    forall a | 0 <= a < |places| ensures places[a] < |hits| && all[a] == hits[places[a]] {
      if a > 0 { assert places[a] == later[a - 1] && all[a] == lead[a - 1]; }
    }
    forall j: nat | j < |hits| ensures j in places <==> IsFirst(hits, seen, j) { InCons(0, later, j); }
  }

  lemma InCons(i: nat, s: seq<nat>, j: nat)
    ensures j in [i] + s <==> j == i || j in s
  {}

  lemma {:induction false} FreshAreFirst(hits: seq<Event>, seen: set<string>)
    ensures FirstOnes(FreshHits(hits, seen), hits, seen)
  {
    if hits == [] {
      assert FirstAt([], hits, seen, []);
    } else {
      FreshAreFirst(hits[1..], seen + {hits[0].id});
      var lead := FreshHits(hits[1..], seen + {hits[0].id});
      var at :| FirstAt(lead, hits[1..], seen + {hits[0].id}, at);
      if hits[0].id in seen {
        FirstIsSeen(hits, seen, lead, at);
        assert seen + {hits[0].id} == seen;
      } else {
        FirstIsFresh(hits, seen, lead, at);
      }
    }
  }

  /** out begins with the first occurrences, among these rankings in order, of what was not sent before. */
  ghost predicate LedByRank(v: StoreView, search: seq<NFilter>, seen: set<string>, out: seq<Event>) {
    exists hits, n: nat :: n <= |out| && InRankOrder(v, search, hits) && FirstOnes(out[..n], hits, seen)
  }

  lemma LeadIsRanked(v: StoreView, search: seq<NFilter>, seen: set<string>, out: seq<Event>)
    requires FreshHits(Hits(v, search), seen) <= out
    ensures LedByRank(v, search, seen, out)
  {
    var lead := FreshHits(Hits(v, search), seen);
    HitsInRankOrder(v, search);
    FreshAreFirst(Hits(v, search), seen);
    assert out[..|lead|] == lead;
  }

  /** A page as sent: fresh search hits in relevance order, then everything else newest first. */
  ghost predicate MergedPage(out: seq<Event>, hits: seq<Event>, page: iset<Event>, seen: set<string>) {
    var lead := FreshHits(hits, seen);
    && |lead| <= |out| && out[..|lead|] == lead
    && Sorted(out[|lead|..], Newer)
    && forall e :: e in out[|lead|..] <==> e in page && e.id !in seen && e.id !in Ids(lead)
  }

  // ---- mergePageEvents --------------------------------------------------------------------

  ghost predicate MapOf(m: map<string, Event>, page: iset<Event>) {
    && (forall id :: id in m ==> m[id].id == id && m[id] in page)
    && (forall e :: e in page ==> e.id in m && m[e.id] == e)
  }

  method MergePageEvents(pageById: map<string, Event>, searchOrder: seq<string>, seen: set<string>,
                         ghost hits: seq<Event>, ghost page: iset<Event>)
    returns (out: seq<Event>, seen': set<string>)
    requires MapOf(pageById, page)
    requires |searchOrder| == |hits| && forall i :: 0 <= i < |hits| ==> searchOrder[i] == hits[i].id && hits[i] in page
    ensures MergedPage(out, hits, page, seen)
    ensures seen' == seen + pageById.Keys
  {
    ghost var lead := FreshHits(hits, seen);
    out, seen' := LeadHits(pageById, searchOrder, seen, hits, page);
    var rest := RestOfPage(pageById, seen', page);
    out := out + rest;
    assert out[..|lead|] == lead && out[|lead|..] == rest;
    seen' := seen' + pageById.Keys;
  }

  /** The search hits not yet sent, in relevance order. */
  method LeadHits(pageById: map<string, Event>, searchOrder: seq<string>, seen: set<string>,
                  ghost hits: seq<Event>, ghost page: iset<Event>)
    returns (out: seq<Event>, seen': set<string>)
    requires MapOf(pageById, page)
    requires |searchOrder| == |hits| && forall i :: 0 <= i < |hits| ==> searchOrder[i] == hits[i].id && hits[i] in page
    ensures out == FreshHits(hits, seen)
    ensures seen' == seen + Ids(out) && seen' <= seen + pageById.Keys
  {
    out, seen' := [], seen;
    ghost var lead := FreshHits(hits, seen);
    for i := 0 to |searchOrder|
      invariant out + FreshHits(hits[i..], seen') == lead
      invariant seen <= seen' && seen' == seen + Ids(out) && seen' <= seen + pageById.Keys
    {
      var id := searchOrder[i];
      assert hits[i] in page && hits[i..][0] == hits[i] && hits[i..][1..] == hits[i + 1..];
      if id in seen' { continue; }
      if id in pageById {
        assert out + ([hits[i]] + FreshHits(hits[i + 1..], seen' + {id})) == (out + [hits[i]]) + FreshHits(hits[i + 1..], seen' + {id});
        seen' := seen' + {id};
        out := out + [pageById[id]];
      }
    }
    assert out == lead;
  }

  /** The ids not yet sent, visited in map order and then sorted newest first. */
  method RestOfPage(pageById: map<string, Event>, seen: set<string>, ghost page: iset<Event>) returns (rest: seq<Event>)
    requires MapOf(pageById, page)
    ensures Sorted(rest, Newer)
    ensures forall e :: e in rest <==> e in page && e.id !in seen
  {
    var ids := pageById.Keys;
    var picked: seq<Event> := [];
    while ids != {}
      invariant ids <= pageById.Keys
      invariant DistinctIds(picked) && forall e :: e in picked ==> e.id !in ids
      invariant forall e :: e in picked <==> e in page && e.id !in seen && e.id !in ids
      decreases ids
    {
      var id :| id in ids;
      ids := ids - {id};
      if id in seen { continue; }
      picked := picked + [pageById[id]];
    }
    rest := Sort(picked, Newer);
    OrdersAreStrict();
    DistinctIdsComparable(picked);
    SortSorted(picked, Newer);
  }

  /** Sorted events of one log have different ids. */
  lemma SortedIdsDiffer(s: seq<Event>, log: seq<Event>)
    requires DistinctIds(log) && Sorted(s, Newer) && forall e :: e in s ==> e in log
    ensures DistinctIds(s)
  {
    OrdersAreStrict();
    forall i, j | 0 <= i < j < |s| ensures s[i].id != s[j].id {
      assert s[i] in s && s[j] in s;
      IdTells(log, s[i], s[j]);
    }
  }

  lemma MergedIds(out: seq<Event>, hits: seq<Event>, page: iset<Event>, seen: set<string>, log: seq<Event>)
    requires MergedPage(out, hits, page, seen) && DistinctIds(log)
    requires forall e :: e in page ==> e in log
    requires forall e :: e in hits ==> e in page
    ensures DistinctIds(out)
    ensures forall e :: e in out <==> e in page && e.id !in seen
  {
    var lead := FreshHits(hits, seen);
    FreshHitsMembers(hits, seen);
    var rest := out[|lead|..];
    assert out == lead + rest;
    SortedIdsDiffer(rest, log);
    forall i, j | 0 <= i < |lead| && 0 <= j < |rest| ensures lead[i].id != rest[j].id {
      assert lead[i].id in Ids(lead) && rest[j] in rest;
    }
    forall e ensures e in out <==> e in page && e.id !in seen {
      if e in page && e.id !in seen && e.id in Ids(lead) {
        var h :| h in lead && h.id == e.id;
        IdTells(log, h, e);
      }
    }
  }

  // ---- gathering a page -------------------------------------------------------------------

  lemma SingleQuery(log: seq<Event>, f: NFilter)
    requires DistinctIds(log)
    ensures Query(log, [f]) == Top(log, f)
  {
    OrdersAreStrict();
    SelectedSorted(log, f);
    forall e ensures e in Top(log, f) <==> InSomeTop(log, [f], e) {
      if e in Top(log, f) { assert e in Top(log, [f][0]); }
    }
    QueryDeterminedByMembers(log, [f], Top(log, f));
  }

  ghost predicate Within(page: iset<Event>, log: seq<Event>) { forall e :: e in page ==> e in log }

  /** pageByID[ev.ID] = ev for each event of one result. */
  method AddEvents(m: map<string, Event>, evs: seq<Event>, ghost page: iset<Event>, ghost log: seq<Event>)
    returns (m': map<string, Event>, ghost page': iset<Event>)
    requires DistinctIds(log) && Within(page, log) && MapOf(m, page)
    requires forall e :: e in evs ==> e in log
    ensures page' == page + (iset e | e in evs)
    ensures Within(page', log) && MapOf(m', page')
  {
    m' := m;
    for i := 0 to |evs|
      invariant MapOf(m', page + iset e | e in evs[..i])
    {
      assert evs[..i + 1] == evs[..i] + [evs[i]];
      assert evs[i] in evs;
      forall e | e in page + (iset x | x in evs[..i]) && e.id == evs[i].id ensures e == evs[i] {
        assert e in log by { if e in evs[..i] { assert e in evs; } }
        SameIdSameEvent(log, e, evs[i]);
      }
      m' := m'[evs[i].id := evs[i]];
    }
    page' := page + iset e | e in evs;
    assert evs[..|evs|] == evs;
  }

  function IdList(evs: seq<Event>): seq<string> { Map(evs, (e: Event) => e.id) }

  lemma IdListAppend(a: seq<Event>, b: seq<Event>)
    ensures IdList(a + b) == IdList(a) + IdList(b)
  {
  }

  lemma HitsNext(v: StoreView, search: seq<NFilter>, i: nat)
    requires i < |search|
    ensures var evs := v.rank(SearchText(search[i]), WithoutSearch(search[i]));
      && Hits(v, search[..i + 1]) == Hits(v, search[..i]) + evs
      && IdList(Hits(v, search[..i + 1])) == IdList(Hits(v, search[..i])) + IdList(evs)
      && forall e :: e in Hits(v, search[..i + 1]) <==> e in Hits(v, search[..i]) || e in evs
  {
    assert search[..i + 1][..i] == search[..i];
    IdListAppend(Hits(v, search[..i]), v.rank(SearchText(search[i]), WithoutSearch(search[i])));
  }

  /** One unpaged query of fetchREQAll. */
  method AddShot(log: seq<Event>, base: NFilter, m: map<string, Event>, ghost page: iset<Event>)
    returns (m': map<string, Event>, ghost page': iset<Event>)
    requires DistinctIds(log) && Within(page, log) && MapOf(m, page)
    ensures page' == page + (iset e | e in Top(log, base))
    ensures Within(page', log) && MapOf(m', page')
  {
    var evs := Query(log, [base]);
    SingleQuery(log, base);
    SelectedSorted(log, base);
    m', page' := AddEvents(m, evs, page, log);
  }

  /** Which queries of a page fail: the search of the i-th filter, the select of the i-th cursor. */
  datatype PageFaults = PageFaults(search: set<nat>, cursor: set<nat>)

  predicate SomeFails(fails: set<nat>, n: nat) { exists i :: i in fails && i < n }

  lemma NoneFailsNext(fails: set<nat>, i: nat)
    requires !SomeFails(fails, i) && i !in fails
    ensures !SomeFails(fails, i + 1)
  {}

  predicate OneOfFails(cs: seq<Cursor>, fails: set<nat>, n: nat)
    requires n <= |cs|
  {
    exists i :: i in fails && i < n && !cs[i].exhausted
  }

  predicate CursorFails(cs: seq<Cursor>, fails: set<nat>) { OneOfFails(cs, fails, |cs|) }

  lemma NoneOfFailsNext(cs: seq<Cursor>, fails: set<nat>, i: nat)
    requires i < |cs| && !OneOfFails(cs, fails, i) && (i in fails ==> cs[i].exhausted)
    ensures !OneOfFails(cs, fails, i + 1)
  {}

  /** SearchEvents for each search filter; None when one fails. */
  method GatherHits(v: StoreView, search: seq<NFilter>, fails: set<nat>)
    returns (r: Option<(map<string, Event>, seq<string>)>, ghost page: iset<Event>)
    requires GoodStore(v)
    ensures page == iset e | e in Hits(v, search)
    ensures r.None? <==> SomeFails(fails, |search|)
    ensures r.Some? ==> Within(page, v.log) && MapOf(r.value.0, page)
    ensures r.Some? ==> r.value.1 == IdList(Hits(v, search))
  {
    var m: map<string, Event>, order: seq<string> := map[], [];
    page := iset{};
    for i := 0 to |search|
      invariant page == iset e | e in Hits(v, search[..i])
      invariant Within(page, v.log) && MapOf(m, page)
      invariant order == IdList(Hits(v, search[..i]))
      invariant !SomeFails(fails, i)
    {
      if i in fails {
        page := iset e | e in Hits(v, search);
        return None, page;
      }
      var evs := v.rank(SearchText(search[i]), WithoutSearch(search[i]));
      HitsNext(v, search, i);
      m, page := AddEvents(m, evs, page, v.log);
      order := order + IdList(evs);
    }
    assert search[..|search|] == search;
    return Some((m, order)), page;
  }

  /** The loop of newREQQueryState: search filters are dropped when search is disabled. */
  method SplitFilters(fs: seq<NFilter>, searchEnabled: bool) returns (nonSearch: seq<Cursor>, search: seq<NFilter>)
    ensures nonSearch == Cursors(Filter(fs, SearchFree()))
    ensures search == if searchEnabled then Filter(fs, Searching()) else []
  {
    nonSearch, search := [], [];
    for i := 0 to |fs|
      invariant nonSearch == Cursors(Filter(fs[..i], SearchFree()))
      invariant search == if searchEnabled then Filter(fs[..i], Searching()) else []
    {
      var f := fs[i];
      SplitStep(fs, i);
      if HasSearch(f) {
        if searchEnabled { search := search + [f]; }
        continue;
      }
      var remaining := 0;
      if f.limit.Some? && f.limit.value > 0 { remaining := f.limit.value; }
      nonSearch := nonSearch + [Cursor(f, None, remaining, false)];
    }
    assert fs[..|fs|] == fs;
  }

  lemma SplitStep(fs: seq<NFilter>, i: nat)
    requires i < |fs|
    ensures Filter(fs[..i + 1], Searching()) == Filter(fs[..i], Searching()) + if HasSearch(fs[i]) then [fs[i]] else []
    ensures Cursors(Filter(fs[..i + 1], SearchFree())) ==
      Cursors(Filter(fs[..i], SearchFree())) + if HasSearch(fs[i]) then [] else [FreshCursor(fs[i])]
  {
    assert fs[..i + 1] == fs[..i] + [fs[i]];
    FilterAppend(fs[..i], [fs[i]], SearchFree());
    FilterAppend(fs[..i], [fs[i]], Searching());
    CursorsAppend(Filter(fs[..i], SearchFree()), Filter([fs[i]], SearchFree()));
  }

  lemma CursorsAppend(a: seq<NFilter>, b: seq<NFilter>)
    ensures Cursors(a + b) == Cursors(a) + Cursors(b)
  {
  }

  lemma PageLength(log: seq<Event>, f: NFilter)
    requires f.limit.Some? && f.limit.value > 0
    ensures |Top(log, f)| <= f.limit.value
  {
  }

  /** The query of one cursor's turn. */
  method QueryCursor(log: seq<Event>, fc: Cursor, p: nat) returns (evs: seq<Event>)
    requires DistinctIds(log) && p > 0 && !fc.exhausted
    ensures evs == PageOf(log, fc, p) && |evs| <= PageLimit(p, fc.remaining)
  {
    var lim := p;
    if fc.remaining > 0 && fc.remaining < lim { lim := fc.remaining; }
    var queryF := fc.base.(limit := Some(lim));
    if fc.until.Some? { queryF := queryF.(until := fc.until); }
    SingleQuery(log, queryF);
    PageLength(log, queryF);
    assert queryF == Narrowed(fc).(limit := Some(PageLimit(p, fc.remaining)));
    return Query(log, [queryF]);
  }

  /** Advance, with the page and its length limit already known. */
  function Moved(c: Cursor, page: seq<Event>, lim: nat): Cursor {
    var remaining := if c.remaining > |page| then c.remaining - |page| else 0;
    Cursor(
      c.base,
      if page == [] then c.until else Some(Pred64(LastOf(page).createdAt)),
      remaining,
      (c.remaining > 0 && remaining == 0) || |page| < lim)
  }

  /** The updates of one cursor's turn, in code order. */
  method MoveCursor(cursor: Cursor, evs: seq<Event>, lim: nat) returns (fc: Cursor)
    requires !cursor.exhausted && |evs| <= lim && (cursor.remaining > 0 ==> lim <= cursor.remaining)
    ensures fc == Moved(cursor, evs, lim)
  {
    fc := cursor;
    if |evs| > 0 {
      var oldest := evs[|evs| - 1].createdAt;
      fc := fc.(until := Some(Pred64(oldest)));
    }
    if fc.remaining > 0 {
      fc := fc.(remaining := fc.remaining - |evs|);
      if fc.remaining <= 0 { fc := fc.(exhausted := true); }
    }
    if |evs| < lim { fc := fc.(exhausted := true); }
  }

  /** One cursor's turn in fetchREQPage. */
  method TurnCursor(log: seq<Event>, cursor: Cursor, p: nat) returns (fc: Cursor, evs: seq<Event>)
    requires DistinctIds(log) && p > 0
    ensures fc == Advance(log, cursor, p) && evs == PageOf(log, cursor, p)
    ensures forall e :: e in evs ==> e in log
  {
    PageStored(log, cursor, p);
    if cursor.exhausted { return cursor, []; }
    evs := QueryCursor(log, cursor, p);
    fc := MoveCursor(cursor, evs, PageLimit(p, cursor.remaining));
  }

  lemma PageStored(log: seq<Event>, c: Cursor, p: nat)
    requires DistinctIds(log)
    ensures forall e :: e in PageOf(log, c, p) ==> e in log
  {
    if !c.exhausted { SelectedSorted(log, Narrowed(c).(limit := Some(PageLimit(p, c.remaining)))); }
  }

  // ---- the pager --------------------------------------------------------------------------

  class ReqQueryState {
    var nonSearch: seq<Cursor>
    var search: seq<NFilter>
    var seen: set<string>
    var searchDone: bool

    constructor (filters: seq<NFilter>, defaultLimit: int, searchEnabled: bool)
      ensures var fs := Map(filters, (f: NFilter) => WithDefaultLimit(f, defaultLimit));
        && nonSearch == Cursors(Filter(fs, SearchFree()))
        && search == (if searchEnabled then Filter(fs, Searching()) else [])
      ensures seen == {} && !searchDone
    {
      nonSearch, search, seen, searchDone := [], [], {}, false;
      new;
      var fs := ApplyDefaultQueryLimit(filters, defaultLimit);
      assert fs == Map(filters, (f: NFilter) => WithDefaultLimit(f, defaultLimit));
      nonSearch, search := SplitFilters(fs, searchEnabled);
    }

    ghost function PageHits(v: StoreView): seq<Event>
      reads this
    {
      if searchDone then [] else Hits(v, search)
    }

    method TurnOne(v: StoreView, p: nat, i: nat, m: map<string, Event>, ghost page: iset<Event>)
      returns (m': map<string, Event>, ghost page': iset<Event>)
      requires GoodStore(v) && p > 0 && Within(page, v.log) && MapOf(m, page) && i < |nonSearch|
      modifies this`nonSearch
      ensures nonSearch == old(nonSearch)[i := Advance(v.log, old(nonSearch)[i], p)]
      ensures page' == page + (iset e | e in PageOf(v.log, old(nonSearch)[i], p))
      ensures Within(page', v.log) && MapOf(m', page')
    {
      var fc, evs := TurnCursor(v.log, nonSearch[i], p);
      m', page' := AddEvents(m, evs, page, v.log);
      nonSearch := nonSearch[i := fc];
    }

    /** The non-search part of one page; false when a query fails. */
    method TurnCursors(v: StoreView, p: nat, m: map<string, Event>, ghost page: iset<Event>, fails: set<nat>)
      returns (ok: bool, m': map<string, Event>, ghost page': iset<Event>)
      requires GoodStore(v) && p > 0 && Within(page, v.log) && MapOf(m, page)
      modifies this`nonSearch
      ensures ok <==> !CursorFails(old(nonSearch), fails)
      ensures ok ==> nonSearch == Map(old(nonSearch), (c: Cursor) => Advance(v.log, c, p))
      ensures ok ==> page' == page + iset e | OnSomePage(v.log, old(nonSearch), p, e)
      ensures ok ==> Within(page', v.log) && MapOf(m', page')
    {
      ghost var cs := nonSearch;
      m', page' := m, page;
      for i := 0 to |nonSearch|
        invariant Within(page', v.log) && MapOf(m', page')
        invariant Turned(v.log, cs, nonSearch, i, p, page, page')
        invariant !OneOfFails(cs, fails, i)
      {
        TurnStep(v.log, cs, nonSearch, i, p, page, page');
        if i in fails && !nonSearch[i].exhausted {
          assert OneOfFails(cs, fails, |cs|);
          return false, m', page';
        }
        NoneOfFailsNext(cs, fails, i);
        m', page' := TurnOne(v, p, i, m', page');
      }
      TurnedAll(v.log, cs, nonSearch, p);
      ok := true;
    }

    method AnyLeft() returns (hasMore: bool)
      ensures hasMore <==> exists i :: 0 <= i < |nonSearch| && !nonSearch[i].exhausted
    {
      hasMore := false;
      for i := 0 to |nonSearch|
        invariant !hasMore && forall j :: 0 <= j < i ==> nonSearch[j].exhausted
      {
        if !nonSearch[i].exhausted { return true; }
      }
    }

    /** The search part of one page, on the first page only; None when the store fails. */
    method FirstHits(v: StoreView, fails: set<nat>)
      returns (r: Option<(map<string, Event>, seq<string>)>, ghost page: iset<Event>)
      requires GoodStore(v)
      modifies this`searchDone
      ensures page == iset e | e in old(PageHits(v))
      ensures r.None? <==> !old(searchDone) && SomeFails(fails, |search|)
      ensures r.Some? ==> searchDone && Within(page, v.log) && MapOf(r.value.0, page)
      ensures r.Some? ==> r.value.1 == IdList(old(PageHits(v)))
    {
      if searchDone {
        page := iset e | e in PageHits(v);
        return Some((map[], [])), page;
      }
      r, page := GatherHits(v, search, fails);
      if r.Some? { searchDone := true; }
    }

    /** fetchREQPage with a positive page size: None when a query it needs fails. */
    method FetchPage(v: StoreView, p: nat, faults: PageFaults)
      returns (r: Option<(seq<Event>, bool)>, ghost page: iset<Event>)
      requires GoodStore(v) && p > 0
      modifies this
      ensures search == old(search)
      ensures r.None? <==>
        (!old(searchDone) && SomeFails(faults.search, |search|)) || CursorFails(old(nonSearch), faults.cursor)
      ensures r.Some? && !old(searchDone) ==> LedByRank(v, search, old(seen), r.value.0)
      ensures page == GatheredSet(v, old(nonSearch), old(PageHits(v)), p)
      ensures r.Some? ==> nonSearch == Map(old(nonSearch), (c: Cursor) => Advance(v.log, c, p))
      ensures r.Some? ==> (searchDone <==> old(searchDone) || nonSearch != [] || search != [])
      ensures r.Some? ==> PageHits(v) == []
      ensures r.Some? ==> Within(page, v.log) && MergedPage(r.value.0, old(PageHits(v)), page, old(seen))
      ensures r.Some? ==> seen == old(seen) + Ids(r.value.0) && Ids(r.value.0) !! old(seen)
      ensures r.Some? ==> (r.value.1 <==> exists i :: 0 <= i < |nonSearch| && !nonSearch[i].exhausted)
    {
      ghost var first, was := !searchDone, seen;
      r, page := MakePage(v, p, faults);
      if first && r.Some? { LeadIsRanked(v, search, was, r.value.0); }
    }

    method MakePage(v: StoreView, p: nat, faults: PageFaults)
      returns (r: Option<(seq<Event>, bool)>, ghost page: iset<Event>)
      requires GoodStore(v) && p > 0
      modifies this
      ensures search == old(search)
      ensures r.None? <==>
        (!old(searchDone) && SomeFails(faults.search, |search|)) || CursorFails(old(nonSearch), faults.cursor)
      ensures page == GatheredSet(v, old(nonSearch), old(PageHits(v)), p)
      ensures r.Some? ==> nonSearch == Map(old(nonSearch), (c: Cursor) => Advance(v.log, c, p))
      ensures r.Some? ==> (searchDone <==> old(searchDone) || nonSearch != [] || search != [])
      ensures r.Some? ==> PageHits(v) == []
      ensures r.Some? ==> Within(page, v.log) && MergedPage(r.value.0, old(PageHits(v)), page, old(seen))
      ensures r.Some? ==> seen == old(seen) + Ids(r.value.0) && Ids(r.value.0) !! old(seen)
      ensures r.Some? ==> (r.value.1 <==> exists i :: 0 <= i < |nonSearch| && !nonSearch[i].exhausted)
    {
      page := GatheredSet(v, nonSearch, PageHits(v), p);
      if |nonSearch| == 0 && |search| == 0 {
        assert PageHits(v) == [];
        return Some(([], false)), page;
      }
      ghost var hits := PageHits(v);
      var first, got := FirstHits(v, faults.search);
      if first.None? { return None, page; }
      var ok, m, got' := TurnCursors(v, p, first.value.0, got, faults.cursor);
      if !ok { return None, page; }
      assert got' == page;
      var hasMore := AnyLeft();
      var out := SendPage(m, first.value.1, hits, page, v.log);
      return Some((out, hasMore)), page;
    }

    method SendPage(m: map<string, Event>, order: seq<string>, ghost hits: seq<Event>, ghost page: iset<Event>,
                    ghost log: seq<Event>)
      returns (out: seq<Event>)
      requires DistinctIds(log) && Within(page, log) && MapOf(m, page)
      requires order == IdList(hits) && forall e :: e in hits ==> e in page
      modifies this`seen
      ensures MergedPage(out, hits, page, old(seen))
      ensures seen == old(seen) + Ids(out) && Ids(out) !! old(seen)
    {
      out, seen := MergePageEvents(m, order, seen, hits, page);
      MergedIds(out, hits, page, old(seen), log);
      SeenGrows(out, m, page, old(seen));
    }

    method Shoot(v: StoreView, i: nat, m: map<string, Event>, ghost page: iset<Event>)
      returns (m': map<string, Event>, ghost page': iset<Event>)
      requires GoodStore(v) && Within(page, v.log) && MapOf(m, page) && i < |nonSearch|
      modifies this`nonSearch
      ensures nonSearch == old(nonSearch)[i := old(nonSearch)[i].(exhausted := true)]
      ensures page' == page + (iset e | e in Top(v.log, old(nonSearch)[i].base))
      ensures Within(page', v.log) && MapOf(m', page')
    {
      m', page' := AddShot(v.log, nonSearch[i].base, m, page);
      nonSearch := nonSearch[i := nonSearch[i].(exhausted := true)];
    }

    /** One query per cursor, which is exhausted by it; false when one fails. */
    method ShootCursors(v: StoreView, m: map<string, Event>, ghost page: iset<Event>, fails: set<nat>)
      returns (ok: bool, m': map<string, Event>, ghost page': iset<Event>)
      requires GoodStore(v) && Within(page, v.log) && MapOf(m, page)
      modifies this`nonSearch
      ensures ok <==> !SomeFails(fails, |old(nonSearch)|)
      ensures ok ==> |nonSearch| == |old(nonSearch)|
      ensures ok ==> forall i :: 0 <= i < |nonSearch| ==> nonSearch[i] == old(nonSearch)[i].(exhausted := true)
      ensures ok ==> page' == page + iset e | OnSomeShot(v.log, old(nonSearch), e)
      ensures ok ==> Within(page', v.log) && MapOf(m', page')
    {
      ghost var cs := nonSearch;
      m', page' := m, page;
      for i := 0 to |nonSearch|
        invariant Within(page', v.log) && MapOf(m', page')
        invariant Shot(v.log, cs, nonSearch, i, page, page')
        invariant !SomeFails(fails, i)
      {
        if i in fails { return false, m', page'; }
        NoneFailsNext(fails, i);
        ShotStep(v.log, cs, nonSearch, i, page, page');
        m', page' := Shoot(v, i, m', page');
      }
      AllShots(v.log, cs);
      ok := true;
    }

    /** fetchREQAll: one query per filter, everything in a single page. */
    method FetchAll(v: StoreView, faults: PageFaults) returns (r: Option<seq<Event>>, ghost page: iset<Event>)
      requires GoodStore(v)
      modifies this
      ensures r.None? <==>
        SomeFails(faults.search, |old(search)|) || SomeFails(faults.cursor, |old(nonSearch)|)
      ensures r.Some? ==> LedByRank(v, search, old(seen), r.value)
      ensures r.Some? ==> forall e: Event ::
        e.id !in old(seen) ==> (e in r.value <==> Ranked(v, search, e) || OnSomeShot(v.log, old(nonSearch), e))
      ensures page == iset e | e in Hits(v, old(search)) || OnSomeShot(v.log, old(nonSearch), e)
      ensures r.Some? ==> searchDone && search == old(search) && |nonSearch| == |old(nonSearch)|
      ensures r.Some? ==> forall i :: 0 <= i < |nonSearch| ==> nonSearch[i] == old(nonSearch)[i].(exhausted := true)
      ensures r.Some? ==> Within(page, v.log) && MergedPage(r.value, Hits(v, search), page, old(seen))
      ensures r.Some? ==> seen == old(seen) + Ids(r.value) && Ids(r.value) !! old(seen)
    {
      page := iset e | e in Hits(v, search) || OnSomeShot(v.log, nonSearch, e);
      var first, got := GatherHits(v, search, faults.search);
      if first.None? { return None, page; }
      searchDone := true;
      var ok, m, got' := ShootCursors(v, first.value.0, got, faults.cursor);
      if !ok { return None, page; }
      assert got' == page;
      ghost var was := seen;
      var out := SendPage(m, first.value.1, Hits(v, search), page, v.log);
      LeadIsRanked(v, search, was, out);
      MergedIds(out, Hits(v, search), page, was, v.log);
      forall e ensures e in Hits(v, search) <==> Ranked(v, search, e) { HitsAreRanked(v, search, e); }
      return Some(out), page;
    }
  }

  /** The first i cursors are exhausted, the others as they were. */
  predicate ShotTo(was: seq<Cursor>, now: seq<Cursor>, i: nat)
    requires i <= |was| == |now|
  {
    && (forall j :: 0 <= j < i ==> now[j] == was[j].(exhausted := true))
    && (forall j :: i <= j < |was| ==> now[j] == was[j])
  }

  /** These cursors have been shot, and the page has grown by what they brought. */
  ghost predicate Shot(log: seq<Event>, was: seq<Cursor>, now: seq<Cursor>, i: nat, page: iset<Event>, page': iset<Event>) {
    i <= |was| == |now| && ShotTo(was, now, i) && page' == page + EarlierShots(log, was, i)
  }

  lemma ShotStep(log: seq<Event>, was: seq<Cursor>, now: seq<Cursor>, i: nat, page: iset<Event>, page': iset<Event>)
    requires i < |was| && Shot(log, was, now, i, page, page')
    ensures now[i] == was[i]
    ensures Shot(log, was, now[i := now[i].(exhausted := true)], i + 1, page, page' + (iset e | e in Top(log, was[i].base)))
  {
    ShotNext(was, now, i);
    EarlierShotNext(log, was, i);
  }

  lemma ShotNext(was: seq<Cursor>, now: seq<Cursor>, i: nat)
    requires i < |was| == |now| && ShotTo(was, now, i)
    ensures ShotTo(was, now[i := now[i].(exhausted := true)], i + 1)
  {}

  lemma AllShots(log: seq<Event>, cs: seq<Cursor>)
    ensures EarlierShots(log, cs, |cs|) == iset e | OnSomeShot(log, cs, e)
  {
    forall e ensures OnEarlierShot(log, cs, |cs|, e) <==> OnSomeShot(log, cs, e) {}
  }

  lemma EarlierShotNext(log: seq<Event>, cs: seq<Cursor>, i: nat)
    requires i < |cs|
    ensures EarlierShots(log, cs, i + 1) == EarlierShots(log, cs, i) + (iset e | e in Top(log, cs[i].base))
  {
    forall e ensures OnEarlierShot(log, cs, i + 1, e) <==> OnEarlierShot(log, cs, i, e) || e in Top(log, cs[i].base) {
      if e in Top(log, cs[i].base) { assert OnEarlierShot(log, cs, i + 1, e); }
    }
  }

  lemma SeenGrows(out: seq<Event>, m: map<string, Event>, page: iset<Event>, seen: set<string>)
    requires MapOf(m, page) && forall e :: e in out <==> e in page && e.id !in seen
    ensures seen + m.Keys == seen + Ids(out) && Ids(out) !! seen
  {
    forall id | id in m && id !in seen ensures id in Ids(out) {
      assert m[id] in out;
    }
  }
}
