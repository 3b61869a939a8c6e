/**
 Filters as SQL: the WHERE translation, its agreement with Filter.Matches, and what QueryEvents returns
 (internal/storage/sqlevent/store.go, internal/storage/filter_sql_limit.go).
 */
module EventQuery {
  import opened Base
  import opened Nostr
  import opened EventTables
  import opened EventHistory

  // ---- the WHERE clause ------------------------------------------------------------

  datatype Cond =
    | IdIn(ids: seq<string>)
    | PubkeyIn(authors: seq<string>)
    | KindIn(kinds: seq<int>)
    | CreatedFrom(since: Int64)
    | CreatedTo(until: Int64)
    | TagIn(name: string, vals: seq<string>)
    | Never

  predicate Sat(c: Cond, r: EventRow, tags: seq<TagRow>) {
    match c
    case IdIn(ids) => r.id in ids
    case PubkeyIn(authors) => r.pubkey in authors
    case KindIn(kinds) => r.kind in kinds
    case CreatedFrom(since) => r.createdAt >= since
    case CreatedTo(until) => r.createdAt <= until
    case TagIn(name, vals) => exists x :: x in tags && x.eventId == r.id && x.name == name && x.value in vals
    case Never => false
  }

  predicate SatAll(cs: seq<Cond>, r: EventRow, tags: seq<TagRow>) {
    forall c :: c in cs ==> Sat(c, r, tags)
  }

  lemma SatAllAppend(cs: seq<Cond>, c: Cond, r: EventRow, tags: seq<TagRow>)
    ensures SatAll(cs + [c], r, tags) <==> SatAll(cs, r, tags) && Sat(c, r, tags)
  {
    assert c in cs + [c];
    assert forall x :: x in cs ==> x in cs + [c];
  }

  /** The row-level meaning of a filter, independent of how its clauses are built. */
  predicate RowColumnsMatch(f: NFilter, r: EventRow) {
    && (f.ids == [] || r.id in f.ids)
    && (f.authors == [] || r.pubkey in f.authors)
    && (f.kinds == [] || r.kind in f.kinds)
    && (f.since.Some? ==> f.since.value <= r.createdAt)
    && (f.until.Some? ==> r.createdAt <= f.until.value)
  }

  /** The tag name SQL looks for: the key without its first character, whatever that is. */
  function SqlName(key: string): string { if key == "" then "" else key[1..] }

  predicate RowTagMatch(k: string, vals: seq<string>, r: EventRow, tags: seq<TagRow>) {
    exists x :: x in tags && x.eventId == r.id && x.name == SqlName(k) && x.value in vals
  }

  predicate RowMatches(f: NFilter, r: EventRow, tags: seq<TagRow>) {
    RowColumnsMatch(f, r) && forall k :: k in f.tag ==> RowTagMatch(k, f.tag[k], r, tags)
  }

  /** applyFilterQueryPrefix: clauses in code order, the tag map in any order. */
  method ApplyFilterQuery(f: NFilter) returns (cs: seq<Cond>)
    requires Readable(f)
    ensures forall r, tags :: SatAll(cs, r, tags) <==> RowMatches(f, r, tags)
  {
    cs := ColumnConds(f);
    var keys := f.tag.Keys;
    while keys != {}
      invariant keys <= f.tag.Keys
      invariant forall r, tags :: SatAll(cs, r, tags) <==>
        RowColumnsMatch(f, r) && forall k :: k in f.tag && k !in keys ==> RowTagMatch(k, f.tag[k], r, tags)
      decreases keys
    {
      var key :| key in keys;
      var vals := f.tag[key];
      if |vals| == 0 {
        forall r, tags ensures SatAll(cs + [Never], r, tags) <==> RowMatches(f, r, tags) {
          SatAllAppend(cs, Never, r, tags);
          assert !RowTagMatch(key, f.tag[key], r, tags);
        }
        cs := cs + [Never];
        return;
      }
      var c := TagIn(key[1..], vals);
      forall r, tags ensures SatAll(cs + [c], r, tags) <==> SatAll(cs, r, tags) && RowTagMatch(key, vals, r, tags) {
        SatAllAppend(cs, c, r, tags);
      }
      cs := cs + [c];
      keys := keys - {key};
    }
  }

  method ColumnConds(f: NFilter) returns (cs: seq<Cond>)
    ensures forall r, tags :: SatAll(cs, r, tags) <==> RowColumnsMatch(f, r)
  {
    cs := [];
    if |f.ids| > 0 { cs := Where(cs, IdIn(f.ids)); }
    if |f.authors| > 0 { cs := Where(cs, PubkeyIn(f.authors)); }
    if |f.kinds| > 0 { cs := Where(cs, KindIn(f.kinds)); }
    if f.since.Some? { cs := Where(cs, CreatedFrom(f.since.value)); }
    if f.until.Some? { cs := Where(cs, CreatedTo(f.until.value)); }
  }

  function Where(cs: seq<Cond>, c: Cond): (out: seq<Cond>)
    ensures forall r, tags :: SatAll(out, r, tags) <==> SatAll(cs, r, tags) && Sat(c, r, tags)
  {
    assert forall r, tags :: SatAll(cs + [c], r, tags) <==> SatAll(cs, r, tags) && Sat(c, r, tags) by {
      forall r, tags ensures SatAll(cs + [c], r, tags) <==> SatAll(cs, r, tags) && Sat(c, r, tags) {
        SatAllAppend(cs, c, r, tags);
      }
    }
    cs + [c]
  }

  // ---- one stored event ------------------------------------------------------------

  /** How a tag is indexed: name and first value, a missing value stored as "". */
  predicate IndexedTagHit(t: Tag, name: string, want: seq<string>) {
    && name == (if |t| > 0 then t[0] else "")
    && (if |t| > 1 then t[1] else "") in want
  }

  /** What the SQL translation accepts, read off the event itself. */
  predicate StoredAccepts(f: NFilter, e: Event) {
    && RowColumnsMatch(f, ToRow(e))
    && forall k :: k in f.tag ==> OwnTagIndexed(e, k, f.tag[k])
  }

  predicate OwnTagIndexed(e: Event, k: string, vals: seq<string>) {
    exists i :: 0 <= i < |e.tags| && IndexedTagHit(e.tags[i], SqlName(k), vals)
  }

  lemma OwnRows(log: seq<Event>, e: Event)
    requires DistinctIds(log) && e in log
    ensures forall x :: x in TagRowsOf(e) <==> x in Image(log).tags && x.eventId == e.id
  {
    IndexesMirrorLog(log, e);
    assert forall x :: x in Filter(Image(log).tags, OfTag(e.id)) <==> x in Image(log).tags && OfTag(e.id)(x);
  }

  lemma OwnTagHasRow(e: Event, tags: seq<TagRow>, k: string, vals: seq<string>)
    requires OwnTagIndexed(e, k, vals) && forall x :: x in TagRowsOf(e) ==> x in tags
    ensures RowTagMatch(k, vals, ToRow(e), tags)
  {
    var i :| 0 <= i < |e.tags| && IndexedTagHit(e.tags[i], SqlName(k), vals);
    assert TagRowsOf(e)[i] in TagRowsOf(e);
  }

  lemma RowIsOwnTag(e: Event, k: string, vals: seq<string>, x: TagRow)
    requires x in TagRowsOf(e) && x.name == SqlName(k) && x.value in vals
    ensures OwnTagIndexed(e, k, vals)
  {
    var i :| 0 <= i < |e.tags| && TagRowsOf(e)[i] == x;
    assert IndexedTagHit(e.tags[i], SqlName(k), vals);
  }

  lemma TagMatchIsOwn(log: seq<Event>, e: Event, k: string, vals: seq<string>)
    requires DistinctIds(log) && e in log
    ensures RowTagMatch(k, vals, ToRow(e), Image(log).tags) <==> OwnTagIndexed(e, k, vals)
  {
    OwnRows(log, e);
    if OwnTagIndexed(e, k, vals) { OwnTagHasRow(e, Image(log).tags, k, vals); }
    if x :| x in Image(log).tags && x.eventId == e.id && x.name == SqlName(k) && x.value in vals {
      RowIsOwnTag(e, k, vals, x);
    }
  }

  lemma RowMatchesOwnTags(log: seq<Event>, f: NFilter, e: Event)
    requires DistinctIds(log) && e in log
    ensures RowMatches(f, ToRow(e), Image(log).tags) <==> StoredAccepts(f, e)
  {
    forall k | k in f.tag
      ensures RowTagMatch(k, f.tag[k], ToRow(e), Image(log).tags) <==> OwnTagIndexed(e, k, f.tag[k])
    {
      TagMatchIsOwn(log, e, k, f.tag[k]);
    }
  }

  // ---- SQL and Matches agree, exactly when ---------------------------------------------

  ghost predicate Agrees(f: NFilter, e: Event) { StoredAccepts(f, e) <==> Accepts(f, e) }

  /** Every value that brings an event past condition j in SQL brings it past k in Matches, and is a value. */
  predicate SqlCovers(f: NFilter, j: string, k: string)
    requires j in f.tag && k in f.tag
  {
    SqlName(j) == TrimHash(k) && "" !in f.tag[j] && forall v :: v in f.tag[j] ==> v in f.tag[k]
  }

  /** And the other way round. */
  predicate MatchCovers(f: NFilter, j: string, k: string)
    requires j in f.tag && k in f.tag
  {
    TrimHash(j) == SqlName(k) && forall v :: v in f.tag[j] ==> v in f.tag[k]
  }

  predicate SqlCovered(f: NFilter, k: string)
    requires k in f.tag
  {
    exists j :: j in f.tag && SqlCovers(f, j, k)
  }

  predicate MatchCovered(f: NFilter, k: string)
    requires k in f.tag
  {
    exists j :: j in f.tag && MatchCovers(f, j, k)
  }

  predicate Uncovered(f: NFilter, k: string) { k in f.tag && !(SqlCovered(f, k) && MatchCovered(f, k)) }

  ghost predicate Covered(f: NFilter) { forall k :: !Uncovered(f, k) }

  /** A tag that meets condition j in SQL, and k in Matches only if it must. */
  ghost function SqlTag(f: NFilter, k: string, j: string): Tag
    requires j in f.tag && k in f.tag && !Impossible(f)
  {
    if SqlName(j) == TrimHash(k) && "" in f.tag[j] then [SqlName(j)]
    else if SqlName(j) == TrimHash(k) && !SqlCovers(f, j, k) then
      var v :| v in f.tag[j] && v !in f.tag[k];
      [SqlName(j), v]
    else [SqlName(j), f.tag[j][0]]
  }

  /** A tag that meets condition j in Matches, and k in SQL only if it must. */
  ghost function MatchTag(f: NFilter, k: string, j: string): Tag
    requires j in f.tag && k in f.tag && !Impossible(f)
  {
    if TrimHash(j) == SqlName(k) && !MatchCovers(f, j, k) then
      var v :| v in f.tag[j] && v !in f.tag[k];
      [TrimHash(j), v]
    else [TrimHash(j), f.tag[j][0]]
  }

  function SomeKind(f: NFilter): int { if f.kinds == [] then 1 else f.kinds[0] }

  lemma SqlTagWorks(f: NFilter, k: string, j: string)
    requires j in f.tag && k in f.tag && !Impossible(f)
    ensures IndexedTagHit(SqlTag(f, k, j), SqlName(j), f.tag[j])
    ensures !SqlCovers(f, j, k) ==> !TagHit(SqlTag(f, k, j), TrimHash(k), f.tag[k])
  {}

  lemma MatchTagWorks(f: NFilter, k: string, j: string)
    requires j in f.tag && k in f.tag && !Impossible(f)
    ensures TagHit(MatchTag(f, k, j), TrimHash(j), f.tag[j])
    ensures !MatchCovers(f, j, k) ==> !IndexedTagHit(MatchTag(f, k, j), SqlName(k), f.tag[k])
  {}

  ghost function SqlTags(f: NFilter, k: string): map<string, Tag>
    requires k in f.tag && !Impossible(f)
  {
    map j | j in f.tag :: SqlTag(f, k, j)
  }

  ghost function MatchTags(f: NFilter, k: string): map<string, Tag>
    requires k in f.tag && !Impossible(f)
  {
    map j | j in f.tag :: MatchTag(f, k, j)
  }

  /** Where no condition covers k in SQL, an event it returns and Matches rejects. */
  lemma SqlOnly(f: NFilter, k: string) returns (e: Event)
    requires !HasSearch(f) && !Impossible(f) && k in f.tag && !SqlCovered(f, k)
    ensures StoredAccepts(f, e) && !Accepts(f, e)
  {
    e := Sample(f, SomeKind(f), Chosen(SqlTags(f, k), f.tag.Keys));
    forall j | j in f.tag ensures OwnTagIndexed(e, j, f.tag[j]) {
      var i := ChosenFor(SqlTags(f, k), f.tag.Keys, j);
      SqlTagWorks(f, k, j);
    }
    forall i | 0 <= i < |e.tags| ensures !TagHit(e.tags[i], TrimHash(k), f.tag[k]) {
      var j := ChosenFrom(SqlTags(f, k), f.tag.Keys, i);
      SqlTagWorks(f, k, j);
    }
  }

  /** Where none covers it in Matches, an event that accepts and SQL does not return. */
  lemma MatchOnly(f: NFilter, k: string) returns (e: Event)
    requires !HasSearch(f) && !Impossible(f) && k in f.tag && !MatchCovered(f, k)
    ensures Accepts(f, e) && !StoredAccepts(f, e)
  {
    e := Sample(f, SomeKind(f), Chosen(MatchTags(f, k), f.tag.Keys));
    forall j | j in f.tag ensures exists i :: 0 <= i < |e.tags| && TagHit(e.tags[i], TrimHash(j), f.tag[j]) {
      var i := ChosenFor(MatchTags(f, k), f.tag.Keys, j);
      MatchTagWorks(f, k, j);
    }
    forall i | 0 <= i < |e.tags| ensures !IndexedTagHit(e.tags[i], SqlName(k), f.tag[k]) {
      var j := ChosenFrom(MatchTags(f, k), f.tag.Keys, i);
      MatchTagWorks(f, k, j);
    }
  }

  lemma SqlHitIsMatchHit(f: NFilter, e: Event, j: string, k: string)
    requires j in f.tag && k in f.tag && SqlCovers(f, j, k) && OwnTagIndexed(e, j, f.tag[j])
    ensures exists i :: 0 <= i < |e.tags| && TagHit(e.tags[i], TrimHash(k), f.tag[k])
  {
    var i :| 0 <= i < |e.tags| && IndexedTagHit(e.tags[i], SqlName(j), f.tag[j]);
    assert TagHit(e.tags[i], TrimHash(k), f.tag[k]);
  }

  lemma MatchHitIsSqlHit(f: NFilter, e: Event, j: string, k: string)
    requires j in f.tag && k in f.tag && MatchCovers(f, j, k)
    requires exists i :: 0 <= i < |e.tags| && TagHit(e.tags[i], TrimHash(j), f.tag[j])
    ensures OwnTagIndexed(e, k, f.tag[k])
  {
    var i :| 0 <= i < |e.tags| && TagHit(e.tags[i], TrimHash(j), f.tag[j]);
    assert IndexedTagHit(e.tags[i], SqlName(k), f.tag[k]);
  }

  lemma CoveredAgrees(f: NFilter, e: Event)
    requires !HasSearch(f) && Covered(f)
    ensures Agrees(f, e)
  {
    if StoredAccepts(f, e) {
      forall k | k in f.tag ensures exists i :: 0 <= i < |e.tags| && TagHit(e.tags[i], TrimHash(k), f.tag[k]) {
        assert !Uncovered(f, k);
        var j :| j in f.tag && SqlCovers(f, j, k);
        SqlHitIsMatchHit(f, e, j, k);
      }
    }
    if Accepts(f, e) {
      forall k | k in f.tag ensures OwnTagIndexed(e, k, f.tag[k]) {
        assert !Uncovered(f, k);
        var j :| j in f.tag && MatchCovers(f, j, k);
        MatchHitIsSqlHit(f, e, j, k);
      }
    }
  }

  lemma ImpossibleAgrees(f: NFilter, e: Event)
    requires Impossible(f)
    ensures !StoredAccepts(f, e) && !Accepts(f, e)
  {
    if k :| k in f.tag && f.tag[k] == [] {
      assert forall i :: 0 <= i < |e.tags| ==> !IndexedTagHit(e.tags[i], SqlName(k), f.tag[k]);
      assert forall i :: 0 <= i < |e.tags| ==> !TagHit(e.tags[i], TrimHash(k), f.tag[k]);
    }
  }

  /**
   Historical queries and live fan-out agree on every event exactly when the filter is impossible, or each of
   its tag conditions is covered by one that the other side reads under the same name.
   */
  lemma SqlAgreesWithMatchesIff(f: NFilter)
    requires !HasSearch(f)
    ensures (forall e :: Agrees(f, e)) <==> Impossible(f) || Covered(f)
  {
    if Impossible(f) {
      forall e ensures Agrees(f, e) { ImpossibleAgrees(f, e); }
    } else if Covered(f) {
      forall e ensures Agrees(f, e) { CoveredAgrees(f, e); }
    } else {
      UncoveredSplits(f);
    }
  }

  lemma UncoveredSplits(f: NFilter)
    requires !HasSearch(f) && !Impossible(f) && !Covered(f)
    ensures exists e :: !Agrees(f, e)
  {
    var k :| Uncovered(f, k);
    var e;
    if !SqlCovered(f, k) { e := SqlOnly(f, k); } else { e := MatchOnly(f, k); }
    assert !Agrees(f, e);
  }

  predicate WantsEmptyValue(f: NFilter) { exists k :: k in f.tag && "" in f.tag[k] }

  predicate HashedKeys(f: NFilter) { forall k :: k in f.tag ==> k != "" && k[0] == '#' }

  /** Of filters whose keys all begin with '#', those that ask for no empty value: bare tags are indexed as "". */
  lemma HashedCoveredIff(f: NFilter)
    requires HashedKeys(f)
    ensures Covered(f) <==> !WantsEmptyValue(f)
  {
    if WantsEmptyValue(f) {
      var k :| k in f.tag && "" in f.tag[k];
      HashedKeyCovers(f, k);
      assert Uncovered(f, k);
    } else if !Covered(f) {
      var k :| Uncovered(f, k);
      HashedKeyCovers(f, k);
    }
  }

  lemma HashedKeyCovers(f: NFilter, k: string)
    requires HashedKeys(f) && k in f.tag
    ensures MatchCovered(f, k) && (SqlCovered(f, k) <==> "" !in f.tag[k])
  {
    assert MatchCovers(f, k, k) && ("" !in f.tag[k] ==> SqlCovers(f, k, k));
    forall j | j in f.tag && SqlName(j) == TrimHash(k) ensures j == k {
      assert j == [j[0]] + j[1..] && k == [k[0]] + k[1..];
    }
  }

  /** A key without '#': SQL looks for the tag "bc" and Matches for "abc". */
  lemma BareKeySplits(v: string) returns (f: NFilter, e: Event)
    ensures Readable(f) && !HasSearch(f) && f.tag == map["abc" := [v]] && e.tags == [["bc", v]]
    ensures StoredAccepts(f, e) && !Accepts(f, e)
  {
    f := NFilter([], [], [], None, None, None, None, map["abc" := [v]]);
    e := Event("", "", 0, 1, [["bc", v]], "", "");
    assert SqlName("abc") == "bc" && TrimHash("abc") == "abc";
    assert IndexedTagHit(e.tags[0], SqlName("abc"), [v]);
    assert "bc" != "abc";
  }

  // ---- QueryEvents -------------------------------------------------------------------

  /** FilterSQLLimit: only a positive limit becomes a LIMIT clause. */
  function SqlLimit(f: NFilter): Option<nat> {
    if f.limit.Some? && f.limit.value > 0 then Some(f.limit.value) else None
  }

  function Limited<T>(s: seq<T>, lim: Option<nat>): (r: seq<T>)
    ensures r <= s
  {
    if lim.Some? then Take(s, lim.value) else s
  }

  function MatchPred(f: NFilter): Event -> bool { (e: Event) => StoredAccepts(f, e) }

  /** All stored events a filter selects, newest first; a search filter selects none here. */
  function Selected(log: seq<Event>, f: NFilter): seq<Event> {
    if HasSearch(f) then [] else Sort(Filter(log, MatchPred(f)), Newer)
  }

  /** One SELECT ... ORDER BY created_at DESC, id ASC LIMIT n. */
  function Top(log: seq<Event>, f: NFilter): seq<Event> { Limited(Selected(log, f), SqlLimit(f)) }

  predicate InSomeTop(log: seq<Event>, fs: seq<NFilter>, e: Event) {
    exists i :: 0 <= i < |fs| && e in Top(log, fs[i])
  }

  function TopPred(log: seq<Event>, fs: seq<NFilter>): Event -> bool { (e: Event) => InSomeTop(log, fs, e) }

  /** The duplicate-free union of the per-filter selections, newest first. */
  function Query(log: seq<Event>, fs: seq<NFilter>): seq<Event> {
    Sort(Filter(log, TopPred(log, fs)), Newer)
  }

  lemma SelectedSorted(log: seq<Event>, f: NFilter)
    requires DistinctIds(log)
    ensures Sorted(Selected(log, f), Newer)
    ensures forall e :: e in Selected(log, f) <==> e in log && !HasSearch(f) && StoredAccepts(f, e)
  {
    OrdersAreStrict();
    FilterDistinctIds(log, MatchPred(f));
    DistinctIdsComparable(Filter(log, MatchPred(f)));
    SortSorted(Filter(log, MatchPred(f)), Newer);
  }

  lemma QuerySorted(log: seq<Event>, fs: seq<NFilter>)
    requires DistinctIds(log)
    ensures Sorted(Query(log, fs), Newer)
    ensures forall e :: e in Query(log, fs) <==> InSomeTop(log, fs, e)
  {
    OrdersAreStrict();
    FilterDistinctIds(log, TopPred(log, fs));
    DistinctIdsComparable(Filter(log, TopPred(log, fs)));
    SortSorted(Filter(log, TopPred(log, fs)), Newer);
    forall e | InSomeTop(log, fs, e) ensures e in log {
      var i :| 0 <= i < |fs| && e in Top(log, fs[i]);
      SelectedSorted(log, fs[i]);
    }
  }

  /** Two queries with the same members are the same sequence. */
  lemma QueryDeterminedByMembers(log: seq<Event>, fs: seq<NFilter>, out: seq<Event>)
    requires DistinctIds(log) && Sorted(out, Newer)
    requires forall e :: e in out <==> InSomeTop(log, fs, e)
    ensures out == Query(log, fs)
  {
    OrdersAreStrict();
    QuerySorted(log, fs);
    SortedUnique(out, Query(log, fs), Newer);
  }

  /** Without limits the query returns exactly the stored events some filter accepts. */
  lemma QueryIsUnion(log: seq<Event>, fs: seq<NFilter>, e: Event)
    requires DistinctIds(log) && forall i :: 0 <= i < |fs| ==> SqlLimit(fs[i]).None?
    ensures e in Query(log, fs) <==>
      e in log && exists i :: 0 <= i < |fs| && !HasSearch(fs[i]) && StoredAccepts(fs[i], e)
  {
    QuerySorted(log, fs);
    forall i | 0 <= i < |fs| ensures e in Top(log, fs[i]) <==> e in log && !HasSearch(fs[i]) && StoredAccepts(fs[i], e) {
      SelectedSorted(log, fs[i]);
    }
  }

  /** The stored events this filter accepts that come before e in the result. */
  function Before(log: seq<Event>, f: NFilter, e: Event): set<Event> {
    set o | o in log && StoredAccepts(f, o) && Newer(o, e)
  }

  /** A positive limit leaves room for e. */
  predicate WithinLimit(log: seq<Event>, f: NFilter, e: Event) {
    f.limit.Some? && f.limit.value > 0 ==> |Before(log, f, e)| < f.limit.value
  }

  function FirstOf(s: seq<Event>, k: nat): set<Event>
    requires k <= |s|
  {
    set i | 0 <= i < k :: s[i]
  }

  lemma FirstOfNext(s: seq<Event>, k: nat)
    requires Sorted(s, Newer) && k < |s|
    ensures FirstOf(s, k + 1) == FirstOf(s, k) + {s[k]} && s[k] !in FirstOf(s, k)
  {
    OrdersAreStrict();
    forall i | 0 <= i < k ensures s[i] != s[k] { assert Newer(s[i], s[k]); }
  }

  lemma {:induction false} FirstOfSize(s: seq<Event>, k: nat)
    requires Sorted(s, Newer) && k <= |s|
    ensures |FirstOf(s, k)| == k
  {
    if k > 0 {
      FirstOfSize(s, k - 1);
      FirstOfNext(s, k - 1);
    }
  }

  /** In a sorted sequence the elements before the k-th are its first k. */
  lemma PlaceIsRank(s: seq<Event>, k: nat)
    requires Sorted(s, Newer) && k < |s|
    ensures forall o :: o in s && Newer(o, s[k]) <==> o in FirstOf(s, k)
  {
    OrdersAreStrict();
    forall o ensures o in s && Newer(o, s[k]) <==> o in FirstOf(s, k) {
      if o in s && Newer(o, s[k]) {
        var i :| 0 <= i < |s| && s[i] == o;
        NewerIsAsymmetric(o, s[k]);
        assert i < k;
      }
    }
  }

  lemma RankInTop(log: seq<Event>, f: NFilter, k: nat)
    requires DistinctIds(log) && !HasSearch(f) && k < |Selected(log, f)|
    ensures |Before(log, f, Selected(log, f)[k])| == k
  {
    var s := Selected(log, f);
    SelectedSorted(log, f);
    PlaceIsRank(s, k);
    FirstOfSize(s, k);
    assert Before(log, f, s[k]) == FirstOf(s, k);
  }

  /** One filter's rows: all it accepts, and with a positive limit only those with fewer before them. */
  lemma TopByNumbers(log: seq<Event>, f: NFilter, e: Event)
    requires DistinctIds(log) && !HasSearch(f)
    ensures e in Top(log, f) <==> e in log && StoredAccepts(f, e) && WithinLimit(log, f, e)
  {
    var s := Selected(log, f);
    SelectedSorted(log, f);
    assert forall i :: 0 <= i < |Top(log, f)| ==> Top(log, f)[i] == s[i];
    if e in Top(log, f) {
      var k :| 0 <= k < |Top(log, f)| && Top(log, f)[k] == e;
      assert s[k] == e;
      RankInTop(log, f, k);
    } else if e in s {
      var k :| 0 <= k < |s| && s[k] == e;
      RankInTop(log, f, k);
    }
  }

  /** A query returns what some search-free filter accepts, but for what comes after that filter's positive limit. */
  lemma QueryByNumbers(log: seq<Event>, fs: seq<NFilter>, e: Event)
    requires DistinctIds(log)
    ensures e in Query(log, fs) <==>
      e in log && exists i :: 0 <= i < |fs| && !HasSearch(fs[i]) && StoredAccepts(fs[i], e) && WithinLimit(log, fs[i], e)
  {
    QuerySorted(log, fs);
    forall i | 0 <= i < |fs|
      ensures e in Top(log, fs[i]) <==>
        !HasSearch(fs[i]) && e in log && StoredAccepts(fs[i], e) && WithinLimit(log, fs[i], e)
    {
      if !HasSearch(fs[i]) { TopByNumbers(log, fs[i], e); } else { SelectedSorted(log, fs[i]); }
    }
  }

  /** A stored event is in the history of a subscription iff it would be fanned out live. */
  lemma HistoryAgreesWithLive(log: seq<Event>, fs: seq<NFilter>, e: Event)
    requires DistinctIds(log) && e in log
    requires forall i :: 0 <= i < |fs| ==> SqlLimit(fs[i]).None? && (Impossible(fs[i]) || Covered(fs[i]))
    ensures e in Query(log, fs) <==> AcceptsAny(fs, e)
  {
    QueryIsUnion(log, fs, e);
    forall i | 0 <= i < |fs| ensures (!HasSearch(fs[i]) && StoredAccepts(fs[i], e)) <==> Accepts(fs[i], e) {
      if !HasSearch(fs[i]) {
        SqlAgreesWithMatchesIff(fs[i]);
        assert Agrees(fs[i], e);
      }
    }
  }
}
