/**
 QueryEvents over the tables: rows per filter, joined with tag rows fetched together and grouped
 (internal/storage/sqlevent/store.go, internal/storage/tag_batch.go).
 */
module SqlStore {
  import opened Base
  import opened Nostr
  import opened EventTables
  import opened EventHistory
  import opened EventQuery

  // ---- SELECT over rows is SELECT over the log -----------------------------------------

  /** A row order and an event order that compare the same columns. */
  ghost predicate OrdersAgree(rowLt: (EventRow, EventRow) -> bool, lt: (Event, Event) -> bool) {
    forall a, b :: rowLt(ToRow(a), ToRow(b)) <==> lt(a, b)
  }

  lemma {:induction false} InsertRows(e: Event, s: seq<Event>, rowLt: (EventRow, EventRow) -> bool,
                                      lt: (Event, Event) -> bool)
    requires OrdersAgree(rowLt, lt)
    ensures Insert(ToRow(e), Rows(s), rowLt) == Rows(Insert(e, s, lt))
  {
    if s != [] && !lt(e, s[0]) {
      InsertRows(e, s[1..], rowLt, lt);
    } else if s != [] {
      assert ([e] + s)[1..] == s;
    }
  }

  lemma {:induction false} SortRows(s: seq<Event>, rowLt: (EventRow, EventRow) -> bool, lt: (Event, Event) -> bool)
    requires OrdersAgree(rowLt, lt)
    ensures Sort(Rows(s), rowLt) == Rows(Sort(s, lt))
  {
    if s != [] {
      SortRows(s[1..], rowLt, lt);
      InsertRows(s[0], Sort(s[1..], lt), rowLt, lt);
    }
  }

  lemma {:induction false} FilterRows(s: seq<Event>, p: EventRow -> bool, q: Event -> bool)
    requires forall e :: e in s ==> p(ToRow(e)) == q(e)
    ensures Filter(Rows(s), p) == Rows(Filter(s, q))
  {
    if s != [] {
      FilterRows(s[1..], p, q);
      assert s[0] in s;
      if q(s[0]) {
        assert ([s[0]] + Filter(s[1..], q))[1..] == Filter(s[1..], q);
      }
    }
  }

  lemma {:induction false} TakeRows(s: seq<Event>, n: nat)
    requires n <= |s|
    ensures |Rows(s)| == |s| && Rows(s)[..n] == Rows(s[..n])
  {
    if n > 0 {
      TakeRows(s[1..], n - 1);
      assert s[..n][1..] == s[1..][..n - 1];
      assert Rows(s)[..n] == [ToRow(s[0])] + Rows(s[1..])[..n - 1];
    } else {
      RowsLength(s);
    }
  }

  lemma RowsLength(s: seq<Event>)
    ensures |Rows(s)| == |s| && forall i :: 0 <= i < |s| ==> Rows(s)[i] == ToRow(s[i])
  {
  }

  /** selectRows with applyLimits. */
  method SelectRows(t: Tables, ghost log: seq<Event>, f: NFilter) returns (rows: seq<EventRow>)
    requires t == Image(log) && DistinctIds(log) && (HasSearch(f) || Readable(f))
    ensures rows == Rows(Top(log, f))
  {
    if HasSearch(f) { return []; }
    var cs := ApplyFilterQuery(f);
    var p := (r: EventRow) => SatAll(cs, r, t.tags);
    rows := Sort(Filter(t.events, p), RowNewer);
    forall e | e in log ensures p(ToRow(e)) == MatchPred(f)(e) {
      RowMatchesOwnTags(log, f, e);
    }
    FilterRows(log, p, MatchPred(f));
    SortRows(Filter(log, MatchPred(f)), RowNewer, Newer);
    RowsLength(Selected(log, f));
    var lim := SqlLimit(f);
    if lim.Some? {
      if lim.value < |rows| { TakeRows(Selected(log, f), lim.value); }
      rows := Take(rows, lim.value);
    }
  }

  // ---- tags grouped by event -----------------------------------------------------------

  lemma {:induction false} TagsComparable(log: seq<Event>)
    requires DistinctIds(log)
    ensures Comparable(AllTags(log), TagOrder)
  {
    if log != [] {
      var own, rest := TagRowsOf(log[0]), AllTags(log[1..]);
      assert DistinctIds(log[1..]);
      TagsComparable(log[1..]);
      forall x | x in rest ensures x.eventId != log[0].id {
        TagOwners(log[1..], x);
        var e :| e in log[1..] && e.id == x.eventId;
        var i :| 0 <= i < |log[1..]| && log[1..][i] == e;
        assert log[i + 1] == e;
      }
      var s := own + rest;
      forall i, j | 0 <= i < j < |s| ensures TagOrder(s[i], s[j]) || TagOrder(s[j], s[i]) {
        if i < |own| && |own| <= j {
          assert s[j] == rest[j - |own|] && s[j] in rest;
          StrLessTotal(s[i].eventId, s[j].eventId);
        } else if |own| <= i {
          assert s[i] == rest[i - |own|] && s[j] == rest[j - |own|];
        }
      }
    }
  }

  lemma {:induction false} FilterComparable<T(!new)>(s: seq<T>, p: T -> bool, lt: (T, T) -> bool)
    requires Comparable(s, lt)
    ensures Comparable(Filter(s, p), lt)
  {
    if s != [] {
      assert Comparable(s[1..], lt) by {
        forall i, j | 0 <= i < j < |s[1..]| ensures lt(s[1..][i], s[1..][j]) || lt(s[1..][j], s[1..][i]) {
          assert s[1..][i] == s[i + 1] && s[1..][j] == s[j + 1];
        }
      }
      FilterComparable(s[1..], p, lt);
      forall y | y in Filter(s[1..], p) ensures lt(s[0], y) || lt(y, s[0]) {
        var i :| 0 <= i < |s[1..]| && s[1..][i] == y;
        assert s[i + 1] == y;
      }
    }
  }

  function AmongIds(ids: set<string>): TagRow -> bool { (x: TagRow) => x.eventId in ids }

  /** The sorted, grouped tag select gives each event its own tags back. */
  lemma GroupedTagsAreOwn(log: seq<Event>, ids: set<string>, e: Event)
    requires DistinctIds(log) && e in log && e.id in ids
    ensures GroupOf(Sort(Filter(Image(log).tags, AmongIds(ids)), TagOrder), e.id) == e.tags
  {
    var tags := Image(log).tags;
    var picked := Filter(tags, AmongIds(ids));
    TagOrderIsStrict();
    TagsComparable(log);
    FilterComparable(tags, AmongIds(ids), TagOrder);
    FilterComparable(picked, OfTag(e.id), TagOrder);
    SortFilter(picked, OfTag(e.id), TagOrder);
    FilterAbsorb(tags, AmongIds(ids), OfTag(e.id));
    IndexesMirrorLog(log, e);
    OwnTagsSorted(e);
    SortSorted(TagRowsOf(e), TagOrder);
    SortedUnique(Sort(TagRowsOf(e), TagOrder), TagRowsOf(e), TagOrder);
  }

  method TagsByEventId(t: Tables, ids: set<string>) returns (m: map<string, seq<Tag>>)
    ensures GroupsOf(t, ids, m)
  {
    m := GroupTagRows(Sort(Filter(t.tags, AmongIds(ids)), TagOrder));
  }

  // ---- QueryEvents ---------------------------------------------------------------------

  /** byID holds the rows of exactly these events, each under its own id. */
  ghost predicate Indexes(byId: map<string, EventRow>, log: seq<Event>, chosen: Event -> bool) {
    && (forall id :: id in byId ==> exists e :: e in log && chosen(e) && e.id == id && byId[id] == ToRow(e))
    && (forall e :: e in log && chosen(e) ==> e.id in byId && byId[e.id] == ToRow(e))
  }

  function PrefixPred(log: seq<Event>, fs: seq<NFilter>, i: nat): Event -> bool
    requires i <= |fs|
  {
    (e: Event) => InSomeTop(log, fs[..i], e)
  }

  lemma PrefixStep(log: seq<Event>, fs: seq<NFilter>, i: nat, e: Event)
    requires i < |fs|
    ensures InSomeTop(log, fs[..i + 1], e) <==> InSomeTop(log, fs[..i], e) || e in Top(log, fs[i])
  {
    if InSomeTop(log, fs[..i + 1], e) { PrefixSplits(log, fs, i, e); }
    if InSomeTop(log, fs[..i], e) { PrefixGrows(log, fs, i, e); }
    if e in Top(log, fs[i]) { assert fs[..i + 1][i] == fs[i]; }
  }

  lemma PrefixSplits(log: seq<Event>, fs: seq<NFilter>, i: nat, e: Event)
    requires i < |fs| && InSomeTop(log, fs[..i + 1], e)
    ensures InSomeTop(log, fs[..i], e) || e in Top(log, fs[i])
  {
    var j :| 0 <= j < |fs[..i + 1]| && e in Top(log, fs[..i + 1][j]);
    var f := fs[..i + 1][j];
    if j < i {
      assert fs[..i][j] == f;
    } else {
      assert fs[i] == f;
    }
  }

  lemma PrefixGrows(log: seq<Event>, fs: seq<NFilter>, i: nat, e: Event)
    requires i < |fs| && InSomeTop(log, fs[..i], e)
    ensures InSomeTop(log, fs[..i + 1], e)
  {
    var j :| 0 <= j < |fs[..i]| && e in Top(log, fs[..i][j]);
    assert fs[..i + 1][j] == fs[..i][j];
  }

  lemma IndexesAdd(m: map<string, EventRow>, log: seq<Event>, p: Event -> bool, q: Event -> bool, added: Event)
    requires DistinctIds(log) && Indexes(m, log, p) && added in log
    requires forall e :: e in log ==> q(e) == (p(e) || e == added)
    ensures Indexes(m[added.id := ToRow(added)], log, q)
  {
    forall e | e in log && e.id == added.id ensures e == added { SameIdSameEvent(log, e, added); }
  }

  /** What was there before, and the first i of these. */
  function OrAmong(before: Event -> bool, top: seq<Event>, i: nat): Event -> bool
    requires i <= |top|
  {
    (e: Event) => before(e) || e in top[..i]
  }

  lemma AddNext(m: map<string, EventRow>, log: seq<Event>, before: Event -> bool, top: seq<Event>, i: nat)
    requires DistinctIds(log) && i < |top| && top[i] in log && Indexes(m, log, OrAmong(before, top, i))
    ensures Indexes(m[top[i].id := ToRow(top[i])], log, OrAmong(before, top, i + 1))
  {
    assert top[..i + 1] == top[..i] + [top[i]];
    IndexesAdd(m, log, OrAmong(before, top, i), OrAmong(before, top, i + 1), top[i]);
  }

  lemma AddedAll(m: map<string, EventRow>, log: seq<Event>, before: Event -> bool, after: Event -> bool,
                 top: seq<Event>)
    requires Indexes(m, log, OrAmong(before, top, |top|))
    requires forall e :: e in log ==> after(e) == (before(e) || e in top)
    ensures Indexes(m, log, after)
  {
    assert top[..|top|] == top;
    assert forall e :: e in log ==> OrAmong(before, top, |top|)(e) == after(e);
  }

  /** Adds one filter's rows to the map. */
  method AddRows(byId: map<string, EventRow>, rows: seq<EventRow>, ghost log: seq<Event>, ghost top: seq<Event>,
                 ghost before: Event -> bool, ghost after: Event -> bool)
    returns (m: map<string, EventRow>)
    requires DistinctIds(log) && Indexes(byId, log, before)
    requires rows == Rows(top) && forall e :: e in top ==> e in log
    requires forall e :: e in log ==> after(e) == (before(e) || e in top)
    ensures Indexes(m, log, after)
  {
    RowsLength(top);
    m := byId;
    for i := 0 to |rows|
      invariant Indexes(m, log, OrAmong(before, top, i))
    {
      AddNext(m, log, before, top, i);
      m := m[rows[i].id := rows[i]];
    }
    AddedAll(m, log, before, after, top);
  }

  /** The rows of the next filter. */
  method AddFilter(t: Tables, ghost log: seq<Event>, filters: seq<NFilter>, i: nat, byId: map<string, EventRow>)
    returns (m: map<string, EventRow>)
    requires t == Image(log) && DistinctIds(log) && i < |filters| && (HasSearch(filters[i]) || Readable(filters[i]))
    requires Indexes(byId, log, PrefixPred(log, filters, i))
    ensures Indexes(m, log, PrefixPred(log, filters, i + 1))
  {
    var rows := SelectRows(t, log, filters[i]);
    SelectedSorted(log, filters[i]);
    forall e | e in log
      ensures PrefixPred(log, filters, i + 1)(e) == (PrefixPred(log, filters, i)(e) || e in Top(log, filters[i]))
    {
      PrefixStep(log, filters, i, e);
    }
    m := AddRows(byId, rows, log, Top(log, filters[i]), PrefixPred(log, filters, i), PrefixPred(log, filters, i + 1));
  }

  method QueryEvents(t: Tables, ghost log: seq<Event>, filters: seq<NFilter>) returns (out: seq<Event>)
    requires t == Image(log) && DistinctIds(log)
    requires forall i :: 0 <= i < |filters| ==> HasSearch(filters[i]) || Readable(filters[i])
    ensures out == Query(log, filters)
  {
    if |filters| == 0 {
      FilterNone(log, TopPred(log, filters));
      return [];
    }
    var byId: map<string, EventRow> := map[];
    for i := 0 to |filters|
      invariant Indexes(byId, log, PrefixPred(log, filters, i))
    {
      byId := AddFilter(t, log, filters, i, byId);
    }
    assert filters[..|filters|] == filters;
    out := Assemble(t, log, byId, filters);
  }

  ghost predicate GroupsOf(t: Tables, ids: set<string>, m: map<string, seq<Tag>>) {
    var rows := Sort(Filter(t.tags, AmongIds(ids)), TagOrder);
    && (forall id :: id in m <==> GroupOf(rows, id) != [])
    && (forall id :: id in m ==> m[id] == GroupOf(rows, id))
  }

  function TagsFor(m: map<string, seq<Tag>>, id: string): seq<Tag> { if id in m then m[id] else [] }

  lemma JoinIsEvent(log: seq<Event>, ids: set<string>, m: map<string, seq<Tag>>, e: Event)
    requires DistinctIds(log) && e in log && e.id in ids && GroupsOf(Image(log), ids, m)
    ensures WithTags(ToRow(e), TagsFor(m, e.id)) == e
  {
    GroupedTagsAreOwn(log, ids, e);
  }

  /** The chosen events whose ids have been visited, each once. */
  ghost predicate Joined(found: seq<Event>, log: seq<Event>, chosen: Event -> bool, pending: set<string>) {
    DistinctIds(found) && forall e :: e in found <==> e in log && chosen(e) && e.id !in pending
  }

  lemma JoinedNext(found: seq<Event>, log: seq<Event>, chosen: Event -> bool, pending: set<string>, e: Event)
    requires DistinctIds(log) && Joined(found, log, chosen, pending) && e in log && chosen(e) && e.id in pending
    ensures Joined(found + [e], log, chosen, pending - {e.id})
  {
    forall o | o in log && o.id == e.id ensures o == e { SameIdSameEvent(log, o, e); }
    forall i | 0 <= i < |found| ensures found[i].id != e.id { assert found[i] in found; }
  }

  /** Visits the map in any order, joining each row with its tags. */
  method Join(t: Tables, ghost log: seq<Event>, byId: map<string, EventRow>, ghost chosen: Event -> bool)
    returns (found: seq<Event>)
    requires t == Image(log) && DistinctIds(log)
    requires Indexes(byId, log, chosen)
    ensures DistinctIds(found) && forall e :: e in found <==> e in log && chosen(e)
  {
    var tagsMap := TagsByEventId(t, byId.Keys);
    var pending := byId.Keys;
    found := [];
    while pending != {}
      invariant pending <= byId.Keys
      invariant Joined(found, log, chosen, pending)
      decreases pending
    {
      var id :| id in pending;
      ghost var e :| e in log && chosen(e) && e.id == id && byId[id] == ToRow(e);
      var joined := WithTags(byId[id], TagsFor(tagsMap, byId[id].id));
      assert joined == e by { JoinIsEvent(log, byId.Keys, tagsMap, e); }
      JoinedNext(found, log, chosen, pending, e);
      found := found + [joined];
      pending := pending - {id};
    }
  }

  /** sort.Slice over the ids, then the joined events in that order. */
  method Assemble(t: Tables, ghost log: seq<Event>, byId: map<string, EventRow>, ghost filters: seq<NFilter>)
    returns (out: seq<Event>)
    requires t == Image(log) && DistinctIds(log)
    requires Indexes(byId, log, TopPred(log, filters))
    ensures out == Query(log, filters)
  {
    var found := Join(t, log, byId, TopPred(log, filters));
    out := Sort(found, Newer);
    OrdersAreStrict();
    DistinctIdsComparable(found);
    SortSorted(found, Newer);
    QuerySorted(log, filters);
    SortedUnique(out, Query(log, filters), Newer);
  }
}
