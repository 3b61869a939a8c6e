/**
 Copying one event store into another: the keyset scan that reads the source page by page
 and the copy that skips known ids (internal/storage/sqlevent/migration.go,
 internal/storage/migrator.go).
 */
module Migration {
  import opened Base
  import opened Nostr
  import opened EventTables
  import opened EventHistory
  import opened SqlStore

  // ---- the keyset scan ------------------------------------------------------------------

  /** (created_at > lastCA) OR (created_at = lastCA AND id > lastID), once a page was read. */
  function Beyond(last: Option<Event>): Event -> bool {
    (e: Event) => last.Some? ==> Older(last.value, e)
  }

  /** SELECT ... ORDER BY created_at ASC, id ASC LIMIT page. */
  function NextPage(log: seq<Event>, last: Option<Event>, page: nat): seq<Event> {
    Take(Sort(Filter(log, Beyond(last)), Older), page)
  }

  function InScanOrder(log: seq<Event>): seq<Event> { Sort(log, Older) }

  lemma ScanOrderSorted(log: seq<Event>)
    requires DistinctIds(log)
    ensures Sorted(InScanOrder(log), Older)
    ensures |InScanOrder(log)| == |log| && forall e :: e in InScanOrder(log) <==> e in log
  {
    OrdersAreStrict();
    DistinctIdsComparable(log);
    SortSorted(log, Older);
  }

  /** After the first k events the next page is the next run of the scan order. */
  lemma PageIsNextRun(log: seq<Event>, k: nat, page: nat)
    requires DistinctIds(log) && k <= |log|
    ensures var all := InScanOrder(log);
      NextPage(log, if k == 0 then None else Some(all[k - 1]), page) == Take(all[k..], page)
  {
    var all := InScanOrder(log);
    var last := if k == 0 then None else Some(all[k - 1]);
    OrdersAreStrict();
    ScanOrderSorted(log);
    DistinctIdsComparable(log);
    FilterDistinctIds(log, Beyond(last));
    DistinctIdsComparable(Filter(log, Beyond(last)));
    SortFilter(log, Beyond(last), Older);
    FilterSplit(all, Beyond(last), k);
  }

  predicate RowOlder(a: EventRow, b: EventRow) {
    a.createdAt < b.createdAt || (a.createdAt == b.createdAt && StrLess(a.id, b.id))
  }

  /** One page of rows: the keyset condition starts only after the first page. */
  method SelectPage(t: Tables, ghost log: seq<Event>, started: bool, last: EventRow, page: nat,
                    ghost lastEvent: Option<Event>)
    returns (rows: seq<EventRow>)
    requires t == Image(log)
    requires if started then lastEvent.Some? && last == ToRow(lastEvent.value) else lastEvent.None?
    ensures rows == Rows(NextPage(log, lastEvent, page))
  {
    var p := (r: EventRow) => started ==> RowOlder(last, r);
    rows := Take(Sort(Filter(t.events, p), RowOlder), page);
    FilterRows(log, p, Beyond(lastEvent));
    var picked := Filter(log, Beyond(lastEvent));
    SortRows(picked, RowOlder, Older);
    RowsLength(Sort(picked, Older));
    if page < |picked| { TakeRows(Sort(picked, Older), page); }
  }

  lemma TakeRun(all: seq<Event>, k: nat, page: nat)
    requires k <= |all|
    ensures var run := Take(all[k..], page);
      k + |run| <= |all| && all[..k] + run == all[..k + |run|] && (page >= 1 && run == [] ==> k == |all|)
  {
  }

  /** rowToEvent over one page. */
  method RebuildPage(t: Tables, ghost log: seq<Event>, rows: seq<EventRow>, ghost run: seq<Event>)
    returns (evs: seq<Event>)
    requires t == Image(log) && DistinctIds(log)
    requires rows == Rows(run) && forall e :: e in run ==> e in log
    ensures evs == run
  {
    RowsLength(run);
    evs := [];
    for i := 0 to |rows|
      invariant evs == run[..i]
    {
      assert run[i] in run;
      RebuildIsIdentity(log, run[i]);
      evs := evs + [Rebuild(t, rows[i])];
    }
  }

  /** The page after the k-th event, what it adds to the scan, and its last row. */
  lemma ScanPage(log: seq<Event>, k: nat, page: nat)
    requires DistinctIds(log) && k <= |log| && page >= 1
    ensures |InScanOrder(log)| == |log|
    ensures var all := InScanOrder(log);
      var run := Take(all[k..], page);
      && NextPage(log, if k == 0 then None else Some(all[k - 1]), page) == run
      && k + |run| <= |all| && all[..k] + run == all[..k + |run|] && (run == [] ==> k == |all|)
      && (forall e :: e in run ==> e in log)
  {
    var all := InScanOrder(log);
    var run := Take(all[k..], page);
    ScanOrderSorted(log);
    PageIsNextRun(log, k, page);
    TakeRun(all, k, page);
    forall e | e in run ensures e in log { assert e in all[k..]; }
  }

  /** The next page of the scan, rebuilt; last is the row of its k-th event. */
  method ReadPage(t: Tables, ghost log: seq<Event>, started: bool, last: EventRow, page: nat, ghost k: nat)
    returns (evs: seq<Event>)
    requires t == Image(log) && DistinctIds(log) && page >= 1 && k <= |log| == |InScanOrder(log)|
    requires (started <==> k > 0) && (started ==> last == ToRow(InScanOrder(log)[k - 1]))
    ensures evs == Take(InScanOrder(log)[k..], page)
  {
    ghost var all := InScanOrder(log);
    ScanPage(log, k, page);
    var rows := SelectPage(t, log, started, last, page, if k == 0 then None else Some(all[k - 1]));
    evs := RebuildPage(t, log, rows, Take(all[k..], page));
  }

  /**
   ScanEventsForMigration on a stable source, for any page size: visits the whole table once,
   in (created_at, id) order, whatever timestamps are shared.
   */
  method ScanEvents(t: Tables, ghost log: seq<Event>, page: nat) returns (visited: seq<Event>)
    requires t == Image(log) && DistinctIds(log) && page >= 1
    ensures visited == InScanOrder(log)
  {
    var started, last := false, EventRow("", "", 0, 0, "", "", "");
    visited := [];
    ghost var all, k := InScanOrder(log), 0;
    ScanOrderSorted(log);
    while true
      invariant k <= |log| == |all| && visited == all[..k]
      invariant (started <==> k > 0) && (started ==> last == ToRow(all[k - 1]))
      decreases |log| - k
    {
      var evs := ReadPage(t, log, started, last, page, k);
      TakeRun(all, k, page);
      if |evs| == 0 { break; }
      LastOfRun(all, k, evs);
      visited, started, last, k := visited + evs, true, ToRow(evs[|evs| - 1]), k + |evs|;
    }
    assert all[..|all|] == all;
  }

  lemma LastOfRun(all: seq<Event>, k: nat, run: seq<Event>)
    requires k + |run| <= |all| && run != [] && all[..k] + run == all[..k + |run|]
    ensures all[k + |run| - 1] == run[|run| - 1]
  {
    assert all[..k + |run|][k + |run| - 1] == (all[..k] + run)[k + |run| - 1];
  }

  // ---- the copy ---------------------------------------------------------------------------

  /** MigrationRowCounts: events, and the tag rows that belong to one. */
  datatype Counts = Counts(events: nat, tags: nat)

  datatype Summary = Summary(source: Counts, destinationFinal: Counts, inserted: nat, skipped: nat, tagsAdded: nat)

  datatype MigrateError = SaveFailed(e: Event, error: SaveError) | StoreFault

  function Absent(dst: seq<Event>): Event -> bool { (e: Event) => !HasEvent(dst, e.id) }

  /** Source events whose id the destination does not have. */
  function Incoming(src: seq<Event>, dst: seq<Event>): seq<Event> {
    Filter(InScanOrder(src), Absent(dst))
  }

  /** A destination event is displaced when an incoming source event takes its slot. */
  ghost predicate Displaced(src: seq<Event>, dst: seq<Event>, d: Event) {
    exists e :: e in src && !HasEvent(dst, e.id) && SameSlot(d, e)
  }

  function TagTotal(evs: seq<Event>): nat {
    if evs == [] then 0 else TagTotal(evs[..|evs| - 1]) + |evs[|evs| - 1].tags|
  }

  lemma {:induction false} TagTotalFront(evs: seq<Event>)
    requires evs != []
    ensures TagTotal(evs) == |evs[0].tags| + TagTotal(evs[1..])
  {
    if |evs| > 1 {
      var n := |evs| - 1;
      TagTotalFront(evs[..n]);
      assert evs[..n][1..] == evs[1..][..n - 1];
    } else {
      assert evs[1..] == [] && evs[..0] == [];
    }
  }

  lemma {:induction false} AllTagsLength(evs: seq<Event>)
    ensures |AllTags(evs)| == TagTotal(evs)
  {
    if evs != [] {
      AllTagsLength(evs[1..]);
      TagTotalFront(evs);
    }
  }

  /** The subquery on events excludes no tag row: each belongs to a stored event. */
  method RowCounts(t: Tables, ghost log: seq<Event>) returns (c: Counts)
    requires t == Image(log)
    ensures c == Counts(|log|, TagTotal(log))
  {
    var n: nat := 0;
    for i := 0 to |t.tags|
      invariant n == i
    {
      TagHasRow(log, t.tags[i]);
      if HasId(t, t.tags[i].eventId) { n := n + 1; }
    }
    AllTagsLength(log);
    RowsLength(log);
    return Counts(|t.events|, n);
  }

  /** The destination after the first n scanned events. */
  ghost predicate CopiedSoFar(all: seq<Event>, n: nat, dst0: seq<Event>, dst: seq<Event>)
    requires n <= |all|
  {
    forall x :: x in dst <==>
      || (x in all[..n] && !HasEvent(dst0, x.id))
      || (x in dst0 && !exists e :: e in all[..n] && !HasEvent(dst0, e.id) && SameSlot(x, e))
  }

  lemma SlotsApart(all: seq<Event>, i: nat, j: nat)
    requires WellKept(all) && i < |all| && j < |all| && i != j
    ensures all[i].id != all[j].id && !SameSlot(all[i], all[j]) && !SameSlot(all[j], all[i])
  {
    if i < j { assert !SameSlot(all[i], all[j]); } else { assert !SameSlot(all[j], all[i]); }
  }

  lemma ScanOrderWellKept(log: seq<Event>)
    requires WellKept(log)
    ensures WellKept(InScanOrder(log))
  {
    var all := InScanOrder(log);
    ScanOrderSorted(log);
    OrdersAreStrict();
    forall i, j | 0 <= i < j < |all| ensures all[i].id != all[j].id && !SameSlot(all[i], all[j]) {
      assert all[i] in log && all[j] in log;
      var a :| 0 <= a < |log| && log[a] == all[i];
      var b :| 0 <= b < |log| && log[b] == all[j];
      assert a != b;
      SlotsApart(log, a, b);
    }
  }

  /** Whether the id is present part-way through is decided by the destination at the start. */
  lemma PresenceIsInitial(all: seq<Event>, n: nat, dst0: seq<Event>, dst: seq<Event>)
    requires WellKept(all) && DistinctIds(dst0) && n < |all| && CopiedSoFar(all, n, dst0, dst)
    requires forall e, d :: e in all && d in dst0 && e.id == d.id ==> e == d
    ensures HasEvent(dst, all[n].id) <==> HasEvent(dst0, all[n].id)
  {
    var ev := all[n];
    forall x | x in all[..n] ensures x.id != ev.id {
      var i :| 0 <= i < n && all[i] == x;
      SlotsApart(all, i, n);
    }
    if HasEvent(dst0, ev.id) {
      var d :| d in dst0 && d.id == ev.id;
      assert d == ev;
      forall e | e in all[..n] ensures !SameSlot(ev, e) {
        var i :| 0 <= i < n && all[i] == e;
        SlotsApart(all, n, i);
      }
      assert d in dst;
    }
  }

  lemma SkipStep(all: seq<Event>, n: nat, dst0: seq<Event>, dst: seq<Event>)
    requires n < |all| && CopiedSoFar(all, n, dst0, dst) && HasEvent(dst0, all[n].id)
    ensures CopiedSoFar(all, n + 1, dst0, dst)
  {
    assert all[..n + 1] == all[..n] + [all[n]];
  }

  lemma SaveStep(all: seq<Event>, n: nat, dst0: seq<Event>, dst: seq<Event>, dst': seq<Event>)
    requires WellKept(all) && n < |all| && CopiedSoFar(all, n, dst0, dst) && !HasEvent(dst0, all[n].id)
    requires Saved(dst, all[n]) == Ok(dst')
    ensures CopiedSoFar(all, n + 1, dst0, dst')
  {
    var ev := all[n];
    assert all[..n + 1] == all[..n] + [ev];
    assert dst' == WithoutSlot(dst, ev) + [ev];
    forall x ensures x in dst' <==> x == ev || (x in dst && !SameSlot(x, ev)) {}
    forall x | x in all[..n] ensures !SameSlot(x, ev) {
      var i :| 0 <= i < n && all[i] == x;
      SlotsApart(all, i, n);
    }
  }

  /** Events are identified by id across the two stores: an id is a hash of the content. */
  ghost predicate SameIdsAgree(src: seq<Event>, dst: seq<Event>) {
    forall e, d :: e in src && d in dst && e.id == d.id ==> e == d
  }

  /** Which store calls fail: the scan, the test for the n-th event's id, and what becomes of its save. */
  datatype CopyFaults = CopyFaults(scan: bool, lookup: nat -> bool, fate: nat -> Fate)

  ghost predicate NoneFails(faults: CopyFaults) {
    !faults.scan && forall n :: !faults.lookup(n) && faults.fate(n) == CALM
  }

  /** The counters the scan callback updates, and the store it writes to. */
  class Copier {
    const dst: Store
    var inserted: nat
    var skipped: nat
    var tagsAdded: nat

    constructor (dst: Store)
      ensures this.dst == dst && inserted == skipped == tagsAdded == 0
    {
      this.dst := dst;
      inserted, skipped, tagsAdded := 0, 0, 0;
    }

    ghost predicate Progress(all: seq<Event>, n: nat, dst0: seq<Event>)
      requires n <= |all|
      reads this, dst
    {
      var incoming := Filter(all[..n], Absent(dst0));
      && dst.Valid() && CopiedSoFar(all, n, dst0, dst.log)
      && inserted + skipped == n
      && inserted == |incoming| && tagsAdded == TagTotal(incoming)
    }

    /** The callback: skip an id the destination has, save and count any other. */
    method CopyEvent(ev: Event, ghost all: seq<Event>, n: nat, ghost dst0: seq<Event>, faults: CopyFaults)
      returns (r: Result<(), MigrateError>)
      requires WellKept(all) && DistinctIds(dst0) && n < |all| && all[n] == ev && SameIdsAgree(all, dst0)
      requires Progress(all, n, dst0)
      modifies this, dst
      ensures dst.Valid()
      ensures r.Ok? ==> Progress(all, n + 1, dst0)
      ensures NoneFails(faults) ==> r.Ok?
    {
      if faults.lookup(n) { return Err(StoreFault); }
      PresenceIsInitial(all, n, dst0, dst.log);
      HasIdImage(dst.log, ev.id);
      if HasId(Tables(dst.events, dst.tags, dst.fts), ev.id) {
        IncomingStep(all, n, dst0);
        SkipStep(all, n, dst0, dst.log);
        skipped := skipped + 1;
        return Ok(());
      }
      r := SaveAbsent(ev, all, n, dst0, faults.fate(n));
    }

    method SaveAbsent(ev: Event, ghost all: seq<Event>, ghost n: nat, ghost dst0: seq<Event>, fate: Fate)
      returns (r: Result<(), MigrateError>)
      requires WellKept(all) && n < |all| && all[n] == ev && !HasEvent(dst0, ev.id) && Progress(all, n, dst0)
      requires !HasEvent(dst.log, ev.id)
      modifies this, dst
      ensures dst.Valid()
      ensures r.Ok? ==> Progress(all, n + 1, dst0)
      ensures fate == CALM ==> r.Ok?
    {
      IncomingStep(all, n, dst0);
      ghost var before := dst.log;
      var saved := dst.SaveEvent(ev, fate);
      if saved.Err? { return Err(SaveFailed(ev, saved.error)); }
      SaveStep(all, n, dst0, before, dst.log);
      inserted := inserted + 1;
      tagsAdded := tagsAdded + |ev.tags|;
      return Ok(());
    }
  }

  lemma IncomingStep(all: seq<Event>, n: nat, dst0: seq<Event>)
    requires n < |all|
    ensures var f := Filter(all[..n], Absent(dst0));
      var g := Filter(all[..n + 1], Absent(dst0));
      if HasEvent(dst0, all[n].id) then g == f
      else g == f + [all[n]] && TagTotal(g) == TagTotal(f) + |all[n].tags|
  {
    var f := Filter(all[..n], Absent(dst0));
    assert all[..n + 1] == all[..n] + [all[n]];
    FilterAppend(all[..n], [all[n]], Absent(dst0));
    assert (f + [all[n]])[..|f|] == f;
  }

  /** What a successful copy leaves in the destination. */
  ghost predicate CopyResult(src: seq<Event>, dst0: seq<Event>, dst: seq<Event>) {
    forall x :: x in dst <==>
      || (x in src && !HasEvent(dst0, x.id))
      || (x in dst0 && !Displaced(src, dst0, x))
  }

  lemma CopiedAllIsResult(src: seq<Event>, dst0: seq<Event>, dst: seq<Event>)
    requires WellKept(src) && CopiedSoFar(InScanOrder(src), |src|, dst0, dst)
    ensures CopyResult(src, dst0, dst)
  {
    var all := InScanOrder(src);
    ScanOrderSorted(src);
    assert all[..|src|] == all;
  }

  /** No source event is lost: one already present cannot be displaced by another source event. */
  lemma CopyKeepsSource(src: seq<Event>, dst0: seq<Event>, dst: seq<Event>)
    requires WellKept(src) && SameIdsAgree(src, dst0) && CopyResult(src, dst0, dst)
    ensures forall e :: e in src ==> e in dst
  {
    forall e | e in src ensures e in dst {
      if HasEvent(dst0, e.id) {
        var d :| d in dst0 && d.id == e.id;
        assert d == e;
        if Displaced(src, dst0, e) {
          var o :| o in src && !HasEvent(dst0, o.id) && SameSlot(e, o);
          var i :| 0 <= i < |src| && src[i] == e;
          var j :| 0 <= j < |src| && src[j] == o;
          SlotsApart(src, i, j);
        }
      }
    }
  }

  /** The scan's callback on every event, until one fails. */
  method CopyAll(copier: Copier, all: seq<Event>, src: Store, ghost dst0: seq<Event>, faults: CopyFaults)
    returns (r: Result<(), MigrateError>)
    requires src != copier.dst && src.Valid() && copier.Progress(all, 0, dst0)
    requires WellKept(all) && DistinctIds(dst0) && SameIdsAgree(all, dst0)
    modifies copier, copier.dst
    ensures src.Valid() && src.log == old(src.log) && copier.dst.Valid()
    ensures r.Ok? ==> copier.Progress(all, |all|, dst0)
    ensures NoneFails(faults) ==> r.Ok?
  {
    for n := 0 to |all|
      invariant src.Valid() && src.log == old(src.log)
      invariant copier.Progress(all, n, dst0)
    {
      var copied := copier.CopyEvent(all[n], all, n, dst0, faults);
      if copied.Err? { return Err(copied.error); }
    }
    return Ok(());
  }

  /**
   Migrate on a stable source that is well kept, as any run of saves and deletes leaves it.
   Any store call may fail and abort the copy; if none does it succeeds.
   */
  method Migrate(src: Store, dst: Store, page: nat, faults: CopyFaults) returns (r: Result<Summary, MigrateError>)
    requires src != dst && src.Valid() && dst.Valid() && page >= 1
    requires SameIdsAgree(src.log, dst.log)
    modifies dst
    ensures dst.Valid() && src.log == old(src.log)
    ensures NoneFails(faults) ==> r.Ok?
    ensures r.Ok? ==> CopyResult(src.log, old(dst.log), dst.log)
    ensures r.Ok? ==> forall e :: e in src.log ==> e in dst.log
    ensures r.Ok? ==> r.value.inserted + r.value.skipped == |src.log|
    ensures r.Ok? ==> r.value.inserted == |Incoming(src.log, old(dst.log))|
    ensures r.Ok? ==> r.value.tagsAdded == TagTotal(Incoming(src.log, old(dst.log)))
    ensures r.Ok? ==> r.value.source == Counts(|src.log|, TagTotal(src.log))
    ensures r.Ok? ==> r.value.destinationFinal == Counts(|dst.log|, TagTotal(dst.log))
  {
    ghost var dst0 := dst.log;
    ghost var all := InScanOrder(src.log);
    ScanOrderSorted(src.log);
    ScanOrderWellKept(src.log);
    var srcCounts := RowCounts(Tables(src.events, src.tags, src.fts), src.log);
    if faults.scan { return Err(StoreFault); }
    var scanned := ScanEvents(Tables(src.events, src.tags, src.fts), src.log, page);
    var copier := new Copier(dst);
    assert all[..0] == [];
    var copied := CopyAll(copier, scanned, src, dst0, faults);
    if copied.Err? { return Err(copied.error); }
    assert all[..|all|] == all;
    var dstCounts := RowCounts(Tables(dst.events, dst.tags, dst.fts), dst.log);
    CopiedAllIsResult(src.log, dst0, dst.log);
    CopyKeepsSource(src.log, dst0, dst.log);
    return Ok(Summary(srcCounts, dstCounts, copier.inserted, copier.skipped, copier.tagsAdded));
  }

  /** A destination event that the copy removed gave way to this one, which it beats. */
  ghost predicate LostTo(dst0: seq<Event>, dst: seq<Event>, x: Event, e: Event) {
    x in dst0 && x !in dst && e in dst && SameSlot(x, e) && Newer(x, e)
  }

  /** An incoming source event that is beaten by the destination event in its slot. */
  ghost predicate ComesTooOld(src: seq<Event>, dst0: seq<Event>, x: Event, e: Event) {
    x in dst0 && e in src && !HasEvent(dst0, e.id) && SameSlot(x, e) && Newer(x, e)
  }

  /** The copy loses no newer event if and only if no incoming event is older than the one in its slot. */
  lemma CopyLosesNoNewerIff(src: seq<Event>, dst0: seq<Event>, dst: seq<Event>)
    requires WellKept(src) && WellKept(dst0) && CopyResult(src, dst0, dst)
    ensures (forall x, e :: !LostTo(dst0, dst, x, e)) <==> (forall x, e :: !ComesTooOld(src, dst0, x, e))
  {
    forall x, e | ComesTooOld(src, dst0, x, e) ensures LostTo(dst0, dst, x, e) {
      assert Displaced(src, dst0, x) && HasEvent(dst0, x.id);
    }
    forall x, e | LostTo(dst0, dst, x, e) ensures ComesTooOld(src, dst0, x, e) {
      if e in dst0 { MembersApart(dst0, x, e); }
    }
  }

  lemma MembersApart(log: seq<Event>, a: Event, b: Event)
    requires WellKept(log) && a in log && b in log && a != b
    ensures !SameSlot(a, b)
  {
    var i :| 0 <= i < |log| && log[i] == a;
    var j :| 0 <= j < |log| && log[j] == b;
    SlotsApart(log, i, j);
  }

  /** A stored newer profile is lost to an older one copied in: created_at is never compared. */
  lemma CopyCanLoseNewer()
    ensures exists src: seq<Event>, dst0: seq<Event>, x: Event ::
      WellKept(src) && WellKept(dst0) && x in dst0 && Displaced(src, dst0, x) && forall e :: e in src ==> Newer(x, e)
  {
    var x := Event("a", "p", 2, 0, [], "", "");
    var e := Event("b", "p", 1, 0, [], "", "");
    assert e in [e] && !HasEvent([x], e.id) && SameSlot(x, e);
    assert Displaced([e], [x], x);
    assert WellKept([e]) && WellKept([x]) && x in [x] && forall o :: o in [e] ==> Newer(x, o);
  }
}
