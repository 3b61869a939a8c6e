/**
 What holds after any sequence of saves and deletes: each index mirrors the log exactly,
 rebuilt events are the saved ones, and each replaceable slot behaves as one register
 (internal/storage/sqlevent/store.go, internal/storage/tag_batch.go).
 */
module EventHistory {
  import opened Base
  import opened Nostr
  import opened EventTables

  datatype Op = Save(ev: Event) | Delete(id: string)

  /** What one operation does to the log; committed is false when the transaction rolled back. */
  function After(log: seq<Event>, op: Op, committed: bool): seq<Event> {
    if !committed then log
    else match op
      case Save(ev) => if Saved(log, ev).Ok? then Saved(log, ev).value else log
      case Delete(id) => Deleted(log, id)
  }

  function AfterAll(log: seq<Event>, ops: seq<Op>, committed: seq<bool>): seq<Event>
    requires |ops| == |committed|
  {
    if ops == [] then log
    else
      var n := |ops| - 1;
      After(AfterAll(log, ops[..n], committed[..n]), ops[n], committed[n])
  }

  predicate GoesThrough(log: seq<Event>, op: Op, faults: Faults) {
    match op
    case Save(ev) => SaveGoesThrough(log, ev, faults)
    case Delete(_) => !faults.onTags && !faults.onEvents
  }

  /** The operations so far were committed exactly where no statement they needed failed. */
  predicate Committed(log: seq<Event>, ops: seq<Op>, faults: seq<Faults>, committed: seq<bool>)
    requires |committed| <= |ops| == |faults|
  {
    forall i :: 0 <= i < |committed| ==>
      (committed[i] <==> GoesThrough(AfterAll(log, ops[..i], committed[..i]), ops[i], faults[i]))
  }

  lemma CommittedNext(log: seq<Event>, ops: seq<Op>, faults: seq<Faults>, committed: seq<bool>, ok: bool)
    requires |committed| < |ops| == |faults| && Committed(log, ops, faults, committed)
    requires var i := |committed|; ok <==> GoesThrough(AfterAll(log, ops[..i], committed), ops[i], faults[i])
    ensures Committed(log, ops, faults, committed + [ok])
    ensures var i := |committed|;
      AfterAll(log, ops[..i + 1], committed + [ok]) == After(AfterAll(log, ops[..i], committed), ops[i], ok)
  {
    var i, more := |committed|, committed + [ok];
    assert ops[..i + 1][..i] == ops[..i] && more[..i] == committed;
    assert forall j :: 0 <= j < i ==> more[..j] == committed[..j];
  }

  method Apply(store: Store, op: Op, faults: Faults) returns (ok: bool)
    requires store.Valid()
    modifies store
    ensures store.Valid() && store.log == After(old(store.log), op, ok)
    ensures ok <==> GoesThrough(old(store.log), op, faults)
  {
    var r: Result<(), SaveError>;
    match op {
      case Save(ev) =>
        if IsEphemeral(ev.kind) { r := Err(EphemeralNotStored); } else { r := store.SaveTransaction(ev, faults); }
      case Delete(id) => r := store.DeleteTransaction(id, faults);
    }
    ok := r.Ok?;
  }

  /** Any run of store calls is a run of the log, and each commits unless a statement it needs fails. */
  method Run(store: Store, ops: seq<Op>, faults: seq<Faults>) returns (committed: seq<bool>)
    requires store.Valid() && |faults| == |ops|
    modifies store
    ensures store.Valid() && |committed| == |ops|
    ensures store.log == AfterAll(old(store.log), ops, committed)
    ensures Committed(old(store.log), ops, faults, committed)
  {
    committed := [];
    for i := 0 to |ops|
      invariant store.Valid() && |committed| == i
      invariant store.log == AfterAll(old(store.log), ops[..i], committed)
      invariant Committed(old(store.log), ops, faults, committed)
    {
      var ok := Apply(store, ops[i], faults[i]);
      CommittedNext(old(store.log), ops, faults, committed, ok);
      committed := committed + [ok];
    }
    assert ops[..|ops|] == ops;
  }

  lemma {:induction false} RunsStayWellKept(log: seq<Event>, ops: seq<Op>, committed: seq<bool>)
    requires WellKept(log) && |ops| == |committed|
    ensures WellKept(AfterAll(log, ops, committed))
  {
    if ops != [] {
      var n := |ops| - 1;
      RunsStayWellKept(log, ops[..n], committed[..n]);
      var before := AfterAll(log, ops[..n], committed[..n]);
      match ops[n] {
        case Save(ev) => if Saved(before, ev).Ok? { SavedWellKept(before, ev); }
        case Delete(id) => FilterWellKept(before, OtherIds(id));
      }
    }
  }

  // ---- the indexes mirror the log ------------------------------------------------

  function OfTag(id: string): TagRow -> bool { (x: TagRow) => x.eventId == id }

  function OfFts(id: string): FtsRow -> bool { (x: FtsRow) => x.eventId == id }

  /** Each stored event has exactly its own tag rows, in order, and one full-text row. */
  lemma {:induction false} IndexesMirrorLog(log: seq<Event>, e: Event)
    requires DistinctIds(log) && e in log
    ensures Filter(Image(log).tags, OfTag(e.id)) == TagRowsOf(e)
    ensures Filter(Image(log).fts, OfFts(e.id)) == [FtsRow(e.id, e.content)]
  {
    var rest := log[1..];
    FilterAppend(TagRowsOf(log[0]), AllTags(rest), OfTag(e.id));
    if log[0] == e {
      FilterAll(TagRowsOf(e), OfTag(e.id));
      forall o | o in rest ensures o.id != e.id {
        var i :| 0 <= i < |rest| && rest[i] == o;
        assert log[i + 1] == o;
      }
      NoRowsForAbsent(rest, e.id);
    } else {
      assert e in rest;
      SameIdDifferent(log, e);
      FilterNone(TagRowsOf(log[0]), OfTag(e.id));
      assert DistinctIds(rest);
      IndexesMirrorLog(rest, e);
    }
  }

  lemma SameIdDifferent(log: seq<Event>, e: Event)
    requires DistinctIds(log) && e in log && log[0] != e
    ensures log[0].id != e.id
  {
    if log[0].id == e.id { SameIdSameEvent(log, log[0], e); }
  }

  /** An id that is not stored has no tag row and no full-text row. */
  lemma {:induction false} NoRowsForAbsent(log: seq<Event>, id: string)
    requires forall e :: e in log ==> e.id != id
    ensures Filter(Image(log).tags, OfTag(id)) == [] && Filter(Image(log).fts, OfFts(id)) == []
  {
    if log != [] {
      FilterAppend(TagRowsOf(log[0]), AllTags(log[1..]), OfTag(id));
      FilterNone(TagRowsOf(log[0]), OfTag(id));
      NoRowsForAbsent(log[1..], id);
    }
  }

  // ---- rebuilding events -----------------------------------------------------------

  /** ORDER BY event_id ASC, pos ASC. */
  predicate TagOrder(a: TagRow, b: TagRow) {
    StrLess(a.eventId, b.eventId) || (a.eventId == b.eventId && a.pos < b.pos)
  }

  lemma TagOrderIsStrict()
    ensures StrictOrder(TagOrder)
  {
    OrdersAreStrict();
    forall a: string ensures !StrLess(a, a) { StrLessIrreflexive(a); }
    forall a: string, b: string, c: string | StrLess(a, b) && StrLess(b, c) ensures StrLess(a, c) {
      StrLessTransitive(a, b, c);
    }
  }

  function FullTags(rows: seq<TagRow>): seq<Tag> { Map(rows, (x: TagRow) => x.full) }

  function WithTags(r: EventRow, tags: seq<Tag>): Event {
    Event(r.id, r.pubkey, r.createdAt, r.kind, tags, r.content, r.sig)
  }

  /** rowToEvent: the row plus its tag rows selected in position order. */
  function Rebuild(t: Tables, r: EventRow): Event {
    WithTags(r, FullTags(Sort(Filter(t.tags, OfTag(r.id)), TagOrder)))
  }

  lemma OwnTagsSorted(e: Event)
    ensures Sorted(TagRowsOf(e), TagOrder) && FullTags(TagRowsOf(e)) == e.tags
  {
  }

  /** A saved event reads back unchanged from the tables. */
  lemma RebuildIsIdentity(log: seq<Event>, e: Event)
    requires DistinctIds(log) && e in log
    ensures ToRow(e) in Image(log).events && Rebuild(Image(log), ToRow(e)) == e
  {
    RowsMembers(log, ToRow(e));
    IndexesMirrorLog(log, e);
    TagOrderIsStrict();
    OwnTagsSorted(e);
    SortSorted(TagRowsOf(e), TagOrder);
    SortedUnique(Sort(TagRowsOf(e), TagOrder), TagRowsOf(e), TagOrder);
  }

  function GroupOf(rows: seq<TagRow>, id: string): seq<Tag> { FullTags(Filter(rows, OfTag(id))) }

  lemma GroupStep(rows: seq<TagRow>, i: nat, id: string)
    requires i < |rows|
    ensures GroupOf(rows[..i + 1], id) ==
      GroupOf(rows[..i], id) + if rows[i].eventId == id then [rows[i].full] else []
  {
    assert rows[..i + 1] == rows[..i] + [rows[i]];
    FilterAppend(rows[..i], [rows[i]], OfTag(id));
  }

  /** storage.GroupTagRows: rows keep their relative order inside each group. */
  method GroupTagRows(rows: seq<TagRow>) returns (result: map<string, seq<Tag>>)
    ensures forall id :: id in result <==> GroupOf(rows, id) != []
    ensures forall id :: id in result ==> result[id] == GroupOf(rows, id)
  {
    result := map[];
    for i := 0 to |rows|
      invariant forall id :: id in result <==> GroupOf(rows[..i], id) != []
      invariant forall id :: id in result ==> result[id] == GroupOf(rows[..i], id)
    {
      var tr := rows[i];
      forall id ensures GroupOf(rows[..i + 1], id) ==
        GroupOf(rows[..i], id) + if tr.eventId == id then [tr.full] else []
      {
        GroupStep(rows, i, id);
      }
      result := result[tr.eventId := (if tr.eventId in result then result[tr.eventId] else []) + [tr.full]];
    }
    assert rows[..|rows|] == rows;
  }

  // ---- each slot is a register -------------------------------------------------------

  /** The event in a slot, if any. */
  ghost predicate Holds(log: seq<Event>, slot: Slot, e: Event) {
    e in log && SlotOf(e) == Some(slot)
  }

  /** A slot as a register: a committed save writes it, deleting the stored id clears it. */
  function Register(log: seq<Event>, ops: seq<Op>, committed: seq<bool>, slot: Slot, init: Option<Event>): Option<Event>
    requires |ops| == |committed|
  {
    if ops == [] then init
    else
      var n := |ops| - 1;
      var cell := Register(log, ops[..n], committed[..n], slot, init);
      if !committed[n] then cell
      else match ops[n]
        case Save(ev) =>
          if SlotOf(ev) == Some(slot) && Saved(AfterAll(log, ops[..n], committed[..n]), ev).Ok? then Some(ev) else cell
        case Delete(id) => if cell.Some? && cell.value.id == id then None else cell
  }

  /** Over any run, what a slot holds is what the register holds: last write wins. */
  lemma {:induction false} SlotIsRegister(log: seq<Event>, ops: seq<Op>, committed: seq<bool>, slot: Slot,
                                          init: Option<Event>)
    requires WellKept(log) && |ops| == |committed|
    requires forall e :: Holds(log, slot, e) <==> init == Some(e)
    ensures forall e :: Holds(AfterAll(log, ops, committed), slot, e) <==> Register(log, ops, committed, slot, init) == Some(e)
  {
    if ops != [] {
      var n := |ops| - 1;
      SlotIsRegister(log, ops[..n], committed[..n], slot, init);
      RunsStayWellKept(log, ops[..n], committed[..n]);
      var before := AfterAll(log, ops[..n], committed[..n]);
      var cell := Register(log, ops[..n], committed[..n], slot, init);
      match ops[n] {
        case Save(ev) =>
          if committed[n] && Saved(before, ev).Ok? {
            assert Saved(before, ev).value == WithoutSlot(before, ev) + [ev];
          }
        case Delete(id) =>
          if cell.Some? { assert Holds(before, slot, cell.value); }
      }
    }
  }

  /** The events a run without deletes writes into a slot, oldest write first. */
  function Written(log: seq<Event>, ops: seq<Op>, committed: seq<bool>, slot: Slot): seq<Event>
    requires |ops| == |committed|
  {
    if ops == [] then []
    else
      var n := |ops| - 1;
      var w := Written(log, ops[..n], committed[..n], slot);
      if committed[n] && ops[n].Save? && SlotOf(ops[n].ev) == Some(slot)
         && Saved(AfterAll(log, ops[..n], committed[..n]), ops[n].ev).Ok?
      then w + [ops[n].ev] else w
  }

  lemma {:induction false} RegisterIsLastWrite(log: seq<Event>, ops: seq<Op>, committed: seq<bool>, slot: Slot,
                                               init: Option<Event>)
    requires |ops| == |committed| && forall op :: op in ops ==> op.Save?
    ensures var w := Written(log, ops, committed, slot);
      Register(log, ops, committed, slot, init) == if w == [] then init else Some(w[|w| - 1])
  {
    if ops != [] {
      var n := |ops| - 1;
      assert ops[n] in ops;
      RegisterIsLastWrite(log, ops[..n], committed[..n], slot, init);
    }
  }

  lemma NotNewerTransitive(a: Event, b: Event, c: Event)
    requires !Newer(a, b) && !Newer(b, c)
    ensures !Newer(a, c)
  {
    OrdersAreStrict();
    if a.id != b.id { StrLessTotal(a.id, b.id); }
    if b.id != c.id { StrLessTotal(b.id, c.id); }
    StrLessIrreflexive(a.id);
  }

  /** What was ever in a slot: its first content, then what the run wrote into it. */
  function Contents(log: seq<Event>, ops: seq<Op>, committed: seq<bool>, slot: Slot, init: Option<Event>): seq<Event>
    requires |ops| == |committed|
  {
    (if init.Some? then [init.value] else []) + Written(log, ops, committed, slot)
  }

  /** After n operations the slot holds nothing that an earlier content of it beats (NIP-01: the newest is kept). */
  ghost predicate HoldsNewest(log: seq<Event>, ops: seq<Op>, committed: seq<bool>, slot: Slot, init: Option<Event>,
                              n: nat)
    requires n <= |ops| == |committed|
  {
    var now, contents := AfterAll(log, ops[..n], committed[..n]), Contents(log, ops[..n], committed[..n], slot, init);
    forall e, w :: Holds(now, slot, e) && w in contents ==> !Newer(w, e)
  }

  /** No event is beaten by the one before it. */
  ghost predicate Ascends(w: seq<Event>) { forall i :: 0 < i < |w| ==> !Newer(w[i - 1], w[i]) }

  lemma {:induction false} LastOfAscending(w: seq<Event>, j: nat)
    requires Ascends(w) && j < |w|
    ensures !Newer(w[j], w[|w| - 1])
    decreases |w| - j
  {
    if j == |w| - 1 {
      StrLessIrreflexive(w[j].id);
    } else {
      LastOfAscending(w, j + 1);
      NotNewerTransitive(w[j], w[j + 1], w[|w| - 1]);
    }
  }

  /** The slot holds the last of its contents. */
  lemma HoldsLast(log: seq<Event>, ops: seq<Op>, committed: seq<bool>, slot: Slot, init: Option<Event>)
    requires WellKept(log) && |ops| == |committed| && (forall op :: op in ops ==> op.Save?)
    requires forall e :: Holds(log, slot, e) <==> init == Some(e)
    ensures var w := Contents(log, ops, committed, slot, init);
      forall e :: Holds(AfterAll(log, ops, committed), slot, e) <==> w != [] && e == w[|w| - 1]
  {
    SlotIsRegister(log, ops, committed, slot, init);
    RegisterIsLastWrite(log, ops, committed, slot, init);
  }

  lemma ContentsNext(log: seq<Event>, ops: seq<Op>, committed: seq<bool>, slot: Slot, init: Option<Event>)
    requires |ops| == |committed| > 0
    ensures var n, w' := |ops| - 1, Contents(log, ops, committed, slot, init);
      var w := Contents(log, ops[..n], committed[..n], slot, init);
      w' == w || (ops[n].Save? && w' == w + [ops[n].ev])
  {}

  lemma AscendsToo(w: seq<Event>, e: Event)
    requires Ascends(w + [e])
    ensures Ascends(w)
  {
    forall i | 0 < i < |w| ensures !Newer(w[i - 1], w[i]) {
      assert (w + [e])[i - 1] == w[i - 1] && (w + [e])[i] == w[i];
    }
  }

  lemma AscendsMore(w: seq<Event>, e: Event)
    requires Ascends(w) && (w != [] ==> !Newer(w[|w| - 1], e))
    ensures Ascends(w + [e])
  {}

  lemma AscendingHoldsNewest(log: seq<Event>, ops: seq<Op>, committed: seq<bool>, slot: Slot, init: Option<Event>)
    requires WellKept(log) && |ops| == |committed| && (forall op :: op in ops ==> op.Save?)
    requires forall e :: Holds(log, slot, e) <==> init == Some(e)
    requires Ascends(Contents(log, ops, committed, slot, init))
    ensures HoldsNewest(log, ops, committed, slot, init, |ops|)
  {
    assert ops[..|ops|] == ops && committed[..|ops|] == committed;
    HoldsLast(log, ops, committed, slot, init);
    var w := Contents(log, ops, committed, slot, init);
    forall x | x in w ensures !Newer(x, w[|w| - 1]) {
      var j :| 0 <= j < |w| && w[j] == x;
      LastOfAscending(w, j);
    }
  }

  lemma NewestAscends(log: seq<Event>, ops: seq<Op>, committed: seq<bool>, slot: Slot, init: Option<Event>)
    requires WellKept(log) && |ops| == |committed| > 0 && (forall op :: op in ops ==> op.Save?)
    requires forall e :: Holds(log, slot, e) <==> init == Some(e)
    requires HoldsNewest(log, ops, committed, slot, init, |ops|)
    requires var n := |ops| - 1; Ascends(Contents(log, ops[..n], committed[..n], slot, init))
    ensures Ascends(Contents(log, ops, committed, slot, init))
  {
    var n := |ops| - 1;
    var w := Contents(log, ops[..n], committed[..n], slot, init);
    ContentsNext(log, ops, committed, slot, init);
    if Contents(log, ops, committed, slot, init) != w {
      assert ops[..|ops|] == ops && committed[..|ops|] == committed;
      HoldsLast(log, ops, committed, slot, init);
      assert Contents(log, ops, committed, slot, init)[|w|] == ops[n].ev;
      assert w != [] ==> w[|w| - 1] in Contents(log, ops, committed, slot, init);
      AscendsMore(w, ops[n].ev);
    }
  }

  /**
   NIP-01 asks that a slot keep its newest event. SaveEvent never compares created_at: over a run of saves
   the slot holds the newest of its contents at every moment exactly when no save into it is beaten by the
   event it replaces.
   */
  lemma {:induction false} NewestKeptIffSavesAscend(log: seq<Event>, ops: seq<Op>, committed: seq<bool>, slot: Slot,
                                                    init: Option<Event>)
    requires WellKept(log) && |ops| == |committed| && (forall op :: op in ops ==> op.Save?)
    requires forall e :: Holds(log, slot, e) <==> init == Some(e)
    ensures (forall n :: 0 <= n <= |ops| ==> HoldsNewest(log, ops, committed, slot, init, n))
       <==> Ascends(Contents(log, ops, committed, slot, init))
    decreases |ops|
  {
    if ops != [] {
      var m := |ops| - 1;
      NewestKeptIffSavesAscend(log, ops[..m], committed[..m], slot, init);
      forall n | 0 <= n <= m
        ensures HoldsNewest(log, ops[..m], committed[..m], slot, init, n) <==>
          HoldsNewest(log, ops, committed, slot, init, n)
      {
        assert ops[..m][..n] == ops[..n] && committed[..m][..n] == committed[..n];
      }
      ContentsNext(log, ops, committed, slot, init);
      var w := Contents(log, ops[..m], committed[..m], slot, init);
      if Ascends(Contents(log, ops, committed, slot, init)) {
        if Contents(log, ops, committed, slot, init) != w { AscendsToo(w, ops[m].ev); }
        AscendingHoldsNewest(log, ops, committed, slot, init);
      } else if HoldsNewest(log, ops, committed, slot, init, |ops|) && Ascends(w) {
        NewestAscends(log, ops, committed, slot, init);
      }
    } else {
      AscendingHoldsNewest(log, ops, committed, slot, init);
    }
  }

  /** The lossy case happens: an older profile event displaces a newer one. */
  lemma OlderSaveReplacesNewer()
    ensures exists first: Event, second: Event ::
      WellKept([first]) && Newer(first, second) && first != second && Saved([first], second) == Ok([second])
  {
    var first := Event("a", "p", 2, 0, [], "", "");
    var second := Event("b", "p", 1, 0, [], "", "");
    assert SlotOf(first) == SlotOf(second) == Some(Slot("p", 0, ""));
    assert WithoutSlot([first], second) == [];
    assert WithoutSlot([first], second) + [second] == [second];
    assert WellKept([first]) && Newer(first, second) && first != second && Saved([first], second) == Ok([second]);
  }
}
