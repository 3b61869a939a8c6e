/**
 The SQL event store as three tables (internal/storage/sqlevent: store.go, migrations.go).

 Rows are kept in rowid order. The schema's two automatic effects are modelled on the
 statements that cause them: deleting an event row cascades to its tag rows and fires the
 full-text delete trigger; inserting one fires the full-text insert trigger.
 The reference is a plain log of events; every table is a function of that log.
 */
module EventTables {
  import opened Base
  import opened Nostr

  datatype EventRow = EventRow(
    id: string, pubkey: string, createdAt: Int64, kind: int, content: string, sig: string, dTag: string)

  /** full is the tag itself: its JSON encoding is injective. */
  datatype TagRow = TagRow(eventId: string, pos: nat, name: string, value: string, full: Tag)

  datatype FtsRow = FtsRow(eventId: string, content: string)

  datatype Tables = Tables(events: seq<EventRow>, tags: seq<TagRow>, fts: seq<FtsRow>)

  datatype SaveError = EphemeralNotStored | DuplicateId | IoError | DeadlineExceeded | StoreClosed

  /** ORDER BY created_at DESC, id ASC. */
  predicate RowNewer(a: EventRow, b: EventRow) {
    a.createdAt > b.createdAt || (a.createdAt == b.createdAt && StrLess(a.id, b.id))
  }

  // ---- the image of a log --------------------------------------------------------

  function ToRow(e: Event): EventRow {
    EventRow(e.id, e.pubkey, e.createdAt, e.kind, e.content, e.sig, ExtractDTag(e.tags))
  }

  function ToFts(e: Event): FtsRow { FtsRow(e.id, e.content) }

  function ToTagRow(id: string, i: nat, t: Tag): TagRow {
    TagRow(id, i, if |t| > 0 then t[0] else "", if |t| > 1 then t[1] else "", t)
  }

  function TagRowsOf(e: Event): (r: seq<TagRow>)
    ensures |r| == |e.tags|
    ensures forall i :: 0 <= i < |r| ==> r[i] == ToTagRow(e.id, i, e.tags[i])
  {
    seq(|e.tags|, i requires 0 <= i < |e.tags| => ToTagRow(e.id, i, e.tags[i]))
  }

  function Rows(evs: seq<Event>): seq<EventRow> {
    if evs == [] then [] else [ToRow(evs[0])] + Rows(evs[1..])
  }

  function AllTags(evs: seq<Event>): seq<TagRow> {
    if evs == [] then [] else TagRowsOf(evs[0]) + AllTags(evs[1..])
  }

  function AllFts(evs: seq<Event>): seq<FtsRow> {
    if evs == [] then [] else [ToFts(evs[0])] + AllFts(evs[1..])
  }

  function Image(evs: seq<Event>): Tables { Tables(Rows(evs), AllTags(evs), AllFts(evs)) }

  // ---- SQL statements ------------------------------------------------------------

  /** DELETE FROM events WHERE p, with ON DELETE CASCADE and the events_ad_fts trigger. */
  function DeleteEvents(t: Tables, p: EventRow -> bool): Tables {
    var gone := set r | r in t.events && p(r) :: r.id;
    Tables(
      Filter(t.events, (r: EventRow) => !p(r)),
      Filter(t.tags, (x: TagRow) => x.eventId !in gone),
      Filter(t.fts, (x: FtsRow) => x.eventId !in gone))
  }

  /** pubkey = ? AND kind = ? */
  function WhereReplaceable(ev: Event): EventRow -> bool {
    (r: EventRow) => r.pubkey == ev.pubkey && r.kind == ev.kind
  }

  /** pubkey = ? AND kind = ? AND d_tag = ? */
  function WhereAddressable(ev: Event): EventRow -> bool {
    (r: EventRow) => r.pubkey == ev.pubkey && r.kind == ev.kind && r.dTag == ExtractDTag(ev.tags)
  }

  /** id = ? */
  function WhereId(id: string): EventRow -> bool { (r: EventRow) => r.id == id }

  /** DELETE FROM event_tags WHERE event_id = id. */
  function DeleteTags(t: Tables, id: string): Tables {
    t.(tags := Filter(t.tags, (x: TagRow) => x.eventId != id))
  }

  predicate HasId(t: Tables, id: string) { exists r :: r in t.events && r.id == id }

  /** INSERT INTO events: refused on a primary-key clash; the events_ai_fts trigger mirrors content. */
  function InsertEvent(t: Tables, row: EventRow): Result<Tables, SaveError> {
    if HasId(t, row.id) then Err(DuplicateId)
    else Ok(t.(events := t.events + [row], fts := t.fts + [FtsRow(row.id, row.content)]))
  }

  function InsertTags(t: Tables, rows: seq<TagRow>): Tables { t.(tags := t.tags + rows) }

  // ---- the reference: a log of events ----------------------------------------------

  predicate SameSlot(a: Event, b: Event) { SlotOf(a).Some? && SlotOf(a) == SlotOf(b) }

  predicate HasEvent(evs: seq<Event>, id: string) { exists e :: e in evs && e.id == id }

  function OtherSlots(ev: Event): Event -> bool { (e: Event) => !SameSlot(e, ev) }

  function OtherIds(id: string): Event -> bool { (e: Event) => e.id != id }

  function WithoutSlot(evs: seq<Event>, ev: Event): seq<Event> { Filter(evs, OtherSlots(ev)) }

  function Saved(evs: seq<Event>, ev: Event): Result<seq<Event>, SaveError> {
    if IsEphemeral(ev.kind) then Err(EphemeralNotStored)
    else
      var kept := WithoutSlot(evs, ev);
      if HasEvent(kept, ev.id) then Err(DuplicateId) else Ok(kept + [ev])
  }

  function Deleted(evs: seq<Event>, id: string): seq<Event> {
    Filter(evs, OtherIds(id))
  }

  /** One row per id, one row per replaceable or addressable slot, nothing ephemeral. */
  ghost predicate WellKept(evs: seq<Event>) {
    && DistinctIds(evs)
    && (forall e :: e in evs ==> !IsEphemeral(e.kind))
    && (forall i, j :: 0 <= i < j < |evs| ==> !SameSlot(evs[i], evs[j]))
  }

  // ---- which event a save replaces, by kind number --------------------------------------

  /** e has the first "d" value of ev. */
  ghost predicate SameD(e: Event, ev: Event) { exists v :: FirstD(e.tags, v) && FirstD(ev.tags, v) }

  /**
   Kinds 0, 3 and 10000 to 19999 keep one event per pubkey and kind, kinds 30000 to 39999 one per pubkey, kind
   and first "d" value; kinds 20000 to 29999 are never stored, and any other is added.
   */
  ghost predicate SavedByNumbers(log: seq<Event>, ev: Event, out: seq<Event>) {
    if ev.kind == 0 || ev.kind == 3 || 10000 <= ev.kind <= 19999 then
      out == Filter(log, (e: Event) => !(e.pubkey == ev.pubkey && e.kind == ev.kind)) + [ev]
    else if 30000 <= ev.kind <= 39999 then
      out == Filter(log, (e: Event) => !(e.pubkey == ev.pubkey && e.kind == ev.kind && SameD(e, ev))) + [ev]
    else
      !(20000 <= ev.kind <= 29999) && out == log + [ev]
  }

  lemma SameDIsExtracted(e: Event, ev: Event)
    ensures SameD(e, ev) <==> ExtractDTag(e.tags) == ExtractDTag(ev.tags)
  {
    forall v ensures FirstD(e.tags, v) <==> v == ExtractDTag(e.tags) { ExtractedIsFirstD(e.tags, v); }
    forall v ensures FirstD(ev.tags, v) <==> v == ExtractDTag(ev.tags) { ExtractedIsFirstD(ev.tags, v); }
    assert FirstD(e.tags, ExtractDTag(e.tags)) && FirstD(ev.tags, ExtractDTag(ev.tags));
  }

  lemma SavedIsByNumbers(log: seq<Event>, ev: Event)
    requires Saved(log, ev).Ok?
    ensures SavedByNumbers(log, ev, Saved(log, ev).value)
  {
    if ev.kind == 0 || ev.kind == 3 || 10000 <= ev.kind <= 19999 {
      FilterSame(log, OtherSlots(ev), (e: Event) => !(e.pubkey == ev.pubkey && e.kind == ev.kind));
    } else if 30000 <= ev.kind <= 39999 {
      forall e ensures SameD(e, ev) <==> ExtractDTag(e.tags) == ExtractDTag(ev.tags) { SameDIsExtracted(e, ev); }
      FilterSame(log, OtherSlots(ev), (e: Event) => !(e.pubkey == ev.pubkey && e.kind == ev.kind && SameD(e, ev)));
    } else {
      FilterAll(log, OtherSlots(ev));
    }
  }

  /** Of two stored events neither would replace the other. */
  lemma OneOfAKind(log: seq<Event>, a: Event, b: Event)
    requires WellKept(log) && a in log && b in log && a != b
    ensures !(20000 <= a.kind <= 29999)
    ensures a.kind == 0 || a.kind == 3 || 10000 <= a.kind <= 19999 ==> !(a.pubkey == b.pubkey && a.kind == b.kind)
    ensures 30000 <= a.kind <= 39999 ==> !(a.pubkey == b.pubkey && a.kind == b.kind && SameD(a, b))
  {
    SameDIsExtracted(a, b);
    var i :| 0 <= i < |log| && log[i] == a;
    var j :| 0 <= j < |log| && log[j] == b;
    assert !SameSlot(log[if i < j then i else j], log[if i < j then j else i]);
  }

  lemma FilterWellKept(evs: seq<Event>, p: Event -> bool)
    requires WellKept(evs)
    ensures WellKept(Filter(evs, p))
  {
    FilterDistinctIds(evs, p);
    var r := Filter(evs, p);
    forall i, j | 0 <= i < j < |r| ensures !SameSlot(r[i], r[j]) {
      assert r[i] in evs && r[j] in evs;
      var a :| 0 <= a < |evs| && evs[a] == r[i];
      var b :| 0 <= b < |evs| && evs[b] == r[j];
      assert r[i].id != r[j].id;
      if a < b { assert !SameSlot(evs[a], evs[b]); } else { assert !SameSlot(evs[b], evs[a]); }
    }
  }

  lemma SavedWellKept(evs: seq<Event>, ev: Event)
    requires WellKept(evs) && Saved(evs, ev).Ok?
    ensures WellKept(Saved(evs, ev).value)
  {
    var kept := WithoutSlot(evs, ev);
    FilterWellKept(evs, OtherSlots(ev));
    var out := kept + [ev];
    forall i, j | 0 <= i < j < |out| ensures out[i].id != out[j].id && !SameSlot(out[i], out[j]) {
      if j == |kept| { assert out[i] in kept; }
    }
  }

  // ---- the tables commute with the log ----------------------------------------------

  lemma RowsMembers(evs: seq<Event>, r: EventRow)
    ensures r in Rows(evs) <==> exists e :: e in evs && r == ToRow(e)
  {
    if evs != [] { RowsMembers(evs[1..], r); }
  }

  lemma {:induction false} RowsAppend(a: seq<Event>, b: seq<Event>)
    ensures Rows(a + b) == Rows(a) + Rows(b)
  {
    if a == [] {
      assert a + b == b;
    } else {
      assert (a + b)[1..] == a[1..] + b;
      RowsAppend(a[1..], b);
    }
  }

  lemma {:induction false} TagsAppend(a: seq<Event>, b: seq<Event>)
    ensures AllTags(a + b) == AllTags(a) + AllTags(b)
  {
    if a == [] {
      assert a + b == b;
    } else {
      assert (a + b)[1..] == a[1..] + b;
      TagsAppend(a[1..], b);
    }
  }

  lemma {:induction false} FtsAppend(a: seq<Event>, b: seq<Event>)
    ensures AllFts(a + b) == AllFts(a) + AllFts(b)
  {
    if a == [] {
      assert a + b == b;
    } else {
      assert (a + b)[1..] == a[1..] + b;
      FtsAppend(a[1..], b);
    }
  }

  lemma ImageAppendOne(evs: seq<Event>, e: Event)
    ensures Rows(evs + [e]) == Rows(evs) + [ToRow(e)]
    ensures AllTags(evs + [e]) == AllTags(evs) + TagRowsOf(e)
    ensures AllFts(evs + [e]) == AllFts(evs) + [ToFts(e)]
  {
    RowsAppend(evs, [e]);
    TagsAppend(evs, [e]);
    FtsAppend(evs, [e]);
    assert AllTags([e]) == TagRowsOf(e) + AllTags([]);
  }

  lemma TagsOfFilter(evs: seq<Event>, gone: set<string>)
    ensures Filter(AllTags(evs), (x: TagRow) => x.eventId !in gone)
         == AllTags(Filter(evs, (e: Event) => e.id !in gone))
  {
    if evs != [] {
      var q := (x: TagRow) => x.eventId !in gone;
      FilterAppend(TagRowsOf(evs[0]), AllTags(evs[1..]), q);
      if evs[0].id in gone { FilterNone(TagRowsOf(evs[0]), q); } else { FilterAll(TagRowsOf(evs[0]), q); }
      TagsOfFilter(evs[1..], gone);
    }
  }

  lemma FtsOfFilter(evs: seq<Event>, gone: set<string>)
    ensures Filter(AllFts(evs), (x: FtsRow) => x.eventId !in gone)
         == AllFts(Filter(evs, (e: Event) => e.id !in gone))
  {
    if evs != [] { FtsOfFilter(evs[1..], gone); }
  }

  lemma RowsOfFilter(evs: seq<Event>, p: EventRow -> bool)
    ensures Filter(Rows(evs), (r: EventRow) => !p(r)) == Rows(Filter(evs, (e: Event) => !p(ToRow(e))))
  {
    if evs != [] { RowsOfFilter(evs[1..], p); }
  }

  /** Deleting rows, with cascade and trigger, is deleting the same events from the log. */
  lemma DeleteCommutes(evs: seq<Event>, p: EventRow -> bool, keep: Event -> bool)
    requires DistinctIds(evs)
    requires forall e :: e in evs ==> p(ToRow(e)) == !keep(e)
    ensures DeleteEvents(Image(evs), p) == Image(Filter(evs, keep))
  {
    var t := Image(evs);
    var gone := set r | r in t.events && p(r) :: r.id;
    RowsOfFilter(evs, p);
    FilterSame(evs, (e: Event) => !p(ToRow(e)), keep);
    forall e | e in evs ensures (e.id !in gone) == keep(e) {
      RowsMembers(evs, ToRow(e));
      if e.id in gone {
        var r :| r in t.events && p(r) && r.id == e.id;
        RowsMembers(evs, r);
        var o :| o in evs && r == ToRow(o);
        SameIdSameEvent(evs, e, o);
      }
    }
    FilterSame(evs, (e: Event) => e.id !in gone, keep);
    TagsOfFilter(evs, gone);
    FtsOfFilter(evs, gone);
  }

  lemma HasIdImage(evs: seq<Event>, id: string)
    ensures HasId(Image(evs), id) <==> HasEvent(evs, id)
  {
    if HasId(Image(evs), id) {
      var r :| r in Rows(evs) && r.id == id;
      RowsMembers(evs, r);
    }
    if HasEvent(evs, id) {
      var e :| e in evs && e.id == id;
      RowsMembers(evs, ToRow(e));
    }
  }

  lemma InsertCommutes(evs: seq<Event>, ev: Event)
    requires !HasEvent(evs, ev.id)
    ensures InsertEvent(Image(evs), ToRow(ev)).Ok?
    ensures InsertTags(InsertEvent(Image(evs), ToRow(ev)).value, TagRowsOf(ev)) == Image(evs + [ev])
  {
    HasIdImage(evs, ev.id);
    ImageAppendOne(evs, ev);
  }

  // ---- the store ---------------------------------------------------------------------

  /** Which statement of a transaction fails on I/O. */
  datatype Faults = Faults(onEvents: bool, onInsert: bool, onTags: bool)

  const NO_FAULT := Faults(false, false, false)

  /** What becomes of a save in the writer: its runs, their faults, and whether its caller was told of something else. */
  datatype Fate = Fate(ran: bool, first: Faults, again: bool, second: Faults, late: bool, closed: bool)

  const CALM := Fate(true, NO_FAULT, false, NO_FAULT, false, false)

  class Store {
    var events: seq<EventRow>
    var tags: seq<TagRow>
    var fts: seq<FtsRow>
    ghost var log: seq<Event>

    ghost function State(): Tables reads this { Tables(events, tags, fts) }

    ghost predicate Valid() reads this { State() == Image(log) && WellKept(log) }

    constructor ()
      ensures Valid() && log == []
    {
      events, tags, fts, log := [], [], [], [];
    }

    method Assign(t: Tables)
      modifies this`events, this`tags, this`fts
      ensures State() == t
    {
      events, tags, fts := t.events, t.tags, t.fts;
    }

    method DeleteEventsWhere(p: EventRow -> bool)
      modifies this`events, this`tags, this`fts
      ensures State() == DeleteEvents(old(State()), p)
    {
      Assign(DeleteEvents(Tables(events, tags, fts), p));
    }

    /** The tag rows built for an event: positions, name and first value, bare tags as "". */
    static method BuildTagRows(ev: Event) returns (rows: seq<TagRow>)
      ensures rows == TagRowsOf(ev)
    {
      rows := [];
      for i := 0 to |ev.tags|
        invariant rows == TagRowsOf(ev)[..i]
      {
        var t := ev.tags[i];
        var val := "";
        if |t| > 1 { val := t[1]; }
        var name := "";
        if |t| > 0 { name := t[0]; }
        rows := rows + [TagRow(ev.id, i, name, val, t)];
      }
    }

    /**
     The closure of SaveEvent, one transaction: drop the row holding the event's slot, insert the event and its
     tags. A failure at any point rolls every table back.
     */
    method SaveTransaction(ev: Event, faults: Faults) returns (r: Result<(), SaveError>)
      requires Valid() && !IsEphemeral(ev.kind)
      modifies this
      ensures Valid()
      ensures r.Ok? ==> Saved(old(log), ev) == Ok(log)
      ensures r.Err? ==> log == old(log) && State() == old(State()) && r.error in {DuplicateId, IoError}
      ensures r == Err(DuplicateId) ==> Saved(log, ev) == Err(DuplicateId)
      ensures r.Ok? ==> SavedByNumbers(old(log), ev, log)
      ensures r.Ok? <==> SaveGoesThrough(old(log), ev, faults)
    {
      var begin := Tables(events, tags, fts);
      match ClassifyKind(ev.kind) {
        case Replaceable =>
          if faults.onEvents { return Err(IoError); }
          DeleteEventsWhere(WhereReplaceable(ev));
        case Addressable =>
          if faults.onEvents { return Err(IoError); }
          DeleteEventsWhere(WhereAddressable(ev));
        case _ =>
      }
      ghost var kept := WithoutSlot(log, ev);
      assert State() == Image(kept) by { SlotDelete(log, ev); }
      FilterWellKept(log, OtherSlots(ev));
      HasIdImage(kept, ev.id);
      var inserted := InsertEvent(Tables(events, tags, fts), ToRow(ev));
      if inserted.Err? {
        Assign(begin);
        return Err(inserted.error);
      }
      if faults.onInsert {
        Assign(begin);
        return Err(IoError);
      }
      Assign(inserted.value);
      var rows := BuildTagRows(ev);
      if |rows| > 0 {
        if faults.onTags {
          Assign(begin);
          return Err(IoError);
        }
        Assign(InsertTags(Tables(events, tags, fts), rows));
      }
      InsertCommutes(kept, ev);
      SavedWellKept(log, ev);
      SavedIsByNumbers(log, ev);
      log := kept + [ev];
      return Ok(());
    }

    /**
     SaveEvent through the single writer: the closure runs not at all, once, or again after a reconnect, and the
     caller may be told of the deadline or the closed store whatever became of it.
     */
    method SaveEvent(ev: Event, fate: Fate) returns (r: Result<(), SaveError>)
      requires Valid()
      modifies this
      ensures Valid()
      ensures r.Ok? ==> Saved(old(log), ev) == Ok(log)
      ensures r.Err? ==>
        (log == old(log) && State() == old(State())) ||
        (r.error in {DeadlineExceeded, StoreClosed} && Saved(old(log), ev) == Ok(log))
      ensures r == Err(EphemeralNotStored) <==> 20000 <= ev.kind <= 29999
      ensures r.Ok? ==> SavedByNumbers(old(log), ev, log)
      ensures fate == CALM ==> (r.Ok? <==> Saved(old(log), ev).Ok?)
    {
      if IsEphemeral(ev.kind) { return Err(EphemeralNotStored); }
      if fate.ran {
        r := SaveTransaction(ev, fate.first);
        if r == Err(IoError) && fate.again { r := SaveTransaction(ev, fate.second); }
      } else {
        r := Err(IoError);
      }
      if fate.late { return Err(DeadlineExceeded); }
      if fate.closed { return Err(StoreClosed); }
    }

    /** The closure of DeleteEvent. */
    method DeleteTransaction(id: string, faults: Faults) returns (r: Result<(), SaveError>)
      requires Valid()
      modifies this
      ensures Valid()
      ensures r.Ok? ==> log == Deleted(old(log), id)
      ensures r.Ok? ==> forall e :: e in log <==> e in old(log) && e.id != id
      ensures r.Err? ==> log == old(log) && State() == old(State())
      ensures r.Ok? <==> !faults.onTags && !faults.onEvents
    {
      var begin := Tables(events, tags, fts);
      if faults.onTags { return Err(IoError); }
      Assign(DeleteTags(begin, id));
      if faults.onEvents {
        Assign(begin);
        return Err(IoError);
      }
      DeleteEventsWhere(WhereId(id));
      DeleteByIdCommutes(log, id);
      FilterWellKept(log, OtherIds(id));
      log := Deleted(log, id);
      return Ok(());
    }
  }

  /** No statement that the save needs fails, and no other event has its id. */
  predicate SaveGoesThrough(log: seq<Event>, ev: Event, faults: Faults) {
    && Saved(log, ev).Ok? && !faults.onInsert && !(faults.onTags && ev.tags != [])
    && !(faults.onEvents && SlotOf(ev).Some?)
  }

  /** The DELETE chosen by kind class removes exactly the event's slot. */
  lemma SlotDelete(evs: seq<Event>, ev: Event)
    requires WellKept(evs) && !IsEphemeral(ev.kind)
    ensures ClassifyKind(ev.kind) == Replaceable ==>
      DeleteEvents(Image(evs), WhereReplaceable(ev)) == Image(WithoutSlot(evs, ev))
    ensures ClassifyKind(ev.kind) == Addressable ==>
      DeleteEvents(Image(evs), WhereAddressable(ev)) == Image(WithoutSlot(evs, ev))
    ensures ClassifyKind(ev.kind) == Regular ==> WithoutSlot(evs, ev) == evs
  {
    match ClassifyKind(ev.kind) {
      case Replaceable => DeleteCommutes(evs, WhereReplaceable(ev), OtherSlots(ev));
      case Addressable => DeleteCommutes(evs, WhereAddressable(ev), OtherSlots(ev));
      case Regular => FilterAll(evs, OtherSlots(ev));
    }
  }

  lemma DeleteByIdCommutes(evs: seq<Event>, id: string)
    requires DistinctIds(evs)
    ensures DeleteEvents(DeleteTags(Image(evs), id), WhereId(id)) == Image(Deleted(evs, id))
  {
    DeleteCommutes(evs, WhereId(id), OtherIds(id));
    var gone := set r | r in Rows(evs) && WhereId(id)(r) :: r.id;
    TagsDeletedTwice(evs, id, gone);
  }

  /** The explicit tag delete removes nothing the cascade would not. */
  lemma TagsDeletedTwice(evs: seq<Event>, id: string, gone: set<string>)
    requires gone == set r | r in Rows(evs) && WhereId(id)(r) :: r.id
    ensures Filter(Filter(AllTags(evs), (x: TagRow) => x.eventId != id), (x: TagRow) => x.eventId !in gone)
         == Filter(AllTags(evs), (x: TagRow) => x.eventId !in gone)
  {
    forall x | x in AllTags(evs) && x.eventId !in gone ensures x.eventId != id {
      TagHasRow(evs, x);
    }
    FilterAbsorb(AllTags(evs), (x: TagRow) => x.eventId != id, (x: TagRow) => x.eventId !in gone);
  }

  /** The foreign key: a tag row belongs to a stored event row. */
  lemma TagHasRow(evs: seq<Event>, x: TagRow)
    requires x in AllTags(evs)
    ensures exists r :: r in Rows(evs) && r.id == x.eventId
  {
    TagOwners(evs, x);
    var e :| e in evs && e.id == x.eventId;
    RowsMembers(evs, ToRow(e));
  }

  lemma TagOwners(evs: seq<Event>, x: TagRow)
    requires x in AllTags(evs)
    ensures exists e :: e in evs && e.id == x.eventId && x in TagRowsOf(e)
  {
    if x !in TagRowsOf(evs[0]) { TagOwners(evs[1..], x); }
  }
}
