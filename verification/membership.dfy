/**
 NIP-29 membership: the newest put-user or remove-user event the relay signed for a group and user
 decides (internal/storage/sqlevent/store.go), and join and leave requests are judged by it
 (internal/relay/nip29.go).
 */
module Membership {
  import opened Base
  import opened Nostr
  import opened EventTables
  import EventHistory

  datatype Pair = Pair(relay: string, group: string, user: string)

  /** The event has a tag row with this name and value; a bare tag's value is "". */
  predicate HasTagRow(e: Event, name: string, value: string) {
    exists i :: 0 <= i < |e.tags| && RowIs(ToTagRow(e.id, i, e.tags[i]), name, value)
  }

  predicate RowIs(x: TagRow, name: string, value: string) { x.name == name && x.value == value }

  /** A put-user or remove-user event of the relay for this group and user. */
  function Rules(q: Pair): Event -> bool {
    (e: Event) => e.pubkey == q.relay && e.kind in {KIND_PUT_USER, KIND_REMOVE_USER} &&
                  HasTagRow(e, "h", q.group) && HasTagRow(e, "p", q.user)
  }

  /** The newest of them, by created_at and then by smallest id. */
  ghost predicate Decides(log: seq<Event>, q: Pair, e: Event) {
    e in log && Rules(q)(e) && forall o :: o in log && Rules(q)(o) && o != e ==> Newer(e, o)
  }

  ghost predicate Member(log: seq<Event>, q: Pair) {
    exists e :: Decides(log, q, e) && e.kind == KIND_PUT_USER
  }

  /** Some tag of this name has this value first; a bare tag counts as having "". */
  predicate Tagged(e: Event, name: string, value: string) {
    exists i :: 0 <= i < |e.tags| && (if |e.tags[i]| > 0 then e.tags[i][0] else "") == name &&
      (if |e.tags[i]| > 1 then e.tags[i][1] else "") == value
  }

  /** An event of kind 9000, which puts, or 9001, which removes, signed by the relay for this group and user. */
  predicate RulesByNumbers(q: Pair, e: Event) {
    e.pubkey == q.relay && (e.kind == 9000 || e.kind == 9001) && Tagged(e, "h", q.group) && Tagged(e, "p", q.user)
  }

  /** Later, or of the same second with the bytewise smaller id. */
  ghost predicate Ahead(a: Event, b: Event) {
    a.createdAt > b.createdAt || (a.createdAt == b.createdAt && BytesBefore(a.id, b.id))
  }

  lemma TaggedIsRow(e: Event, name: string, value: string)
    ensures Tagged(e, name, value) <==> HasTagRow(e, name, value)
  {
    if HasTagRow(e, name, value) {
      var i :| 0 <= i < |e.tags| && RowIs(ToTagRow(e.id, i, e.tags[i]), name, value);
      assert (if |e.tags[i]| > 0 then e.tags[i][0] else "") == name;
    }
    if i :| 0 <= i < |e.tags| && (if |e.tags[i]| > 0 then e.tags[i][0] else "") == name &&
            (if |e.tags[i]| > 1 then e.tags[i][1] else "") == value {
      assert RowIs(ToTagRow(e.id, i, e.tags[i]), name, value);
    }
  }

  lemma RulesAreByNumbers(q: Pair, e: Event)
    ensures Rules(q)(e) <==> RulesByNumbers(q, e)
  {
    TaggedIsRow(e, "h", q.group);
    TaggedIsRow(e, "p", q.user);
  }

  /** A user is a member exactly when the foremost of these events is of kind 9000. */
  lemma MemberByNumbers(log: seq<Event>, q: Pair)
    ensures Member(log, q) <==>
      exists e :: e in log && e.kind == 9000 && RulesByNumbers(q, e) &&
        forall o :: o in log && RulesByNumbers(q, o) && o != e ==> Ahead(e, o)
  {
    forall e ensures Rules(q)(e) <==> RulesByNumbers(q, e) { RulesAreByNumbers(q, e); }
    forall e, o ensures Newer(e, o) <==> Ahead(e, o) { NewerByNumbers(e, o); }
    if Member(log, q) {
      var e :| Decides(log, q, e) && e.kind == KIND_PUT_USER;
      assert RulesByNumbers(q, e);
    }
    if e :| e in log && e.kind == 9000 && RulesByNumbers(q, e) &&
            forall o :: o in log && RulesByNumbers(q, o) && o != e ==> Ahead(e, o) {
      assert Decides(log, q, e);
    }
  }

  // ---- the query ------------------------------------------------------------------------------

  method TagRowExists(tags: seq<TagRow>, id: string, name: string, value: string) returns (ok: bool)
    ensures ok <==> exists x :: x in tags && x.eventId == id && RowIs(x, name, value)
  {
    for i := 0 to |tags|
      invariant forall j :: 0 <= j < i ==> !(tags[j].eventId == id && RowIs(tags[j], name, value))
    {
      if tags[i].eventId == id && RowIs(tags[i], name, value) { return true; }
    }
    return false;
  }

  lemma TagsInImage(log: seq<Event>, e: Event, i: nat)
    requires e in log && i < |e.tags|
    ensures ToTagRow(e.id, i, e.tags[i]) in AllTags(log)
  {
    if e != log[0] {
      TagsInImage(log[1..], e, i);
    } else {
      assert TagRowsOf(e)[i] in TagRowsOf(e);
    }
  }

  /** The two tag joins test the event's own tags. */
  lemma JoinIsOwnTags(log: seq<Event>, e: Event, name: string, value: string)
    requires DistinctIds(log) && e in log
    ensures (exists x :: x in AllTags(log) && x.eventId == e.id && RowIs(x, name, value)) <==> HasTagRow(e, name, value)
  {
    if x :| x in AllTags(log) && x.eventId == e.id && RowIs(x, name, value) {
      TagOwners(log, x);
      var o :| o in log && o.id == x.eventId && x in TagRowsOf(o);
      SameIdSameEvent(log, e, o);
    }
    if HasTagRow(e, name, value) {
      var i :| 0 <= i < |e.tags| && RowIs(ToTagRow(e.id, i, e.tags[i]), name, value);
      TagsInImage(log, e, i);
    }
  }

  /** Event k decides among the first n. */
  ghost predicate BestAt(log: seq<Event>, q: Pair, n: nat, k: nat)
    requires n <= |log|
  {
    k < n && Rules(q)(log[k]) && forall j :: 0 <= j < n && j != k && Rules(q)(log[j]) ==> Newer(log[k], log[j])
  }

  lemma BestDecides(log: seq<Event>, q: Pair, k: nat)
    requires DistinctIds(log) && BestAt(log, q, |log|, k)
    ensures Decides(log, q, log[k]) && (Member(log, q) <==> log[k].kind == KIND_PUT_USER)
  {
    OrdersAreStrict();
    forall e | Newer(e, log[k]) ensures !Newer(log[k], e) { NewerIsAsymmetric(e, log[k]); }
    assert forall e :: Decides(log, q, e) ==> e == log[k];
  }

  lemma NewerExtends(log: seq<Event>, q: Pair, n: nat, k: nat, a: Event)
    requires n <= |log| && BestAt(log, q, n, k) && Newer(a, log[k])
    ensures forall j :: 0 <= j < n && Rules(q)(log[j]) ==> Newer(a, log[j])
  {
    OrdersAreStrict();
    forall j | 0 <= j < n && Rules(q)(log[j]) && j != k ensures Newer(a, log[j]) {
      assert Newer(a, log[k]) && Newer(log[k], log[j]);
    }
  }

  lemma RowsAt(log: seq<Event>, i: nat)
    requires i < |log|
    ensures |Rows(log)| == |log| && Rows(log)[i] == ToRow(log[i])
  {
    if i > 0 {
      RowsAt(log[1..], i - 1);
    } else if |log| > 1 {
      RowsAt(log[1..], 0);
    }
  }

  lemma NextBest(log: seq<Event>, q: Pair, n: nat, k: nat)
    requires DistinctIds(log) && n < |log| && BestAt(log, q, n, k)
    ensures Rules(q)(log[n]) && Newer(log[n], log[k]) ==> BestAt(log, q, n + 1, n)
    ensures !(Rules(q)(log[n]) && Newer(log[n], log[k])) ==> BestAt(log, q, n + 1, k)
  {
    DistinctIdsComparable(log);
    if Newer(log[n], log[k]) { NewerExtends(log, q, n, k, log[n]); }
  }

  /** IsGroupMember: SELECT .. ORDER BY created_at DESC, id ASC LIMIT 1, and the kind of that row. */
  method IsGroupMember(t: Tables, q: Pair, ghost log: seq<Event>) returns (r: bool)
    requires t == Image(log) && DistinctIds(log)
    ensures r <==> Member(log, q)
  {
    var best: Option<EventRow> := None;
    ghost var k: nat := 0;
    if log != [] { RowsAt(log, 0); }
    for i := 0 to |t.events|
      invariant |t.events| == |log|
      invariant best.None? ==> forall j :: 0 <= j < i ==> !Rules(q)(log[j])
      invariant best.Some? ==> BestAt(log, q, i, k) && best.value == ToRow(log[k])
    {
      RowsAt(log, i);
      var row := t.events[i];
      if best.Some? { NextBest(log, q, i, k); }
      if row.pubkey == q.relay && row.kind in {KIND_PUT_USER, KIND_REMOVE_USER} {
        var h := TagRowExists(t.tags, row.id, "h", q.group);
        var p := TagRowExists(t.tags, row.id, "p", q.user);
        JoinIsOwnTags(log, log[i], "h", q.group);
        JoinIsOwnTags(log, log[i], "p", q.user);
        if h && p && (best.None? || RowNewer(row, best.value)) {
          best, k := Some(row), i;
        }
      }
    }
    if best.None? { return false; }
    BestDecides(log, q, k);
    return best.value.kind == KIND_PUT_USER;
  }

  // ---- what one more event does -----------------------------------------------------------------

  /** ev would come first among the events that decide. */
  ghost predicate Beats(log: seq<Event>, q: Pair, ev: Event) {
    forall o :: o in log && Rules(q)(o) ==> Newer(ev, o)
  }

  /** The last event of a log differs from the others, and one of the two comes first. */
  lemma LastCompares(log: seq<Event>, ev: Event, o: Event)
    requires DistinctIds(log + [ev]) && o in log
    ensures o != ev && (Newer(o, ev) || Newer(ev, o)) && !(Newer(o, ev) && Newer(ev, o))
  {
    DistinctIdsComparable(log + [ev]);
    var i :| 0 <= i < |log| && log[i] == o;
    assert (log + [ev])[i] == o && (log + [ev])[|log|] == ev;
    if Newer(o, ev) { NewerIsAsymmetric(o, ev); }
  }

  lemma FirstDecides(log: seq<Event>, q: Pair, ev: Event)
    requires DistinctIds(log + [ev]) && Rules(q)(ev) && Beats(log, q, ev)
    ensures forall e :: Decides(log + [ev], q, e) <==> e == ev
  {
    forall o | o in log ensures o != ev && !(Newer(o, ev) && Newer(ev, o)) { LastCompares(log, ev, o); }
    assert Decides(log + [ev], q, ev);
  }

  lemma LaterDoesNotDecide(log: seq<Event>, q: Pair, ev: Event)
    requires DistinctIds(log + [ev]) && !(Rules(q)(ev) && Beats(log, q, ev))
    ensures forall e :: Decides(log + [ev], q, e) <==> Decides(log, q, e)
  {
    forall o | o in log ensures o != ev && (Newer(o, ev) <==> !Newer(ev, o)) { LastCompares(log, ev, o); }
    if Rules(q)(ev) {
      var o :| o in log && Rules(q)(o) && !Newer(ev, o);
      forall e | Decides(log, q, e) ensures Newer(e, ev) {
        OrdersAreStrict();
        assert Newer(o, ev) && (e == o || Newer(e, o));
      }
      assert !Decides(log + [ev], q, ev);
    }
    forall e ensures Decides(log + [ev], q, e) <==> Decides(log, q, e) {
      assert e in log + [ev] <==> e in log || e == ev;
    }
  }

  lemma AppendMember(log: seq<Event>, q: Pair, ev: Event)
    requires DistinctIds(log + [ev])
    ensures Member(log + [ev], q) <==>
      if Rules(q)(ev) && Beats(log, q, ev) then ev.kind == KIND_PUT_USER else Member(log, q)
  {
    if Rules(q)(ev) && Beats(log, q, ev) { FirstDecides(log, q, ev); } else { LaterDoesNotDecide(log, q, ev); }
  }

  /** A stored put-user event makes a member exactly when there was one already or it comes first. */
  lemma PutTakesEffectIff(log: seq<Event>, q: Pair, put: Event)
    requires DistinctIds(log + [put]) && Rules(q)(put) && put.kind == KIND_PUT_USER
    ensures Member(log + [put], q) <==> Member(log, q) || Beats(log, q, put)
  {
    AppendMember(log, q, put);
  }

  /** A remove-user event of the same second does nothing unless its id is the smaller one. */
  lemma RemoveTakesEffectIff(log: seq<Event>, q: Pair, remove: Event)
    requires DistinctIds(log + [remove]) && Rules(q)(remove) && remove.kind == KIND_REMOVE_USER
    ensures !Member(log + [remove], q) <==> !Member(log, q) || Beats(log, q, remove)
  {
    AppendMember(log, q, remove);
  }

  // ---- membership as a fold over the saved events -------------------------------------------------

  /** The last put-user or remove-user event in log order. */
  function LastWritten(log: seq<Event>, q: Pair): bool {
    if log == [] then false
    else if Rules(q)(log[|log| - 1]) then log[|log| - 1].kind == KIND_PUT_USER
    else LastWritten(log[..|log| - 1], q)
  }

  /** Each event that decides came first when it was stored; strictly increasing stamps are enough. */
  ghost predicate Rising(log: seq<Event>, q: Pair) {
    forall i, j :: 0 <= i < j < |log| && Rules(q)(log[i]) && Rules(q)(log[j]) ==> Newer(log[j], log[i])
  }

  lemma {:induction false} MemberIsFold(log: seq<Event>, q: Pair)
    requires DistinctIds(log) && Rising(log, q)
    ensures Member(log, q) <==> LastWritten(log, q)
  {
    if log != [] {
      var n := |log| - 1;
      assert log == log[..n] + [log[n]];
      MemberIsFold(log[..n], q);
      AppendMember(log[..n], q, log[n]);
    }
  }

  /** Other saves, and other groups and users, never touch the events that decide. */
  lemma SaveKeepsRules(log: seq<Event>, q: Pair, ev: Event)
    requires Saved(log, ev).Ok?
    ensures Filter(Saved(log, ev).value, Rules(q)) == Filter(log, Rules(q)) + if Rules(q)(ev) then [ev] else []
  {
    FilterAppend(WithoutSlot(log, ev), [ev], Rules(q));
    assert Filter([ev], Rules(q)) == if Rules(q)(ev) then [ev] else [];
    forall e | Rules(q)(e) ensures OtherSlots(ev)(e) { RulesHaveNoSlot(q, e, ev); }
    FilterAbsorb(log, OtherSlots(ev), Rules(q));
  }

  lemma RulesHaveNoSlot(q: Pair, e: Event, ev: Event)
    requires Rules(q)(e)
    ensures OtherSlots(ev)(e)
  {
    assert SlotOf(e).None?;
  }

  lemma {:induction false} LastWrittenOfRules(log: seq<Event>, q: Pair)
    ensures LastWritten(log, q) == LastWritten(Filter(log, Rules(q)), q)
  {
    if log != [] {
      var n := |log| - 1;
      assert log == log[..n] + [log[n]];
      FilterAppend(log[..n], [log[n]], Rules(q));
      LastWrittenOfRules(log[..n], q);
      if Rules(q)(log[n]) {
        assert (Filter(log[..n], Rules(q)) + [log[n]])[|Filter(log[..n], Rules(q))|] == log[n];
      } else {
        assert Filter(log[..n], Rules(q)) + [] == Filter(log[..n], Rules(q));
      }
    }
  }

  /** Put and remove events in the order they were saved. */
  function SavedMember(log: seq<Event>, ops: seq<EventHistory.Op>, committed: seq<bool>, q: Pair): bool
    requires |ops| == |committed|
  {
    if ops == [] then LastWritten(log, q)
    else
      var n := |ops| - 1;
      if Takes(EventHistory.AfterAll(log, ops[..n], committed[..n]), ops[n], committed[n], q)
      then ops[n].ev.kind == KIND_PUT_USER
      else SavedMember(log, ops[..n], committed[..n], q)
  }

  predicate Takes(log: seq<Event>, op: EventHistory.Op, committed: bool, q: Pair) {
    committed && op.Save? && Saved(log, op.ev).Ok? && Rules(q)(op.ev)
  }

  lemma SaveLastWritten(log: seq<Event>, q: Pair, ev: Event)
    requires Saved(log, ev).Ok?
    ensures LastWritten(Saved(log, ev).value, q) ==
      if Rules(q)(ev) then ev.kind == KIND_PUT_USER else LastWritten(log, q)
  {
    var out := Saved(log, ev).value;
    if Rules(q)(ev) {
      assert out[|out| - 1] == ev;
    } else {
      SaveKeepsRules(log, q, ev);
      LastWrittenOfRules(log, q);
      LastWrittenOfRules(out, q);
    }
  }

  /** After any run of saves, IsGroupMember is the fold of the put and remove events saved, in order. */
  lemma {:induction false} MembershipIsFoldOfSaves(log: seq<Event>, ops: seq<EventHistory.Op>,
      committed: seq<bool>, q: Pair)
    requires WellKept(log) && |ops| == |committed| && forall op :: op in ops ==> op.Save?
    requires Rising(EventHistory.AfterAll(log, ops, committed), q)
    ensures Member(EventHistory.AfterAll(log, ops, committed), q) <==> SavedMember(log, ops, committed, q)
  {
    EventHistory.RunsStayWellKept(log, ops, committed);
    MemberIsFold(EventHistory.AfterAll(log, ops, committed), q);
    FoldOfSaves(log, ops, committed, q);
  }

  lemma {:induction false} FoldOfSaves(log: seq<Event>, ops: seq<EventHistory.Op>, committed: seq<bool>, q: Pair)
    requires |ops| == |committed| && forall op :: op in ops ==> op.Save?
    ensures LastWritten(EventHistory.AfterAll(log, ops, committed), q) == SavedMember(log, ops, committed, q)
  {
    if ops != [] {
      var n := |ops| - 1;
      var before := EventHistory.AfterAll(log, ops[..n], committed[..n]);
      FoldOfSaves(log, ops[..n], committed[..n], q);
      assert ops[n] in ops;
      if committed[n] && Saved(before, ops[n].ev).Ok? { SaveLastWritten(before, q, ops[n].ev); }
    }
  }
}
