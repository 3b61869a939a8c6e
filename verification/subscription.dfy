/**
 The subscription table: one entry per connection and sub id, and what each operation does to each
 entry (internal/relay/subscription.go). Whether a send is accepted is up to the connection's send
 queue, so it is left open.
 */
module Subscriptions {
  import opened Base
  import opened Nostr

  const PENDING_LIVE_CAP := 256

  datatype Entry = Entry(
    filters: seq<NFilter>,
    openedUnix: int,
    closed: bool,
    broadcastOk: nat,
    broadcastDrop: nat,
    eoseSent: nat,
    snapshotDone: bool,
    pendingLive: seq<Event>,
    overflow: bool)

  datatype AddError = SubscriptionIdTooLong | TooManyFilters | TooManySubscriptions

  type Table = map<string, map<string, Entry>>

  function NewEntry(filters: seq<NFilter>, now: int): Entry {
    Entry(filters, now, false, 0, 0, 0, false, [], false)
  }

  function At(t: Table, connId: string, subId: string): Option<Entry> {
    if connId in t && subId in t[connId] then Some(t[connId][subId]) else None
  }

  /** One connection's entries after a broadcast of ev; sent holds the sub ids sent to directly. */
  predicate Served(before: map<string, Entry>, after: map<string, Entry>, ev: Event, on: bool, sent: set<string>) {
    if on
    then after.Keys == before.Keys && sent <= before.Keys &&
         forall s :: s in before ==> Reached(before[s], after[s], ev, s in sent)
    else after == before && sent == {}
  }

  /** No other entry differs. */
  ghost predicate OnlyAt(before: Table, after: Table, connId: string, subId: string) {
    forall c, s :: c != connId || s != subId ==> At(after, c, s) == At(before, c, s)
  }

  function Put(t: Table, connId: string, subId: string, e: Entry): Table {
    t[connId := (if connId in t then t[connId] else map[])[subId := e]]
  }

  lemma PutAt(t: Table, connId: string, subId: string, e: Entry)
    ensures At(Put(t, connId, subId, e), connId, subId) == Some(e)
    ensures OnlyAt(t, Put(t, connId, subId, e), connId, subId)
  {}

  /** Every connection holds at most max entries, and none at all when max is not positive. */
  ghost predicate Within(t: Table, max: int) {
    forall c :: c in t ==> |t[c]| <= (if max > 0 then max else 0)
  }

  lemma PutWithin(t: Table, max: int, connId: string, subId: string, e: Entry)
    requires Within(t, max)
    requires At(t, connId, subId).Some? || (if connId in t then |t[connId]| else 0) < max
    ensures Within(Put(t, connId, subId, e), max)
  {
    var cmap := if connId in t then t[connId] else map[];
    assert cmap[subId := e].Keys == cmap.Keys + {subId};
  }

  /** What a broadcast does to one open, matching, visible entry. */
  function Offer(e: Entry, ev: Event, accepted: bool): Entry {
    if !e.snapshotDone then
      if |e.pendingLive| >= PENDING_LIVE_CAP then e.(overflow := true) else e.(pendingLive := e.pendingLive + [ev])
    else Counted(e, accepted)
  }

  predicate Wants(e: Entry, ev: Event) { !e.closed && AcceptsAny(e.filters, ev) }

  /** before became after on one entry by a broadcast of ev; sent says whether it was sent directly. */
  predicate Reached(before: Entry, after: Entry, ev: Event, sent: bool) {
    if Wants(before, ev)
    then after == Offer(before, ev, sent) && (sent ==> before.snapshotDone)
    else after == before && !sent
  }

  /** All connections but those in left are served; those are as they were. */
  predicate ServedBut(before: Table, now: Table, sent: map<string, set<string>>, left: set<string>, ev: Event,
                      on: string -> bool) {
    && now.Keys == before.Keys == sent.Keys
    && (forall c :: c in left && c in before ==> now[c] == before[c] && sent[c] == {})
    && (forall c :: c in before && c !in left ==> Served(before[c], now[c], ev, on(c), sent[c]))
  }

  lemma SkippedNext(before: Table, now: Table, sent: map<string, set<string>>, left: set<string>, ev: Event,
                    on: string -> bool, c: string)
    requires ServedBut(before, now, sent, left, ev, on) && c in left && !on(c)
    ensures ServedBut(before, now, sent, left - {c}, ev, on)
  {}

  lemma ServedNext(before: Table, now: Table, sent: map<string, set<string>>, left: set<string>, ev: Event,
                   on: string -> bool, c: string, cmap: map<string, Entry>, got: set<string>)
    requires ServedBut(before, now, sent, left, ev, on) && c in left && c in before
    requires on(c) && Served(before[c], cmap, ev, true, got)
    ensures ServedBut(before, now[c := cmap], sent[c := got], left - {c}, ev, on)
  {}

  function AddCounts(e: Entry, ok: nat, drop: nat): Entry {
    e.(broadcastOk := e.broadcastOk + ok, broadcastDrop := e.broadcastDrop + drop)
  }

  function Counted(e: Entry, accepted: bool): Entry { if accepted then AddCounts(e, 1, 0) else AddCounts(e, 0, 1) }

  /** The entry once FinishSnapshot has taken its buffer. */
  function Taken(e: Entry): Entry { e.(snapshotDone := true, pendingLive := []) }

  /** The entry after its buffer has been flushed, k events accepted. */
  function Flushed(e: Entry, k: nat): Entry
    requires k <= |e.pendingLive|
  {
    AddCounts(Taken(e), k, |e.pendingLive| - k)
  }

  /** The events of s whose acknowledgement is true, in order. */
  function Kept(s: seq<Event>, acks: seq<bool>): (r: seq<Event>)
    requires |s| == |acks|
    ensures |r| <= |s|
  {
    if s == [] then []
    else Kept(s[..|s| - 1], acks[..|s| - 1]) + if acks[|s| - 1] then [s[|s| - 1]] else []
  }

  lemma KeptNext(s: seq<Event>, acks: seq<bool>, ack: bool)
    requires |acks| < |s|
    ensures Kept(s[..|acks| + 1], acks + [ack]) == Kept(s[..|acks|], acks) + if ack then [s[|acks|]] else []
  {
    assert s[..|acks| + 1][..|acks|] == s[..|acks|];
    assert (acks + [ack])[..|acks|] == acks;
  }

  class SubscriptionManager {
    var subs: Table
    var senders: set<string>
    const maxSubsPerConn: int
    const maxSubIdLen: int
    const maxFilters: int

    constructor (maxSubsPerConn: int, maxSubIdLen: int, maxFilters: int)
      ensures subs == map[] && senders == {}
      ensures this.maxSubsPerConn == maxSubsPerConn && this.maxSubIdLen == maxSubIdLen
      ensures this.maxFilters == maxFilters
    {
      subs, senders := map[], {};
      this.maxSubsPerConn, this.maxSubIdLen, this.maxFilters := maxSubsPerConn, maxSubIdLen, maxFilters;
    }

    method RegisterSender(connId: string)
      modifies this`senders
      ensures senders == old(senders) + {connId}
    {
      senders := senders + {connId};
    }

    /** Returns the sub ids that were open, each once. */
    method UnregisterSender(connId: string) returns (ids: seq<string>)
      modifies this
      ensures senders == old(senders) - {connId} && subs == old(subs) - {connId}
      ensures forall s :: s in ids <==> At(old(subs), connId, s).Some?
      ensures forall i, j :: 0 <= i < j < |ids| ==> ids[i] != ids[j]
    {
      var left := if connId in subs then subs[connId].Keys else {};
      senders, subs, ids := senders - {connId}, subs - {connId}, [];
      ghost var all := left;
      while left != {}
        invariant left <= all && forall s :: s in ids <==> s in all && s !in left
        invariant forall i, j :: 0 <= i < j < |ids| ==> ids[i] != ids[j]
        decreases left
      {
        var id :| id in left;
        left, ids := left - {id}, ids + [id];
      }
    }

    /** A sub id already open is replaced whatever the limit; a refused Add changes no entry. */
    method Add(connId: string, subId: string, filters: seq<NFilter>, now: int) returns (r: Result<(), AddError>)
      requires Within(subs, maxSubsPerConn)
      modifies this`subs
      ensures Within(subs, maxSubsPerConn)
      ensures var open := if connId in old(subs) then |old(subs)[connId]| else 0;
        r == if |subId| > maxSubIdLen then Err(SubscriptionIdTooLong)
             else if |filters| > maxFilters then Err(TooManyFilters)
             else if At(old(subs), connId, subId).None? && open >= maxSubsPerConn then Err(TooManySubscriptions)
             else Ok(())
      ensures At(subs, connId, subId) == if r.Ok? then Some(NewEntry(filters, now)) else At(old(subs), connId, subId)
      ensures OnlyAt(old(subs), subs, connId, subId)
    {
      if |subId| > maxSubIdLen { return Err(SubscriptionIdTooLong); }
      if |filters| > maxFilters { return Err(TooManyFilters); }
      if connId !in subs { subs := subs[connId := map[]]; }
      if subId !in subs[connId] && |subs[connId]| >= maxSubsPerConn { return Err(TooManySubscriptions); }
      PutAt(subs, connId, subId, NewEntry(filters, now));
      PutWithin(subs, maxSubsPerConn, connId, subId, NewEntry(filters, now));
      subs := Put(subs, connId, subId, NewEntry(filters, now));
      return Ok(());
    }

    /** Remove in its two sections: first the closed mark, then the deletion. */
    method Remove(connId: string, subId: string)
      modifies this`subs
      ensures At(subs, connId, subId).None?
      ensures OnlyAt(old(subs), subs, connId, subId)
      ensures connId in subs ==> subs[connId] != map[]
    {
      MarkClosed(connId, subId);
      if connId in subs {
        var left := subs[connId] - {subId};
        if left == map[] {
          assert forall k :: k in subs[connId] && k != subId ==> k in left;
          subs := subs - {connId};
        } else {
          subs := subs[connId := left];
        }
      }
    }

    method MarkClosed(connId: string, subId: string)
      modifies this`subs
      ensures var e := At(old(subs), connId, subId);
        At(subs, connId, subId) == if e.Some? then Some(e.value.(closed := true)) else None
      ensures OnlyAt(old(subs), subs, connId, subId)
      ensures subs.Keys == old(subs).Keys
    {
      if connId in subs && subId in subs[connId] {
        subs := Put(subs, connId, subId, subs[connId][subId].(closed := true));
      }
    }

    /** Every wanting entry of a visible connection with a sender is reached once, and no other. */
    method Broadcast(ev: Event, visible: string -> bool) returns (sent: map<string, set<string>>)
      modifies this`subs
      ensures subs.Keys == old(subs).Keys == sent.Keys
      ensures forall c :: c in subs ==> Served(old(subs)[c], subs[c], ev, c in senders && visible(c), sent[c])
    {
      ghost var before := subs;
      ghost var known := senders;
      ghost var on := (c: string) => c in known && visible(c);
      sent := map c | c in subs :: {};
      var left := subs.Keys;
      while left != {}
        invariant left <= before.Keys && ServedBut(before, subs, sent, left, ev, on)
        decreases left
      {
        var c :| c in left;
        left := left - {c};
        assert left + {c} - {c} == left;
        if c !in senders || !visible(c) {
          SkippedNext(before, subs, sent, left + {c}, ev, on, c);
          continue;
        }
        var cmap, got := OfferAll(subs[c], ev);
        ServedNext(before, subs, sent, left + {c}, ev, on, c, cmap, got);
        subs, sent := subs[c := cmap], sent[c := got];
      }
    }

    /** The inner loop of a broadcast, over the entries of one connection. */
    static method OfferAll(before: map<string, Entry>, ev: Event) returns (cmap: map<string, Entry>, sent: set<string>)
      ensures Served(before, cmap, ev, true, sent)
    {
      cmap, sent := before, {};
      var left := cmap.Keys;
      while left != {}
        invariant left <= cmap.Keys == before.Keys && sent <= before.Keys - left
        invariant forall s :: s in left ==> cmap[s] == before[s]
        invariant forall s :: s in before && s !in left ==> Reached(before[s], cmap[s], ev, s in sent)
        decreases left
      {
        var s :| s in left;
        left := left - {s};
        var e := cmap[s];
        if e.closed { continue; }
        var hit := FiltersMatch(e.filters, ev);
        if !hit { continue; }
        var accepted: bool := *;
        cmap := cmap[s := Offer(e, ev, accepted)];
        if e.snapshotDone && accepted { sent := sent + {s}; }
      }
    }

    method SubOpenedUnix(connId: string, subId: string) returns (stamp: int, ok: bool)
      ensures var e := At(subs, connId, subId);
        ok == (e.Some? && !e.value.closed) && stamp == if ok then e.value.openedUnix else 0
    {
      var e := At(subs, connId, subId);
      if e.None? || e.value.closed { return 0, false; }
      return e.value.openedUnix, true;
    }

    method IsSameSnapshot(connId: string, subId: string, openedUnix: int) returns (same: bool)
      ensures var e := At(subs, connId, subId);
        same <==> connId in senders && e.Some? && !e.value.closed && e.value.openedUnix == openedUnix
    {
      if connId !in senders { return false; }
      var e := At(subs, connId, subId);
      if e.None? || e.value.closed { return false; }
      return e.value.openedUnix == openedUnix;
    }

    /** Counts one flushed event on whichever entry holds the sub id now. */
    method NoteFlushed(connId: string, subId: string, accepted: bool)
      modifies this`subs
      ensures OnlyAt(old(subs), subs, connId, subId)
      ensures var e := At(old(subs), connId, subId);
        At(subs, connId, subId) == if e.Some? then Some(Counted(e.value, accepted)) else None
    {
      if connId in subs && subId in subs[connId] {
        var e := Counted(subs[connId][subId], accepted);
        PutAt(subs, connId, subId, e);
        subs := Put(subs, connId, subId, e);
      }
    }

    /** Marks the snapshot done and flushes the buffer: one send per buffered event, in broadcast order. */
    method FinishSnapshot(connId: string, subId: string) returns (acks: seq<bool>)
      modifies this`subs
      ensures OnlyAt(old(subs), subs, connId, subId)
      ensures match At(old(subs), connId, subId) {
        case None => At(subs, connId, subId) == None && acks == []
        case Some(e) =>
          if connId in senders then
            |acks| == |e.pendingLive| &&
            At(subs, connId, subId) == Some(Flushed(e, |Kept(e.pendingLive, acks)|))
          else
            At(subs, connId, subId) == Some(Taken(e)) && acks == []
      }
    {
      acks := [];
      if At(subs, connId, subId).None? { return; }
      var e := subs[connId][subId];
      PutAt(subs, connId, subId, Taken(e));
      subs := Put(subs, connId, subId, Taken(e));
      if connId in senders { acks := Flush(connId, subId, e.pendingLive); }
    }

    method Flush(connId: string, subId: string, pending: seq<Event>) returns (acks: seq<bool>)
      requires At(subs, connId, subId).Some?
      modifies this`subs
      ensures OnlyAt(old(subs), subs, connId, subId)
      ensures |acks| == |pending|
      ensures var k := |Kept(pending, acks)|;
        At(subs, connId, subId) == Some(AddCounts(At(old(subs), connId, subId).value, k, |pending| - k))
    {
      acks := [];
      ghost var e, k := At(subs, connId, subId).value, 0;
      while |acks| < |pending|
        invariant |acks| <= |pending| && k == |Kept(pending[..|acks|], acks)|
        invariant OnlyAt(old(subs), subs, connId, subId)
        invariant At(subs, connId, subId) == Some(AddCounts(e, k, |acks| - k))
      {
        var ack: bool := *;
        NoteFlushed(connId, subId, ack);
        KeptNext(pending, acks, ack);
        acks, k := acks + [ack], k + if ack then 1 else 0;
      }
      assert pending[..|pending|] == pending;
    }
  }

  method FiltersMatch(filters: seq<NFilter>, ev: Event) returns (r: bool)
    ensures r <==> AcceptsAny(filters, ev)
  {
    for i := 0 to |filters|
      invariant forall j :: 0 <= j < i ==> !Accepts(filters[j], ev)
    {
      var hit := Matches(filters[i], ev);
      if hit { return true; }
    }
    return false;
  }
}
