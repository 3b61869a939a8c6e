/**
 What each exchange does, from its first section to its last, when nothing comes in between: a REQ, a CLOSE, a
 failed page, a drain, EOSE and flush, a broadcast, a teardown (internal/relay/nip01.go, internal/relay/readqueue.go,
 internal/relay/subscription.go, internal/relay/relay.go).
 */
module DeliveryLaws {
  import opened Base
  import opened Runs
  import opened Nostr
  import opened Subscriptions
  import opened Visibility
  import opened Delivery
  import opened DeliveryClosed
  import EventHistory

  /** The run of one thread through these acts. */
  ghost function Through(s: State, loop: bool, acts: seq<Act>): State
    decreases |acts|
  {
    if acts == [] then s else Through(Next(s, Do(loop, acts[0])), loop, acts[1..])
  }

  lemma ThroughTwo(s: State, loop: bool, a: Act, b: Act)
    ensures Through(s, loop, [a, b]) == Next(Next(s, Do(loop, a)), Do(loop, b))
  {
    assert [a, b][1..] == [b];
    ThroughOne(Next(s, Do(loop, a)), loop, b);
  }

  lemma ThroughOne(s: State, loop: bool, a: Act)
    ensures Through(s, loop, [a]) == Next(s, Do(loop, a))
  {
    assert [a][1..] == [];
  }

  lemma ThroughThree(s: State, loop: bool, a: Act, b: Act, c: Act)
    ensures Through(s, loop, [a, b, c]) == Next(Next(Next(s, Do(loop, a)), Do(loop, b)), Do(loop, c))
  {
    assert [a, b, c][1..] == [b, c];
    ThroughTwo(Next(s, Do(loop, a)), loop, b, c);
  }

  /** This frame more, when the send queue took it. */
  predicate Sent1(before: seq<Frame>, after: seq<Frame>, f: Frame, ok: bool) { after == before + if ok then [f] else [] }

  // ---- REQ and CLOSE --------------------------------------------------------------------------------

  /** An accepted REQ opens a fresh entry, stamped now, with its own filters, whatever was there before. */
  lemma ReqOpensAfresh(s: State, filters: seq<NFilter>)
    requires s.loop.Idle? && s.sh.sender
    ensures var t := Next(s, Do(true, Req(filters)));
      && t.sh.entry == Some(Entry(filters, s.sh.now, false, 0, 0, 0, false, [], false)) && t.loop == First
      && t.sh.frames == s.sh.frames + [Opened] && t.sh.offered == [] && t.sh.queue == s.sh.queue
      && t.worker == s.worker && t.world == s.world
  {}

  /** A CLOSE answers, then takes the entry out of use, and then out of the table. */
  lemma CloseEndsSubscription(s: State, ok: bool)
    requires s.loop.Idle? && s.sh.sender
    ensures var t := Next(Next(s, Do(true, CloseMsg(ok))), Do(true, Mark));
      t.sh.entry.Some? ==> t.sh.entry.value.closed
    ensures var u := Through(s, true, [CloseMsg(ok), Mark, Delete]);
      && u.sh.entry == None && u.loop == Idle && Sent1(s.sh.frames, u.sh.frames, ClosedMsg, ok)
      && u.sh.queue == s.sh.queue && u.sh.offered == s.sh.offered && u.worker == s.worker
  {
    ThroughThree(s, true, CloseMsg(ok), Mark, Delete);
    if !ok { assert s.sh.frames + [] == s.sh.frames; }
  }

  /** An entry marked closed takes no broadcast and lets no job go on. */
  lemma ClosedTakesNothing(s: State, ev: Event, fault: bool, ok: bool)
    requires s.sh.entry.Some? && s.sh.entry.value.closed
    ensures Next(s, Broadcast(ev, fault, ok)) == s
    ensures s.worker.Taken? ==> Next(s, Do(false, Check)) == s.(worker := Idle)
  {}

  // ---- jobs -----------------------------------------------------------------------------------------

  /** Jobs are taken in the order they were queued. */
  lemma JobsInOrder(s: State)
    requires s.worker.Idle? && s.sh.queue != []
    ensures var t := Next(s, Do(false, Act.Take));
      t.worker == Pc.Taken(s.sh.queue[0]) && t.sh == s.sh.(queue := s.sh.queue[1..]) && t.loop == s.loop
  {}

  /** A job goes on exactly for an open entry with its stamp. */
  lemma JobGoesOnIff(s: State)
    requires Sound(s) && s.worker.Taken?
    ensures var t := Next(s, Do(false, Check));
      t.worker == (if s.sh.entry.Some? && !s.sh.entry.value.closed && s.sh.entry.value.openedUnix == s.worker.job.stamp
                   then Fetching(s.worker.job) else Idle) &&
      t == s.(worker := t.worker)
  {}

  // ---- pages that fail ------------------------------------------------------------------------------

  /** A failed first page leaves the entry, and the read loop idle. */
  lemma FirstPageFails(s: State, ok: bool)
    requires s.loop == First
    ensures var t := Next(s, Do(true, FetchFail(ok)));
      t.sh.entry == s.sh.entry && t.loop == Idle && Sent1(s.sh.frames, t.sh.frames, ClosedMsg, ok)
  {
    if !ok { assert s.sh.frames + [] == s.sh.frames; }
  }

  /** A REQ given up during its first page leaves the entry too, and sends nothing more. */
  lemma GivingUpStops(s: State)
    requires s.loop.First? || (s.loop.Paging? && s.loop.source.FromLoop?)
    ensures Next(s, Do(true, GiveUp)) == s.(loop := Idle)
  {}

  /** A removal on the way to FinishSnapshot: the entry is gone, and nothing is flushed. */
  lemma Removes(s: State, loop: bool)
    requires PcOf(s, loop).Marking? && PcOf(s, loop).after != Stop
    ensures var u := Through(s, loop, [Mark, Delete, Finish]);
      && u.sh.entry == None && PcOf(u, loop) == Flushing([], 0, PcOf(s, loop).after) && u.sh.frames == s.sh.frames
      && PcOf(u, !loop) == PcOf(s, !loop) && u.sh.queue == s.sh.queue
  {
    ThroughThree(s, loop, Mark, Delete, Finish);
  }

  /** A failed page of the worker ends the subscription, and sends nothing more. */
  lemma WorkerPageFails(s: State, ok: bool)
    requires s.worker.Fetching?
    ensures var t := Next(s, Do(false, FetchFail(ok)));
      var u := Next(Through(t, false, [Mark, Delete, Finish]), Do(false, FlushOne(true)));
      && u.sh.entry == None && u.worker == Idle && u.loop == s.loop && Sent1(s.sh.frames, u.sh.frames, ClosedMsg, ok)
  {
    var t := Next(s, Do(false, FetchFail(ok)));
    WorkerCloses(s, ok);
    Removes(t, false);
    NothingToFlush(Through(t, false, [Mark, Delete, Finish]), false);
  }

  lemma WorkerCloses(s: State, ok: bool)
    requires s.worker.Fetching?
    ensures var t := Next(s, Do(false, FetchFail(ok)));
      t.worker == Marking(ThenFinish) && t.loop == s.loop && Sent1(s.sh.frames, t.sh.frames, ClosedMsg, ok)
  {
    if !ok { assert s.sh.frames + [] == s.sh.frames; }
  }

  /** A failed drain ends the subscription too, and then comes to the EOSE it owes. */
  lemma DrainFails(s: State, loop: bool, ok: bool)
    requires PcOf(s, loop) == Draining
    ensures var t := Next(s, Do(loop, FetchFail(ok)));
      var u := Next(Through(t, loop, [Mark, Delete, Finish]), Do(loop, FlushOne(true)));
      && u.sh.entry == None && PcOf(u, loop) == Eosing && Sent1(s.sh.frames, u.sh.frames, ClosedMsg, ok)
  {
    var t := Next(s, Do(loop, FetchFail(ok)));
    DrainCloses(s, loop, ok);
    Removes(t, loop);
    NothingToFlush(Through(t, loop, [Mark, Delete, Finish]), loop);
  }

  lemma DrainCloses(s: State, loop: bool, ok: bool)
    requires PcOf(s, loop) == Draining
    ensures var t := Next(s, Do(loop, FetchFail(ok)));
      PcOf(t, loop) == Marking(ThenFinishAndEose) && Sent1(s.sh.frames, t.sh.frames, ClosedMsg, ok)
  {
    if !ok { assert s.sh.frames + [] == s.sh.frames; }
  }

  lemma NothingToFlush(s: State, loop: bool)
    requires PcOf(s, loop).Flushing? && PcOf(s, loop).evs == []
    ensures var t := Next(s, Do(loop, FlushOne(true)));
      t.sh == s.sh && PcOf(t, !loop) == PcOf(s, !loop) &&
      PcOf(t, loop) == if PcOf(s, loop).after == ThenFinishAndEose then Eosing else Idle
  {}

  // ---- EOSE, flush and live events --------------------------------------------------------------------

  /** A page that says there is more is not the last: its job is queued, or its thread goes on draining. */
  lemma PageTurns(s: State, loop: bool, full: bool)
    requires PcOf(s, loop).Paging? && PcOf(s, loop).evs == []
    ensures var pc, t := PcOf(s, loop), Next(s, Do(loop, Turn(full)));
      && t.sh.frames == s.sh.frames && t.sh.entry == s.sh.entry
      && (!pc.more ==> PcOf(t, loop) == Eosing && t.sh == s.sh)
      && (pc.more && (full || pc.source.FromDrain?) ==> PcOf(t, loop) == Draining && t.sh == s.sh)
      && (pc.more && !full && !pc.source.FromDrain? ==> PcOf(t, loop) == Idle && |t.sh.queue| == |s.sh.queue| + 1)
      && (pc.more && !full && pc.source.FromWorker? ==> t.sh.queue == s.sh.queue + [pc.source.job])
      && (pc.more && !full && pc.source.FromLoop? && s.sh.entry.Some? && !s.sh.entry.value.closed ==>
           t.sh.queue == s.sh.queue + [Job(s.sh.entry.value.openedUnix, s.sh.inst)])
  {}

  /** After EOSE the entry is live, and what was buffered is on its way in the order it came. */
  lemma EoseStartsFlush(s: State, loop: bool)
    requires PcOf(s, loop) == Eosing && s.sh.entry.Some? && s.sh.sender
    ensures var u := Through(s, loop, [SendEose(true), Finish]);
      && u.sh.frames == s.sh.frames + [Eose] && PcOf(u, loop) == Flushing(s.sh.entry.value.pendingLive, 0, Stop)
      && u.sh.entry == Some(s.sh.entry.value.(snapshotDone := true, pendingLive := []))
  {
    ThroughTwo(s, loop, SendEose(true), Finish);
  }

  /** A refused EOSE ends the thread's work, and the entry buffers on. */
  lemma RefusedEoseStops(s: State, loop: bool)
    requires PcOf(s, loop) == Eosing
    ensures var t := Next(s, Do(loop, SendEose(false))); t.sh == s.sh && PcOf(t, loop) == Idle
  {}

  /** Each buffered event is sent and counted once: with the accepted, or with the dropped. */
  lemma FlushCountsOne(s: State, loop: bool, ok: bool)
    requires PcOf(s, loop).Flushing? && PcOf(s, loop).evs != [] && s.sh.entry.Some?
    ensures var pc, u := PcOf(s, loop), Through(s, loop, [FlushOne(ok), Count]);
      && Sent1(s.sh.frames, u.sh.frames, Live(pc.evs[0], pc.n), ok)
      && PcOf(u, loop) == Flushing(pc.evs[1..], pc.n + 1, pc.after)
      && u.sh.entry == Some(s.sh.entry.value.(
           broadcastOk := s.sh.entry.value.broadcastOk + (if ok then 1 else 0),
           broadcastDrop := s.sh.entry.value.broadcastDrop + (if ok then 0 else 1)))
  {
    ThroughTwo(s, loop, FlushOne(ok), Count);
    if !ok { assert s.sh.frames + [] == s.sh.frames; }
  }

  /** A broadcast the connection may see and the entry wants is sent at once and counted, or buffered, or lost. */
  lemma BroadcastReaches(s: State, ev: Event, ok: bool)
    requires Sound(s) && s.sh.entry.Some? && !s.sh.entry.value.closed && Sees(s.policy, s.world, ev)
    requires AcceptsAny(s.sh.entry.value.filters, ev)
    ensures var e, t := s.sh.entry.value, Next(s, Broadcast(ev, false, ok));
      && t.sh.offered == s.sh.offered + [ev] && t.loop == s.loop && t.worker == s.worker && t.sh.entry.Some?
      && (e.snapshotDone ==>
           Sent1(s.sh.frames, t.sh.frames, Live(ev, |s.sh.offered|), ok) &&
           t.sh.entry.value == e.(broadcastOk := e.broadcastOk + (if ok then 1 else 0),
                                  broadcastDrop := e.broadcastDrop + (if ok then 0 else 1)))
      && (!e.snapshotDone ==>
           t.sh.frames == s.sh.frames &&
           t.sh.entry.value ==
             if |e.pendingLive| < 256 then e.(pendingLive := e.pendingLive + [ev]) else e.(overflow := true))
  {
    if !ok { assert s.sh.frames + [] == s.sh.frames; }
  }

  /** Any other broadcast changes nothing. */
  lemma OtherBroadcastsPass(s: State, ev: Event, fault: bool, ok: bool)
    requires s.sh.entry.None? || fault || !Sees(s.policy, s.world, ev) || !AcceptsAny(s.sh.entry.value.filters, ev)
    ensures Next(s, Broadcast(ev, fault, ok)) == s
  {}

  // ---- teardown and the world -------------------------------------------------------------------------

  /** A teardown drops entry and sender, and then owes the client a CLOSED exactly if there was an entry. */
  lemma TeardownEndsSubscription(s: State, ok: bool)
    requires s.loop.Idle?
    ensures var t := Next(s, Disconnect);
      t.sh.entry == None && !t.sh.sender && t.sh.frames == s.sh.frames && t.worker == s.worker
    ensures var u := Next(Next(s, Disconnect), Do(true, Part(ok)));
      u.loop == Idle && Sent1(s.sh.frames, u.sh.frames, ClosedMsg, ok && s.sh.entry.Some?)
    ensures var v := Next(Next(Next(s, Disconnect), Do(true, Part(ok))), Forget); !v.world.connected
  {
    assert s.sh.frames + [] == s.sh.frames;
  }

  /** Store, authentication and clock move on by themselves. */
  lemma WorldMoves(s: State, op: EventHistory.Op, pk: string, now: int)
    ensures Next(s, StoreOp(op)) == s.(world := s.world.(log := EventHistory.After(s.world.log, op, true)))
    ensures s.sh.sender ==> Next(s, Auth(pk)) == s.(world := s.world.(authed := s.world.authed + {pk}))
    ensures Next(s, Tick(now)) == s.(sh := s.sh.(now := now))
  {}
}
