/**
 The subscription protocol over whole runs that obey the rules (internal/relay/subscription.go,
 internal/relay/readqueue.go, internal/relay/nip01.go).
 */
module DeliveryRuns {
  import opened Base
  import opened Runs
  import opened Nostr
  import opened Subscriptions
  import opened Visibility
  import opened Delivery
  import opened DeliveryOrder

  ghost predicate InvOf(sh: Shared, a: Pc, b: Pc, inOrder: bool, counted: bool) {
    var p := PhaseOf(sh.frames, inOrder);
    && Healthy(CoreOf(sh), a, b, p) && Fits(sh, a, b)
    && (inOrder ==> Ahead(sh, a, b, p)) && (counted ==> Books(sh, Inflight(a) + Inflight(b)))
  }

  ghost predicate Inv(s: State, inOrder: bool, counted: bool) {
    InvOf(s.sh, s.loop, s.worker, inOrder, counted) && LoopLike(s.loop) && (s.sh.sender ==> s.world.connected)
  }

  lemma SectionFrames(sh: Shared, pc: Pc, act: Act, sees: bool, connected: bool, inOrder: bool)
    ensures var o := Section(sh, pc, act, sees, connected);
      PhaseOf(o.sh.frames, inOrder) == Then(PhaseOf(sh.frames, inOrder), sh.frames, o.sh.frames, inOrder)
  {
    var o := Section(sh, pc, act, sees, connected);
    if |o.sh.frames| > |sh.frames| {
      assert o.sh.frames[..|o.sh.frames| - 1] == sh.frames;
    }
  }

  lemma SectionKeeps(sh: Shared, pc: Pc, other: Pc, act: Act, sees: bool, connected: bool, inOrder: bool, counted: bool)
    requires InvOf(sh, pc, other, inOrder, counted) && (act.Take? ==> LoopLike(other))
    requires act.Req? && pc.Idle? ==> ReqRule(sh, other) && (counted ==> !other.Counting?)
    ensures var o := Section(sh, pc, act, sees, connected); InvOf(o.sh, o.pc, other, inOrder, counted)
  {
    var p := PhaseOf(sh.frames, inOrder);
    SectionHealthy(sh, pc, other, act, sees, connected, p, inOrder);
    SectionFits(sh, pc, other, act, sees, connected, p);
    SectionFrames(sh, pc, act, sees, connected, inOrder);
    if inOrder { SectionAhead(sh, pc, other, act, sees, connected, p); }
    if counted { SectionBooks(sh, pc, other, act, sees, connected, p); }
  }

  lemma StaysLoopLike(sh: Shared, pc: Pc, act: Act, sees: bool, connected: bool)
    requires LoopLike(pc) && !act.Take?
    ensures LoopLike(Section(sh, pc, act, sees, connected).pc)
  {}

  lemma SenderOnlyGoes(sh: Shared, pc: Pc, act: Act, sees: bool, connected: bool)
    ensures Section(sh, pc, act, sees, connected).sh.sender == sh.sender
  {}

  lemma InvSwaps(sh: Shared, a: Pc, b: Pc, inOrder: bool, counted: bool)
    requires InvOf(sh, a, b, inOrder, counted)
    ensures InvOf(sh, b, a, inOrder, counted)
  {}

  lemma ThreadKeeps(s: State, loop: bool, act: Act, inOrder: bool, counted: bool)
    requires Inv(s, inOrder, counted) && Rule(inOrder, counted)(s, Do(loop, act))
    ensures Inv(Next(s, Do(loop, act)), inOrder, counted)
  {
    if Owns(loop, act) {
      var sees, connected := SeesNext(s, PcOf(s, loop)), s.world.connected;
      SenderOnlyGoes(s.sh, PcOf(s, loop), act, sees, connected);
      if loop {
        SectionKeeps(s.sh, s.loop, s.worker, act, sees, connected, inOrder, counted);
        StaysLoopLike(s.sh, s.loop, act, sees, connected);
      } else {
        InvSwaps(s.sh, s.loop, s.worker, inOrder, counted);
        SectionKeeps(s.sh, s.worker, s.loop, act, sees, connected, inOrder, counted);
        InvSwaps(Next(s, Do(loop, act)).sh, Next(s, Do(loop, act)).worker, s.loop, inOrder, counted);
      }
    }
  }

  lemma FlushFitsGrow(sh: Shared, sh': Shared, pc: Pc)
    requires FlushFits(sh, pc) && sh.offered <= sh'.offered && sh'.cut == sh.cut
    ensures FlushFits(sh', pc)
  {
    if FlushLeft(pc) {
      assert sh'.offered[pc.n..pc.n + |pc.evs|] == sh.offered[pc.n..pc.n + |pc.evs|];
    }
  }

  lemma OfferFits(sh: Shared, a: Pc, b: Pc, ev: Event, sees: bool, ok: bool)
    requires Fits(sh, a, b)
    ensures Fits(Broadcasted(sh, ev, sees, ok), a, b)
  {
    var sh' := Broadcasted(sh, ev, sees, ok);
    FlushFitsGrow(sh, sh', a);
    FlushFitsGrow(sh, sh', b);
  }

  lemma OfferBooks(sh: Shared, inflight: nat, ev: Event, sees: bool, ok: bool)
    requires Books(sh, inflight)
    ensures Books(Broadcasted(sh, ev, sees, ok), inflight)
  {}

  /** A broadcast moves the phase only when it is sent at once, and then only forward. */
  lemma OfferPhase(sh: Shared, ev: Event, sees: bool, ok: bool, inOrder: bool, p: Phase)
    requires p == PhaseOf(sh.frames, inOrder) && (CoreOf(sh).live ==> p.Streaming?)
    requires inOrder && p.Streaming? ==> p.last < |sh.offered|
    ensures var p' := PhaseOf(Broadcasted(sh, ev, sees, ok).frames, inOrder);
      p' == p || (p' == Streaming(|sh.offered|) && p.Streaming? && CoreOf(sh).live)
    ensures CoreOf(Broadcasted(sh, ev, sees, ok)) == CoreOf(sh)
  {
    PhaseNext(sh.frames, Live(ev, |sh.offered|), inOrder);
  }

  /** A thread that fits one streaming phase fits a later one, but for the moment before the buffer is taken. */
  lemma LaterPhase(k: Core, a: Pc, b: Pc, p: Phase, p': Phase)
    requires Healthy(k, a, b, p) && p.Streaming? && p'.Streaming? && k.live
    ensures Healthy(k, a, b, p')
  {}

  lemma OfferAhead(sh: Shared, a: Pc, b: Pc, ev: Event, sees: bool, ok: bool, p: Phase)
    requires p == PhaseOf(sh.frames, true) && (CoreOf(sh).live ==> p.Streaming?) && Ahead(sh, a, b, p)
    requires Offered(sh, ev, sees) && ok && sh.entry.value.snapshotDone ==> !FlushLeft(a) && !FlushLeft(b)
    ensures var sh' := Broadcasted(sh, ev, sees, ok); Ahead(sh', a, b, PhaseOf(sh'.frames, true))
  {
    PhaseNext(sh.frames, Live(ev, |sh.offered|), true);
  }

  lemma OfferKeeps(sh: Shared, a: Pc, b: Pc, ev: Event, sees: bool, ok: bool, inOrder: bool, counted: bool)
    requires InvOf(sh, a, b, inOrder, counted)
    requires inOrder && Offered(sh, ev, sees) && ok && sh.entry.value.snapshotDone ==> !FlushLeft(a) && !FlushLeft(b)
    ensures InvOf(Broadcasted(sh, ev, sees, ok), a, b, inOrder, counted)
  {
    var p, sh' := PhaseOf(sh.frames, inOrder), Broadcasted(sh, ev, sees, ok);
    OfferPhase(sh, ev, sees, ok, inOrder, p);
    OfferFits(sh, a, b, ev, sees, ok);
    if inOrder { OfferAhead(sh, a, b, ev, sees, ok, p); }
    if counted { OfferBooks(sh, Inflight(a) + Inflight(b), ev, sees, ok); }
    if PhaseOf(sh'.frames, inOrder) != p { LaterPhase(CoreOf(sh), a, b, p, PhaseOf(sh'.frames, inOrder)); }
  }

  lemma DisconnectHealthy(k: Core, loop: Pc, worker: Pc, p: Phase)
    requires Healthy(k, Idle, worker, p) && (loop.Idle? || loop.Parting?)
    ensures Healthy(k.(stamp := None, live := false), loop, worker, p)
  {
    OtherFits(k, k.(stamp := None, live := false), worker, p, p);
    RemovedQueue(k, p, Doomed(worker));
  }

  lemma DisconnectKeeps(s: State, inOrder: bool, counted: bool)
    requires Inv(s, inOrder, counted)
    ensures Inv(Next(s, Disconnect), inOrder, counted)
  {
    var t := Next(s, Disconnect);
    if s.loop.Idle? {
      assert CoreOf(t.sh) == CoreOf(s.sh).(stamp := None, live := false);
      DisconnectHealthy(CoreOf(s.sh), t.loop, s.worker, PhaseOf(s.sh.frames, inOrder));
      assert Fits(t.sh, t.loop, t.worker);
    }
  }

  lemma OutsideKeeps(s: State, step: Step, inOrder: bool, counted: bool)
    requires Inv(s, inOrder, counted) && !step.Do? && !step.Broadcast? && !step.Disconnect?
    ensures Inv(Next(s, step), inOrder, counted)
  {
    var sh' := Next(s, step).sh;
    assert CoreOf(sh') == CoreOf(s.sh) && sh'.frames == s.sh.frames;
    assert Fits(sh', s.loop, s.worker) && (counted ==> Books(sh', Inflight(s.loop) + Inflight(s.worker)));
  }

  lemma StepKeeps(s: State, step: Step, inOrder: bool, counted: bool)
    requires Inv(s, inOrder, counted) && Rule(inOrder, counted)(s, step)
    ensures Inv(Next(s, step), inOrder, counted)
  {
    match step {
      case Do(loop, act) => ThreadKeeps(s, loop, act, inOrder, counted);
      case Broadcast(ev, fault, ok) =>
        OfferKeeps(s.sh, s.loop, s.worker, ev, !fault && Sees(s.policy, s.world, ev), ok, inOrder, counted);
      case Disconnect => DisconnectKeeps(s, inOrder, counted);
      case _ => OutsideKeeps(s, step, inOrder, counted);
    }
  }

  lemma {:induction false} RunKeeps(s: State, steps: seq<Step>, inOrder: bool, counted: bool)
    requires Inv(s, inOrder, counted) && Obeys(Next, s, steps, Rule(inOrder, counted))
    ensures Inv(Run(Next, s, steps), inOrder, counted)
    decreases |steps|
  {
    if steps != [] {
      StepKeeps(s, steps[0], inOrder, counted);
      RunKeeps(Next(s, steps[0]), steps[1..], inOrder, counted);
    }
  }

  lemma FreshInv(now: int, log: seq<Event>, policy: Policy, inOrder: bool, counted: bool)
    ensures Inv(Fresh(now, log, policy), inOrder, counted)
  {}

  /**
   Since each REQ: stored events, then one EOSE, then live events, on every path. With inOrder the
   live events also come in broadcast order.
   */
  lemma SnapshotThenEoseThenLive(now: int, log: seq<Event>, policy: Policy, steps: seq<Step>, inOrder: bool)
    requires Obeys(Next, Fresh(now, log, policy), steps, Rule(inOrder, false))
    ensures !PhaseOf(Run(Next, Fresh(now, log, policy), steps).sh.frames, inOrder).Broken?
  {
    FreshInv(now, log, policy, inOrder, false);
    RunKeeps(Fresh(now, log, policy), steps, inOrder, false);
  }

  function InflightOf(s: State): nat { Inflight(s.loop) + Inflight(s.worker) }

  /** How many broadcasts found the buffer still in use. */
  function OfferedWhileBuffering(sh: Shared): nat {
    if sh.entry.Some? && sh.entry.value.snapshotDone then sh.cut else |sh.offered|
  }

  /** Every broadcast offered since the REQ was sent, refused, is waiting or on its way, or was lost to overflow. */
  ghost predicate Accounted(s: State) {
    s.sh.entry.Some? ==>
      var e := s.sh.entry.value;
      && |s.sh.offered| == e.broadcastOk + e.broadcastDrop + |e.pendingLive| + InflightOf(s) + Lost(s.sh)
      && |e.pendingLive| <= 256 && (e.overflow <==> Lost(s.sh) > 0)
      && (Lost(s.sh) > 0 ==> Lost(s.sh) + 256 == OfferedWhileBuffering(s.sh))
  }

  lemma InvAccounts(s: State)
    requires Inv(s, false, true)
    ensures Accounted(s)
  {}

  lemma OfferedIsAccounted(now: int, log: seq<Event>, policy: Policy, steps: seq<Step>)
    requires Obeys(Next, Fresh(now, log, policy), steps, Rule(false, true))
    ensures Accounted(Run(Next, Fresh(now, log, policy), steps))
  {
    FreshInv(now, log, policy, false, true);
    RunKeeps(Fresh(now, log, policy), steps, false, true);
    InvAccounts(Run(Next, Fresh(now, log, policy), steps));
  }

  /** What waits in the buffer or is being flushed is a run of the offered events, in broadcast order. */
  lemma BufferedInBroadcastOrder(now: int, log: seq<Event>, policy: Policy, steps: seq<Step>)
    requires Obeys(Next, Fresh(now, log, policy), steps, Rule(false, false))
    ensures var s := Run(Next, Fresh(now, log, policy), steps);
      && (s.sh.entry.Some? && !s.sh.entry.value.snapshotDone ==> s.sh.entry.value.pendingLive <= s.sh.offered)
      && FlushFits(s.sh, s.loop) && FlushFits(s.sh, s.worker)
  {
    FreshInv(now, log, policy, false, false);
    RunKeeps(Fresh(now, log, policy), steps, false, false);
  }
}
