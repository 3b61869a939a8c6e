/**
 What was checked before a frame was sent: in every run, each event a subscription gets was found visible for
 that very send (internal/relay/readqueue.go, internal/relay/nip01.go, internal/relay/subscription.go).
 */
module DeliverySeen {
  import opened Base
  import opened Runs
  import opened Nostr
  import opened Subscriptions
  import opened Visibility
  import opened Delivery
  import opened DeliveryOrder

  /** A run from a connection's first moment; no rule restricts it. */
  datatype Course = Course(now: int, log: seq<Event>, policy: Policy, steps: seq<Step>)

  /** The state before step m. */
  ghost function At(c: Course, m: nat): State
    requires m <= |c.steps|
  {
    Run(Next, Fresh(c.now, c.log, c.policy), c.steps[..m])
  }

  lemma AtNext(c: Course, m: nat)
    requires m < |c.steps|
    ensures At(c, m + 1) == Next(At(c, m), c.steps[m])
  {
    assert c.steps[..m + 1] == c.steps[..m] + [c.steps[m]];
    RunThen(Next, Fresh(c.now, c.log, c.policy), c.steps[..m], c.steps[m]);
  }

  lemma {:induction false} PolicyStays(c: Course, m: nat)
    requires m <= |c.steps|
    ensures At(c, m).policy == c.policy
  {
    if m > 0 {
      PolicyStays(c, m - 1);
      AtNext(c, m - 1);
    }
  }

  /** Step m sends this frame. */
  ghost predicate Sends(c: Course, m: nat, f: Frame) {
    m < |c.steps| && At(c, m + 1).sh.frames == At(c, m).sh.frames + [f]
  }

  // ---- stored events ------------------------------------------------------------------------------

  predicate Ready(pc: Pc) { pc.Paging? && pc.evs != [] && pc.cleared }

  /** At step n this thread's check found ev, next on its page, visible; it has done nothing else before m. */
  ghost predicate CheckedFor(c: Course, who: bool, n: nat, m: nat, ev: Event) {
    && n < m <= |c.steps| && c.steps[n] == Do(who, Look(false)) && Sees(c.policy, At(c, n).world, ev)
    && (forall j :: n < j <= m ==> PcOf(At(c, j), who) == PcOf(At(c, m), who))
  }

  lemma ReadySection(sh: Shared, pc: Pc, act: Act, sees: bool, connected: bool)
    requires Ready(Section(sh, pc, act, sees, connected).pc)
    ensures var pc' := Section(sh, pc, act, sees, connected).pc;
      pc' == pc || (act == Look(false) && sees && pc.Paging? && pc.evs == pc'.evs)
  {}

  /** A thread becomes ready to send only by a check that found the event visible. */
  lemma ReadyStep(s: State, step: Step, who: bool)
    requires Ready(PcOf(Next(s, step), who))
    ensures PcOf(Next(s, step), who) == PcOf(s, who) ||
      (step == Do(who, Look(false)) && Sees(s.policy, s.world, PcOf(Next(s, step), who).evs[0]))
  {
    if step.Do? && step.loop == who && Owns(who, step.act) {
      ReadySection(s.sh, PcOf(s, who), step.act, SeesNext(s, PcOf(s, who)), s.world.connected);
    }
  }

  lemma {:induction false} ReadyWasChecked(c: Course, who: bool, m: nat) returns (n: nat)
    requires m <= |c.steps| && Ready(PcOf(At(c, m), who))
    ensures CheckedFor(c, who, n, m, PcOf(At(c, m), who).evs[0])
    decreases m
  {
    if m == 0 {
      assert false;
    } else {
      AtNext(c, m - 1);
      PolicyStays(c, m - 1);
      ReadyStep(At(c, m - 1), c.steps[m - 1], who);
      if PcOf(At(c, m), who) == PcOf(At(c, m - 1), who) {
        n := ReadyWasChecked(c, who, m - 1);
      } else {
        n := m - 1;
      }
    }
  }

  lemma SnapComesFrom(s: State, step: Step, ev: Event)
    requires Next(s, step).sh.frames == s.sh.frames + [Snap(ev)]
    ensures step.Do? && step.act == Send(true) && Ready(PcOf(s, step.loop)) && PcOf(s, step.loop).evs[0] == ev
  {
    assert Next(s, step).sh.frames[|s.sh.frames|] == Snap(ev);
  }

  /** A visible event of a private group: some pubkey authenticated on the connection was a member. */
  lemma SeenInPrivateGroup(p: Policy, w: Moment, ev: Event)
    requires Sees(p, w, ev) && !IsGiftWrap(p, ev) && PrivateFor(p, w.log, ev)
    ensures w.connected && SomeMember(w.log, p.relay, GroupHTag(ev.tags), w.authed)
  {}

  /**
   A stored event is sent by a thread that has found it visible for this send: since that check it did nothing
   else. In a group that was private then, an authenticated pubkey was a member.
   */
  lemma StoredEventWasSeen(c: Course, m: nat, ev: Event) returns (who: bool, n: nat)
    requires Sends(c, m, Snap(ev))
    ensures c.steps[m] == Do(who, Send(true)) && CheckedFor(c, who, n, m, ev)
    ensures PrivateFor(c.policy, At(c, n).world.log, ev) && !IsGiftWrap(c.policy, ev) ==>
      SomeMember(At(c, n).world.log, c.policy.relay, GroupHTag(ev.tags), At(c, n).world.authed)
  {
    AtNext(c, m);
    SnapComesFrom(At(c, m), c.steps[m], ev);
    who := c.steps[m].loop;
    n := ReadyWasChecked(c, who, m);
    if PrivateFor(c.policy, At(c, n).world.log, ev) && !IsGiftWrap(c.policy, ev) {
      SeenInPrivateGroup(c.policy, At(c, n).world, ev);
    }
  }

  lemma SendMovesOn(s: State, who: bool, ev: Event)
    requires Next(s, Do(who, Send(true))).sh.frames == s.sh.frames + [Snap(ev)]
    ensures PcOf(Next(s, Do(who, Send(true))), who) != PcOf(s, who)
  {
    SnapComesFrom(s, Do(who, Send(true)), ev);
    assert |PcOf(Next(s, Do(who, Send(true))), who).evs| < |PcOf(s, who).evs|;
  }

  /** No check serves two sends. */
  lemma OneCheckOneSend(c: Course, who: bool, n: nat, m: nat, ev: Event, m': nat, ev': Event)
    requires Sends(c, m, Snap(ev)) && c.steps[m] == Do(who, Send(true)) && CheckedFor(c, who, n, m, ev)
    requires Sends(c, m', Snap(ev')) && c.steps[m'] == Do(who, Send(true)) && CheckedFor(c, who, n, m', ev')
    ensures m == m'
  {
    AtNext(c, m);
    AtNext(c, m');
    SendMovesOn(At(c, m), who, ev);
    SendMovesOn(At(c, m'), who, ev');
  }

  // ---- live events --------------------------------------------------------------------------------

  /** Step b is a broadcast of ev that found it visible, and offered it as the i-th since the REQ. */
  ghost predicate OfferedAt(c: Course, b: nat, ev: Event, i: nat) {
    && b < |c.steps| && c.steps[b].Broadcast? && c.steps[b].ev == ev && |At(c, b).sh.offered| == i
    && Sees(c.policy, At(c, b).world, ev)
  }

  /** The offers made before step m. */
  ghost function OffersBefore(c: Course, m: nat): (Event, nat) -> bool {
    (ev: Event, i: nat) => exists b: nat :: b < m && OfferedAt(c, b, ev, i)
  }

  ghost predicate FlushKnown(pc: Pc, offers: (Event, nat) -> bool) {
    FlushLeft(pc) ==> forall j :: 0 <= j < |pc.evs| ==> offers(pc.evs[j], pc.n + j)
  }

  ghost predicate BufferKnown(sh: Shared, offers: (Event, nat) -> bool) {
    sh.entry.Some? ==>
      var e := sh.entry.value;
      && (forall j :: 0 <= j < |e.pendingLive| ==> offers(e.pendingLive[j], j))
      && |e.pendingLive| == if e.snapshotDone then 0 else Held(|sh.offered|)
  }

  /** Whatever waits to be sent live was offered. */
  ghost predicate Known(s: State, offers: (Event, nat) -> bool) {
    BufferKnown(s.sh, offers) && FlushKnown(s.loop, offers) && FlushKnown(s.worker, offers)
  }

  lemma FinishKnown(sh: Shared, pc: Pc, offers: (Event, nat) -> bool)
    requires BufferKnown(sh, offers) && FlushKnown(pc, offers)
    ensures var o := Finished(sh, pc); BufferKnown(o.sh, offers) && FlushKnown(o.pc, offers)
  {}

  lemma FlushOneKnown(sh: Shared, pc: Pc, ok: bool, offers: (Event, nat) -> bool)
    requires BufferKnown(sh, offers) && FlushKnown(pc, offers)
    ensures var o := FlushedOne(sh, pc, ok); BufferKnown(o.sh, offers) && FlushKnown(o.pc, offers)
    ensures var o := CountedOne(sh, pc); BufferKnown(o.sh, offers) && FlushKnown(o.pc, offers)
  {}

  lemma RemoveKnown(sh: Shared, pc: Pc, offers: (Event, nat) -> bool)
    requires BufferKnown(sh, offers) && FlushKnown(pc, offers)
    ensures var o := Marked(sh, pc); BufferKnown(o.sh, offers) && FlushKnown(o.pc, offers)
    ensures var o := Deleted(sh, pc); BufferKnown(o.sh, offers) && FlushKnown(o.pc, offers)
  {}

  lemma SectionKnown(sh: Shared, pc: Pc, act: Act, sees: bool, connected: bool, offers: (Event, nat) -> bool)
    requires BufferKnown(sh, offers) && FlushKnown(pc, offers)
    ensures var o := Section(sh, pc, act, sees, connected); BufferKnown(o.sh, offers) && FlushKnown(o.pc, offers)
  {
    match act {
      case Req(_) =>
      case Finish => FinishKnown(sh, pc, offers);
      case FlushOne(ok) => FlushOneKnown(sh, pc, ok, offers);
      case Count => FlushOneKnown(sh, pc, true, offers);
      case Mark => RemoveKnown(sh, pc, offers);
      case Delete => RemoveKnown(sh, pc, offers);
      case _ => OtherActs(sh, pc, act, sees, connected);
    }
  }

  lemma StepKnown(s: State, step: Step, offers: (Event, nat) -> bool)
    requires Known(s, offers)
    requires step.Broadcast? && Sees(s.policy, s.world, step.ev) ==> offers(step.ev, |s.sh.offered|)
    ensures Known(Next(s, step), offers)
  {
    match step {
      case Do(loop, act) =>
        SectionKnown(s.sh, PcOf(s, loop), act, SeesNext(s, PcOf(s, loop)), s.world.connected, offers);
      case _ =>
    }
  }

  lemma KnownMore(s: State, fewer: (Event, nat) -> bool, more: (Event, nat) -> bool)
    requires Known(s, fewer) && forall ev, i :: fewer(ev, i) ==> more(ev, i)
    ensures Known(s, more)
  {}

  lemma OffersGrow(c: Course, m: nat)
    requires m < |c.steps|
    ensures forall ev, i :: OffersBefore(c, m)(ev, i) ==> OffersBefore(c, m + 1)(ev, i)
    ensures c.steps[m].Broadcast? && Sees(c.policy, At(c, m).world, c.steps[m].ev) ==>
      OffersBefore(c, m + 1)(c.steps[m].ev, |At(c, m).sh.offered|)
  {
    if c.steps[m].Broadcast? && Sees(c.policy, At(c, m).world, c.steps[m].ev) {
      assert OfferedAt(c, m, c.steps[m].ev, |At(c, m).sh.offered|);
    }
  }

  lemma {:induction false} WaitingWasOffered(c: Course, m: nat)
    requires m <= |c.steps|
    ensures Known(At(c, m), OffersBefore(c, m))
    decreases m
  {
    if m > 0 {
      WaitingWasOffered(c, m - 1);
      AtNext(c, m - 1);
      PolicyStays(c, m - 1);
      OffersGrow(c, m - 1);
      KnownMore(At(c, m - 1), OffersBefore(c, m - 1), OffersBefore(c, m));
      StepKnown(At(c, m - 1), c.steps[m - 1], OffersBefore(c, m));
    }
  }

  lemma LiveComesFrom(s: State, step: Step, ev: Event, i: nat)
    requires Next(s, step).sh.frames == s.sh.frames + [Live(ev, i)]
    ensures
      (step.Broadcast? && step.ev == ev && |s.sh.offered| == i && Sees(s.policy, s.world, ev)) ||
      (step.Do? && step.act == FlushOne(true) && PcOf(s, step.loop).Flushing? && PcOf(s, step.loop).evs != [] &&
        PcOf(s, step.loop).evs[0] == ev && PcOf(s, step.loop).n == i)
  {
    assert Next(s, step).sh.frames[|s.sh.frames|] == Live(ev, i);
  }

  /**
   A live event was found visible by the broadcast that offered it, at once or before it was buffered. In a
   group that was private then, an authenticated pubkey was a member.
   */
  lemma LiveEventWasSeen(c: Course, m: nat, ev: Event, i: nat) returns (b: nat)
    requires Sends(c, m, Live(ev, i))
    ensures b <= m && OfferedAt(c, b, ev, i) && (c.steps[m].Broadcast? ==> b == m)
    ensures PrivateFor(c.policy, At(c, b).world.log, ev) && !IsGiftWrap(c.policy, ev) ==>
      SomeMember(At(c, b).world.log, c.policy.relay, GroupHTag(ev.tags), At(c, b).world.authed)
  {
    AtNext(c, m);
    PolicyStays(c, m);
    LiveComesFrom(At(c, m), c.steps[m], ev, i);
    if c.steps[m].Broadcast? {
      b := m;
    } else {
      WaitingWasOffered(c, m);
      var pc := PcOf(At(c, m), c.steps[m].loop);
      assert OffersBefore(c, m)(pc.evs[0], pc.n + 0);
      b :| b < m && OfferedAt(c, b, ev, i);
    }
    if PrivateFor(c.policy, At(c, b).world.log, ev) && !IsGiftWrap(c.policy, ev) {
      SeenInPrivateGroup(c.policy, At(c, b).world, ev);
    }
  }
}
