/**
 The rules of the delivery machine are exact: in every state reached under them, a REQ or a broadcast is safe for the
 order, or for the counters, exactly when the rule allows it (internal/relay/subscription.go,
 internal/relay/readqueue.go).
 */
module DeliveryExact {
  import opened Base
  import opened Runs
  import opened Nostr
  import opened Subscriptions
  import opened Visibility
  import opened Delivery
  import opened DeliveryOrder
  import opened DeliveryRuns

  /** Any step but an accepted REQ. */
  predicate NoReq(s: State, step: Step) { !(step.Do? && step.loop && step.act.Req?) }

  /** Some run without a further REQ leads from s to t. */
  ghost predicate Leads(s: State, t: State) { Reaches(Next, s, t, NoReq) }

  lemma {:induction false} NoReqObeys(s: State, steps: seq<Step>)
    requires Obeys(Next, s, steps, NoReq)
    ensures Obeys(Next, s, steps, Rule(false, false))
    decreases |steps|
  {
    if steps != [] { NoReqObeys(Next(s, steps[0]), steps[1..]); }
  }

  function WithPc(s: State, loop: bool, pc: Pc): State { if loop then s.(loop := pc) else s.(worker := pc) }

  /** One more step of a run without REQ. */
  lemma Goes(s: State, t: State, step: Step) returns (u: State)
    requires Leads(s, t) && NoReq(t, step)
    ensures u == Next(t, step) && Leads(s, u)
  {
    ReachesThen(Next, s, t, NoReq, step);
    u := Next(t, step);
  }

  /** A section of one thread that leaves everything else alone. */
  lemma Moves(s: State, t: State, loop: bool, act: Act, pc: Pc) returns (u: State)
    requires Leads(s, t) && !act.Req? && Owns(loop, act)
    requires forall sees :: Section(t.sh, PcOf(t, loop), act, sees, t.world.connected) == Out(t.sh, pc)
    ensures u == WithPc(t, loop, pc) && Leads(s, u)
  {
    u := Goes(s, t, Do(loop, act));
    assert Section(t.sh, PcOf(t, loop), act, SeesNext(t, PcOf(t, loop)), t.world.connected) == Out(t.sh, pc);
  }

  lemma DrainingToEosing(s: State, t: State, loop: bool) returns (u: State)
    requires Leads(s, t) && PcOf(t, loop) == Draining
    ensures Leads(s, u) && u == WithPc(t, loop, Eosing)
  {
    u := Moves(s, t, loop, Fetch([], false), Paging([], false, FromDrain, false));
    u := Moves(s, u, loop, Turn(true), Eosing);
  }

  lemma PagingToEosing(s: State, t: State, loop: bool) returns (u: State)
    requires Leads(s, t) && PcOf(t, loop).Paging?
    ensures Leads(s, u) && u == WithPc(t, loop, Eosing)
    decreases |PcOf(t, loop).evs|
  {
    var pc := PcOf(t, loop);
    if pc.evs == [] {
      u := Moves(s, t, loop, Turn(true), if pc.more then Draining else Eosing);
      if pc.more { u := DrainingToEosing(s, u, loop); }
    } else {
      var rest := Paging(pc.evs[1..], pc.more, pc.source, false);
      u := Moves(s, t, loop, if pc.cleared then Send(false) else Look(true), rest);
      u := PagingToEosing(s, u, loop);
    }
  }

  /** A thread that still has pages to fetch can come to its EOSE without sending anything before it. */
  lemma ToEosing(s: State, t: State, loop: bool) returns (u: State)
    requires Leads(s, t)
    requires var pc := PcOf(t, loop); pc.First? || pc.Fetching? || pc.Paging? || pc.Draining? || pc.Eosing?
    ensures Leads(s, u) && u == WithPc(t, loop, Eosing)
  {
    var pc := PcOf(t, loop);
    match pc {
      case Draining => u := DrainingToEosing(s, t, loop);
      case Paging(_, _, _, _) => u := PagingToEosing(s, t, loop);
      case Eosing => u := t;
      case First =>
        u := Moves(s, t, loop, Fetch([], false), Paging([], false, FromLoop, false));
        u := PagingToEosing(s, u, loop);
      case Fetching(job) =>
        u := Moves(s, t, loop, Fetch([], false), Paging([], false, FromWorker(job), false));
        u := PagingToEosing(s, u, loop);
    }
  }

  function PhaseNow(s: State): Phase { PhaseOf(s.sh.frames, false) }

  /** Some run without a further REQ sends a frame out of place. */
  ghost predicate Breaks(s: State) { exists u :: Leads(s, u) && PhaseNow(u) == Broken }

  lemma EoseGoes(s: State, t: State, loop: bool) returns (u: State)
    requires Leads(s, t) && PcOf(t, loop) == Eosing
    ensures Leads(s, u) && u == WithPc(t.(sh := t.sh.(frames := t.sh.frames + [Eose])), loop, Finishing)
    ensures PhaseNow(u) == Advance(PhaseNow(t), Eose, false)
  {
    u := Goes(s, t, Do(loop, SendEose(true)));
    PhaseNext(t.sh.frames, Eose, false);
  }

  /** One EOSE from the worker and one from the read loop. */
  lemma TwoEoses(s: State, t: State)
    requires Leads(s, t) && t.loop == First && t.worker == Eosing && PhaseNow(t) == Snapshotting
    ensures Breaks(s)
  {
    var u := EoseGoes(s, t, false);
    u := ToEosing(s, u, true);
    u := EoseGoes(s, u, true);
  }

  lemma PagesBreak(s: State, t: State)
    requires Leads(s, t) && t.loop == First && PhaseNow(t) == Snapshotting
    requires var pc := t.worker; pc.Fetching? || pc.Paging? || pc.Draining? || pc.Eosing? || pc.First?
    ensures Breaks(s)
  {
    var u := ToEosing(s, t, false);
    TwoEoses(s, u);
  }

  /** The worker is past everything but the EOSE of a failed drain. */
  predicate EoseOwed(pc: Pc) {
    match pc
    case Marking(after) => after == ThenFinishAndEose
    case Deleting(after) => after == ThenFinishAndEose
    case Clearing(after) => after == ThenFinishAndEose
    case Flushing(evs, _, after) => evs == [] && after == ThenFinishAndEose
    case Counting(_, evs, _, after) => evs == [] && after == ThenFinishAndEose
    case _ => false
  }

  lemma FlushedBreaks(s: State, t: State)
    requires Leads(s, t) && t.loop == First && PhaseNow(t) == Snapshotting && t.worker.Flushing? && EoseOwed(t.worker)
    ensures Breaks(s)
  {
    var u := Moves(s, t, false, FlushOne(true), Eosing);
    TwoEoses(s, u);
  }

  lemma ClearingBreaks(s: State, t: State)
    requires Leads(s, t) && t.loop == First && PhaseNow(t) == Snapshotting && t.worker == Clearing(ThenFinishAndEose)
    requires t.sh.entry.None?
    ensures Breaks(s)
  {
    var u := Moves(s, t, false, Finish, Flushing([], 0, ThenFinishAndEose));
    FlushedBreaks(s, u);
  }

  lemma DeletingBreaks(s: State, t: State)
    requires Leads(s, t) && t.loop == First && PhaseNow(t) == Snapshotting && t.worker == Deleting(ThenFinishAndEose)
    ensures Breaks(s)
  {
    var u := Goes(s, t, Do(false, Delete));
    ClearingBreaks(s, u);
  }

  lemma OwedBreaks(s: State, t: State)
    requires Leads(s, t) && t.loop == First && PhaseNow(t) == Snapshotting && EoseOwed(t.worker)
    requires t.sh.entry.Some? && t.sh.entry.value.pendingLive == []
    ensures Breaks(s)
  {
    match t.worker {
      case Marking(_) =>
        var u := Goes(s, t, Do(false, Mark));
        DeletingBreaks(s, u);
      case Deleting(_) => DeletingBreaks(s, t);
      case Clearing(_) =>
        var u := Goes(s, t, Do(false, Finish));
        FlushedBreaks(s, u);
      case Flushing(_, _, _) => FlushedBreaks(s, t);
      case Counting(_, _, _, _) =>
        var u := Goes(s, t, Do(false, Count));
        FlushedBreaks(s, u);
    }
  }

  /** A flush goes on into the new snapshot. */
  lemma FlushBreaks(s: State, t: State)
    requires Leads(s, t) && PhaseNow(t) == Snapshotting && t.worker.Flushing? && t.worker.evs != []
    ensures Breaks(s)
  {
    PhaseNext(t.sh.frames, Live(t.worker.evs[0], t.worker.n), false);
    var u := Goes(s, t, Do(false, FlushOne(true)));
  }

  lemma FlushLeftBreaks(s: State, t: State)
    requires Leads(s, t) && PhaseNow(t) == Snapshotting && FlushLeft(t.worker)
    ensures Breaks(s)
  {
    var u := t;
    if t.worker.Counting? { u := Goes(s, t, Do(false, Count)); }
    FlushBreaks(s, u);
  }

  /** Accepts every event. */
  function Everything(): NFilter { NFilter([], [], [], None, None, None, None, map[]) }

  lemma EverythingAccepts(ev: Event)
    ensures AcceptsAny([Everything()], ev)
  {
    assert TrimSpace("") == "";
    assert Accepts([Everything()][0], ev);
  }

  /** A short note: nobody is kept from reading it. */
  function Note(): Event { Event("", "", 0, 1, [], "", "") }

  /** Just after a REQ for everything was added at this second. */
  predicate Opening(s: State, now: int) {
    && s.loop == First && s.sh.sender && s.world.connected && PhaseNow(s) == Snapshotting
    && s.sh.entry.Some? && !s.sh.entry.value.closed && !s.sh.entry.value.snapshotDone
    && s.sh.entry.value.openedUnix == now && s.sh.entry.value.pendingLive == []
    && s.sh.entry.value.filters == [Everything()]
  }

  /** FinishSnapshot of an earlier subscription lets live events into the new snapshot. */
  lemma FinishBreaks(s: State, t: State, now: int)
    requires Leads(s, t) && Opening(t, now) && (t.worker.Finishing? || t.worker.Clearing?)
    ensures Breaks(s)
  {
    var u := Goes(s, t, Do(false, Finish));
    EverythingAccepts(Note());
    assert Wants(u.sh.entry.value, Note()) && Sees(u.policy, u.world, Note());
    PhaseNext(u.sh.frames, Live(Note(), |u.sh.offered|), false);
    u := Goes(s, u, Broadcast(Note(), false, true));
  }

  lemma TakenBreaks(s: State, t: State, now: int)
    requires Leads(s, t) && Opening(t, now) && t.worker.Taken? && t.worker.job.stamp == now
    ensures Breaks(s)
  {
    var u := Moves(s, t, false, Check, Fetching(t.worker.job));
    PagesBreak(s, u);
  }

  predicate StampedNow(sh: Shared, now: int) { exists job :: job in sh.queue && job.stamp == now }

  /** The worker reaches the queued job that passes for the new subscription's. */
  lemma QueueBreaks(s: State, t: State, now: int)
    requires Leads(s, t) && Opening(t, now) && t.worker == Idle && StampedNow(t.sh, now)
    ensures Breaks(s)
    decreases |t.sh.queue|
  {
    var u := Goes(s, t, Do(false, Act.Take));
    if t.sh.queue[0].stamp == now {
      TakenBreaks(s, u, now);
    } else {
      var job :| job in t.sh.queue && job.stamp == now;
      assert job in u.sh.queue;
      u := Moves(s, u, false, Check, Idle);
      QueueBreaks(s, u, now);
    }
  }

  lemma IdleBreaks(s: State, t: State, now: int)
    requires Leads(s, t) && Opening(t, now) && StampedNow(t.sh, now)
    requires t.worker.Idle? || t.worker.Taken? || FlushOver(t.worker)
    ensures Breaks(s)
  {
    match t.worker {
      case Idle => QueueBreaks(s, t, now);
      case Taken(job) =>
        if job.stamp == now {
          TakenBreaks(s, t, now);
        } else {
          var u := Moves(s, t, false, Check, Idle);
          QueueBreaks(s, u, now);
        }
      case Flushing(_, _, _) =>
        var u := Moves(s, t, false, FlushOne(true), Idle);
        QueueBreaks(s, u, now);
      case Counting(_, _, _, _) =>
        var u := Goes(s, t, Do(false, Count));
        u := Moves(s, u, false, FlushOne(true), Idle);
        QueueBreaks(s, u, now);
    }
  }

  /** Where the worker can stand: it answers no client, and removes an entry only to finish its snapshot. */
  predicate WorkerLike(pc: Pc) {
    !pc.First? && !pc.Parting? && ((pc.Marking? || pc.Deleting? || pc.Clearing?) ==> pc.after != Stop)
  }

  /** Outside the rule, every place of the worker leads to a frame out of place. */
  lemma UnruledBreaks(t: State, now: int)
    requires Opening(t, now) && WorkerLike(t.worker) && t.sh.now == now && !ReqRule(t.sh, t.worker)
    ensures Breaks(t)
  {
    ReachesSelf(Next, t, NoReq);
    var pc := t.worker;
    if pc.Fetching? || pc.Paging? || pc.Draining? || pc.Eosing? || pc.First? {
      PagesBreak(t, t);
    } else if EoseOwed(pc) {
      OwedBreaks(t, t);
    } else if FlushLeft(pc) {
      FlushLeftBreaks(t, t);
    } else if pc.Finishing? || pc.Clearing? {
      FinishBreaks(t, t, now);
    } else if pc.Taken? && pc.job.stamp == now {
      TakenBreaks(t, t, now);
    } else {
      IdleBreaks(t, t, now);
    }
  }

  // ---- the theorem ------------------------------------------------------------------------------

  /** A REQ accepted now keeps the order, whatever follows under the rule. */
  ghost predicate ReqKeepsOrder(s: State) {
    forall filters, steps :: Obeys(Next, Next(s, Do(true, Req(filters))), steps, Rule(false, false)) ==>
      PhaseNow(Run(Next, Next(s, Do(true, Req(filters))), steps)) != Broken
  }

  /** A state some run that obeys the rule leads to. */
  ghost predicate Reachable(s: State, inOrder: bool, counted: bool) {
    exists now, log, policy :: Reaches(Next, Fresh(now, log, policy), s, Rule(inOrder, counted))
  }

  lemma StaysWorkerLike(s: State, step: Step)
    requires WorkerLike(s.worker)
    ensures WorkerLike(Next(s, step).worker)
  {}

  lemma {:induction false} RunStaysWorkerLike(s: State, steps: seq<Step>)
    requires WorkerLike(s.worker)
    ensures WorkerLike(Run(Next, s, steps).worker)
    decreases |steps|
  {
    if steps != [] {
      StaysWorkerLike(s, steps[0]);
      RunStaysWorkerLike(Next(s, steps[0]), steps[1..]);
    }
  }

  lemma ReachableInv(s: State, inOrder: bool, counted: bool)
    requires Reachable(s, inOrder, counted)
    ensures Inv(s, inOrder, counted) && WorkerLike(s.worker)
  {
    var rule := Rule(inOrder, counted);
    var now, log, policy :| Reaches(Next, Fresh(now, log, policy), s, rule);
    var start := Fresh(now, log, policy);
    var steps: seq<Step> :| Obeys(Next, start, steps, rule) && Run(Next, start, steps) == s;
    FreshInv(now, log, policy, inOrder, counted);
    RunKeeps(start, steps, inOrder, counted);
    RunStaysWorkerLike(start, steps);
  }

  lemma RuledKeeps(s: State)
    requires Inv(s, false, false) && s.loop.Idle? && ReqRule(s.sh, s.worker)
    ensures ReqKeepsOrder(s)
  {
    forall filters, steps | Obeys(Next, Next(s, Do(true, Req(filters))), steps, Rule(false, false))
      ensures PhaseNow(Run(Next, Next(s, Do(true, Req(filters))), steps)) != Broken
    {
      StepKeeps(s, Do(true, Req(filters)), false, false);
      RunKeeps(Next(s, Do(true, Req(filters))), steps, false, false);
    }
  }

  lemma UnruledFails(s: State)
    requires Inv(s, false, false) && WorkerLike(s.worker)
    requires s.loop.Idle? && s.sh.sender && !ReqRule(s.sh, s.worker)
    ensures !ReqKeepsOrder(s)
  {
    var t := Next(s, Do(true, Req([Everything()])));
    PhaseNext(s.sh.frames, Opened, false);
    UnruledBreaks(t, s.sh.now);
    var u :| Leads(t, u) && PhaseNow(u) == Broken;
    var steps: seq<Step> :| Obeys(Next, t, steps, NoReq) && Run(Next, t, steps) == u;
    NoReqObeys(t, steps);
  }

  /** The rule is exact: in every state reached under it, a REQ is safe for the order exactly if the rule allows it. */
  lemma ReqKeepsOrderIff(s: State)
    requires Reachable(s, false, false) && s.loop.Idle? && s.sh.sender
    ensures ReqKeepsOrder(s) <==> ReqRule(s.sh, s.worker)
  {
    ReachableInv(s, false, false);
    if ReqRule(s.sh, s.worker) { RuledKeeps(s); } else { UnruledFails(s); }
  }

  // ---- broadcasts during a flush ------------------------------------------------------------------

  /** Live events stay in broadcast order after this broadcast, whatever follows under the rule. */
  ghost predicate BroadcastKeepsOrder(s: State, step: Step) {
    forall steps :: Obeys(Next, Next(s, step), steps, Rule(true, false)) ==>
      PhaseOf(Run(Next, Next(s, step), steps).sh.frames, true) != Broken
  }

  lemma DirectPhase(s: State, step: Step)
    requires Inv(s, true, false) && step.Broadcast? && SendsDirectly(s, step)
    ensures PhaseOf(Next(s, step).sh.frames, true) == Streaming(|s.sh.offered|)
    ensures Next(s, step).loop == s.loop && Next(s, step).worker == s.worker
  {
    PhaseNext(s.sh.frames, Live(step.ev, |s.sh.offered|), true);
  }

  ghost predicate CanBreak(t: State) {
    exists steps :: Obeys(Next, t, steps, Rule(true, false)) && PhaseOf(Run(Next, t, steps).sh.frames, true) == Broken
  }

  lemma FlushSendBreaks(t: State, u: State, loop: bool, last: nat)
    requires Reaches(Next, t, u, Rule(true, false)) && PhaseOf(u.sh.frames, true) == Streaming(last)
    requires PcOf(u, loop).Flushing? && FlushLeft(PcOf(u, loop)) && PcOf(u, loop).n < last
    ensures CanBreak(t)
  {
    PhaseNext(u.sh.frames, Live(PcOf(u, loop).evs[0], PcOf(u, loop).n), true);
    ReachesThen(Next, t, u, Rule(true, false), Do(loop, FlushOne(true)));
  }

  lemma FlushLeftSendBreaks(t: State, loop: bool, last: nat)
    requires PhaseOf(t.sh.frames, true) == Streaming(last) && FlushLeft(PcOf(t, loop)) && PcOf(t, loop).n < last
    ensures CanBreak(t)
  {
    ReachesSelf(Next, t, Rule(true, false));
    if PcOf(t, loop).Counting? {
      ReachesThen(Next, t, t, Rule(true, false), Do(loop, Count));
      FlushSendBreaks(t, Next(t, Do(loop, Count)), loop, last);
    } else {
      FlushSendBreaks(t, t, loop, last);
    }
  }

  lemma OvertakenFlushBreaks(s: State, step: Step, loop: bool)
    requires Inv(s, true, false) && step.Broadcast? && SendsDirectly(s, step) && FlushLeft(PcOf(s, loop))
    ensures !BroadcastKeepsOrder(s, step)
  {
    DirectPhase(s, step);
    assert FlushFits(s.sh, PcOf(s, loop));
    FlushLeftSendBreaks(Next(s, step), loop, |s.sh.offered|);
  }

  /** A broadcast disturbs the broadcast order exactly when it is sent at once while a flush has events left. */
  lemma BroadcastKeepsOrderIff(s: State, step: Step)
    requires Reachable(s, true, false) && step.Broadcast?
    ensures BroadcastKeepsOrder(s, step) <==>
      !(SendsDirectly(s, step) && (FlushLeft(s.loop) || FlushLeft(s.worker)))
  {
    ReachableInv(s, true, false);
    if SendsDirectly(s, step) && FlushLeft(s.loop) {
      OvertakenFlushBreaks(s, step, true);
    } else if SendsDirectly(s, step) && FlushLeft(s.worker) {
      OvertakenFlushBreaks(s, step, false);
    } else {
      StepKeeps(s, step, true, false);
      forall steps | Obeys(Next, Next(s, step), steps, Rule(true, false))
        ensures PhaseOf(Run(Next, Next(s, step), steps).sh.frames, true) != Broken
      {
        RunKeeps(Next(s, step), steps, true, false);
      }
    }
  }

  // ---- the counters -------------------------------------------------------------------------------

  /** The books stay right after a REQ accepted now, whatever follows under the rule. */
  ghost predicate ReqKeepsBooks(s: State) {
    forall filters, steps :: Obeys(Next, Next(s, Do(true, Req(filters))), steps, Rule(false, true)) ==>
      Accounted(Run(Next, Next(s, Do(true, Req(filters))), steps))
  }

  lemma UncountedSendMisleads(s: State)
    requires s.loop.Idle? && s.sh.sender && s.worker.Counting?
    ensures !ReqKeepsBooks(s)
  {
    var t := Next(s, Do(true, Req([])));
    ReachesSelf(Next, t, Rule(false, true));
    ReachesThen(Next, t, t, Rule(false, true), Do(false, Count));
    var u := Next(t, Do(false, Count));
    assert u.sh.offered == [] && u.sh.entry.value.broadcastOk + u.sh.entry.value.broadcastDrop == 1;
    assert !Accounted(u);
  }

  /** Of the REQs that keep the order, those keep the books that find no flushed send uncounted. */
  lemma ReqKeepsBooksIff(s: State)
    requires Reachable(s, false, true) && s.loop.Idle? && s.sh.sender && ReqRule(s.sh, s.worker)
    ensures ReqKeepsBooks(s) <==> !s.worker.Counting?
  {
    ReachableInv(s, false, true);
    if s.worker.Counting? {
      UncountedSendMisleads(s);
    } else {
      forall filters, steps | Obeys(Next, Next(s, Do(true, Req(filters))), steps, Rule(false, true))
        ensures Accounted(Run(Next, Next(s, Do(true, Req(filters))), steps))
      {
        StepKeeps(s, Do(true, Req(filters)), false, true);
        RunKeeps(Next(s, Do(true, Req(filters))), steps, false, true);
        InvAccounts(Run(Next, Next(s, Do(true, Req(filters))), steps));
      }
    }
  }

  // ---- the failing inputs are reachable -----------------------------------------------------------

  lemma Continues(s: State, step: Step, inOrder: bool)
    requires Reachable(s, inOrder, false) && Rule(inOrder, false)(s, step)
    ensures Reachable(Next(s, step), inOrder, false)
  {
    var now, log, policy :| Reaches(Next, Fresh(now, log, policy), s, Rule(inOrder, false));
    ReachesThen(Next, Fresh(now, log, policy), s, Rule(inOrder, false), step);
  }

  /** The first REQ of a connection. */
  lemma Opens(now: int, log: seq<Event>, policy: Policy, filters: seq<NFilter>, inOrder: bool) returns (s: State)
    ensures Reachable(s, inOrder, false) && s.loop == First
    ensures s == Fresh(now, log, policy).(sh := s.sh, loop := First) && s.sh.sender && s.sh.now == now
    ensures s.sh.queue == [] && s.sh.inst == 1 && s.sh.entry == Some(NewEntry(filters, now))
  {
    s := Fresh(now, log, policy);
    ReachesSelf(Next, s, Rule(inOrder, false));
    assert s.sh.queue == [] && ReqRule(s.sh, s.worker);
    Continues(s, Do(true, Req(filters)), inOrder);
    s := Next(s, Do(true, Req(filters)));
  }

  /** Its first page was empty, and its job is queued. */
  lemma Queued(now: int, log: seq<Event>, policy: Policy, filters: seq<NFilter>) returns (s: State)
    ensures Reachable(s, false, false)
    ensures s == Fresh(now, log, policy).(sh := s.sh) && s.sh.sender && s.sh.now == now
    ensures s.sh.queue == [Job(now, 1)] && s.sh.entry == Some(NewEntry(filters, now))
  {
    s := Opens(now, log, policy, filters, false);
    Continues(s, Do(true, Fetch([], true)), false);
    s := Next(s, Do(true, Fetch([], true)));
    Continues(s, Do(true, Turn(false)), false);
    s := Next(s, Do(true, Turn(false)));
  }

  /** Replacing a subscription within the second of its own queued job. */
  lemma SameSecondBreaksOrder(now: int, log: seq<Event>, policy: Policy, filters: seq<NFilter>) returns (s: State)
    ensures Reachable(s, false, false) && s.loop.Idle? && s.worker.Idle? && s.sh.sender && s.sh.queue == [Job(now, 1)]
    ensures !ReqKeepsOrder(s)
  {
    s := Queued(now, log, policy, filters);
    assert s.sh.queue[0].stamp == s.sh.now;
    ReqKeepsOrderIff(s);
  }

  /** Replacing it in any later second, while the worker is inside its job. */
  lemma ReplacedInsideJobBreaksOrder(now: int, later: int, log: seq<Event>, policy: Policy, filters: seq<NFilter>)
    returns (s: State)
    ensures Reachable(s, false, false) && s.loop.Idle? && s.worker == Fetching(Job(now, 1)) && s.sh.sender
    ensures s.sh.queue == [] && s.sh.now == later && !ReqKeepsOrder(s)
  {
    s := Queued(now, log, policy, filters);
    Continues(s, Do(false, Act.Take), false);
    s := Next(s, Do(false, Act.Take));
    Continues(s, Do(false, Check), false);
    s := Next(s, Do(false, Check));
    Continues(s, Tick(later), false);
    s := Next(s, Tick(later));
    ReqKeepsOrderIff(s);
  }

  /** A page with nothing on it. */
  lemma Emptied(s: State) returns (t: State)
    requires Reachable(s, true, false) && s.loop == First
    ensures Reachable(t, true, false) && t == s.(loop := Eosing)
  {
    Continues(s, Do(true, Fetch([], false)), true);
    t := Next(s, Do(true, Fetch([], false)));
    Continues(t, Do(true, Turn(false)), true);
    t := Next(t, Do(true, Turn(false)));
  }

  /** Its EOSE, and the buffer taken. */
  lemma Drained(s: State) returns (t: State)
    requires Reachable(s, true, false) && s.loop == Eosing && s.sh.entry.Some? && s.sh.sender
    ensures Reachable(t, true, false) && t == s.(sh := t.sh, loop := t.loop) && t.sh.sender
    ensures t.loop == Flushing(s.sh.entry.value.pendingLive, 0, Stop)
    ensures t.sh.entry == Some(Subscriptions.Taken(s.sh.entry.value)) && t.sh.queue == s.sh.queue
  {
    Continues(s, Do(true, SendEose(true)), true);
    t := Next(s, Do(true, SendEose(true)));
    Continues(t, Do(true, Finish), true);
    t := Next(t, Do(true, Finish));
  }

  /** A broadcast in the middle of a flush is sent ahead of the older event still to be flushed. */
  lemma BroadcastOvertakesFlush(now: int, log: seq<Event>, policy: Policy) returns (s: State)
    ensures Reachable(s, true, false) && s.loop == Flushing([Note()], 0, Stop)
    ensures SendsDirectly(s, Broadcast(Note(), false, true)) && !BroadcastKeepsOrder(s, Broadcast(Note(), false, true))
  {
    s := Opens(now, log, policy, [Everything()], true);
    EverythingAccepts(Note());
    Continues(s, Broadcast(Note(), false, true), true);
    s := Next(s, Broadcast(Note(), false, true));
    assert s.sh.entry.value.pendingLive == [Note()];
    s := Emptied(s);
    s := Drained(s);
    assert Wants(s.sh.entry.value, Note());
    BroadcastKeepsOrderIff(s, Broadcast(Note(), false, true));
  }
}
