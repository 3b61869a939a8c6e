/**
 The order of one subscription's frames: what every step keeps of it, and the books of what was
 offered (internal/relay/subscription.go, internal/relay/readqueue.go, internal/relay/nip01.go).
 */
module DeliveryOrder {
  import opened Base
  import opened Nostr
  import opened Subscriptions
  import opened Delivery

  // ---- the order a client may rely on ---------------------------------------------------------

  /** last: the place of the newest live event sent since EOSE, -1 when there is none. */
  datatype Phase = NoSub | Snapshotting | Streaming(last: int) | Broken

  /** inOrder also asks that live events come in broadcast order. */
  function Advance(p: Phase, f: Frame, inOrder: bool): Phase {
    match f
    case Opened => if p.Broken? then Broken else Snapshotting
    case Snap(_) => if p.Snapshotting? then p else Broken
    case Eose => if p.Snapshotting? then Streaming(-1) else Broken
    case Live(_, n) => if p.Streaming? && (inOrder ==> p.last < n) then Streaming(n) else Broken
    case ClosedMsg => p
  }

  /** Where a client stands after these frames; Broken once any frame came out of place. */
  function PhaseOf(frames: seq<Frame>, inOrder: bool): Phase {
    if frames == [] then NoSub
    else Advance(PhaseOf(frames[..|frames| - 1], inOrder), frames[|frames| - 1], inOrder)
  }

  lemma PhaseNext(frames: seq<Frame>, f: Frame, inOrder: bool)
    ensures PhaseOf(frames + [f], inOrder) == Advance(PhaseOf(frames, inOrder), f, inOrder)
  {
    assert (frames + [f])[..|frames|] == frames;
  }

  // ---- the rules a run obeys ------------------------------------------------------------------

  /** About to remove the entry of the sub id, whoever's it is, and then to stop. */
  predicate Doomed(pc: Pc) { (pc.Marking? || pc.Deleting?) && pc.after == ThenFinish }

  /** At the end of a flush, with nothing more to send. */
  predicate FlushOver(pc: Pc) {
    (pc.Flushing? || pc.Counting?) && pc.evs == [] && pc.after != ThenFinishAndEose
  }

  /**
   When a REQ is added: the worker is about to remove the entry; or no queued job bears the second the
   REQ is stamped with, and the worker is not inside a job of the sub id, or has nothing left to send for it.
   */
  predicate ReqRule(sh: Shared, worker: Pc) {
    Doomed(worker) ||
    ((forall i :: 0 <= i < |sh.queue| ==> sh.queue[i].stamp != sh.now) &&
     (worker.Idle? || (worker.Taken? && worker.job.stamp != sh.now) || FlushOver(worker)))
  }

  predicate FlushLeft(pc: Pc) { (pc.Flushing? || pc.Counting?) && pc.evs != [] }

  /** The step sends a broadcast at once, past the buffer. */
  ghost predicate SendsDirectly(s: State, step: Step) {
    step.Broadcast? && step.ok && Offered(s.sh, step.ev, !step.fault && Visibility.Sees(s.policy, s.world, step.ev)) &&
    s.sh.entry.value.snapshotDone
  }

  /**
   inOrder: also, no broadcast is sent at once while a flush has events left. counted: also, no REQ is
   added between a flushed send and its count.
   */
  ghost function Rule(inOrder: bool, counted: bool): (State, Step) -> bool {
    (s: State, step: Step) =>
      (step.Do? && step.loop && step.act.Req? && s.loop.Idle? ==>
        ReqRule(s.sh, s.worker) && (counted ==> !s.worker.Counting?)) &&
      (inOrder && SendsDirectly(s, step) ==> !FlushLeft(s.loop) && !FlushLeft(s.worker))
  }

  // ---- the invariant: threads, queue and phase --------------------------------------------------

  /** What the order depends on: whether there is an entry, its stamp, whether it is live, and the jobs. */
  datatype Core = Core(stamp: Option<int>, live: bool, queue: seq<Job>, inst: nat)

  function CoreOf(sh: Shared): Core {
    match sh.entry
    case None => Core(None, false, sh.queue, sh.inst)
    case Some(e) => Core(Some(e.openedUnix), e.snapshotDone, sh.queue, sh.inst)
  }

  /** The thread may yet send a frame of the current subscription. */
  predicate Busy(k: Core, pc: Pc) {
    match pc
    case Idle => false
    case Parting => false
    case Taken(job) => job.inst == k.inst
    case Marking(after) => after == ThenFinishAndEose
    case Deleting(after) => after == ThenFinishAndEose
    case Clearing(after) => after == ThenFinishAndEose
    case Flushing(evs, _, after) => evs != [] || after == ThenFinishAndEose
    case Counting(_, evs, _, after) => evs != [] || after == ThenFinishAndEose
    case _ => true
  }

  /** A job of an earlier REQ does not pass for the current one. */
  predicate JobFits(k: Core, job: Job) {
    job.inst <= k.inst && (job.inst < k.inst ==> k.stamp != Some(job.stamp))
  }

  /** Where the read loop can stand: it never takes jobs. */
  predicate LoopLike(pc: Pc) {
    match pc
    case Taken(_) => false
    case Fetching(_) => false
    case Paging(_, _, source, _) => !source.FromWorker?
    case Marking(after) => after != ThenFinish
    case Deleting(after) => after != ThenFinish
    case Clearing(after) => after == ThenFinishAndEose
    case Flushing(_, _, after) => after != ThenFinish
    case Counting(_, _, _, after) => after != ThenFinish
    case _ => true
  }

  predicate FlushPhase(evs: seq<Event>, after: After, p: Phase) {
    (evs != [] ==> p.Streaming? && after == Stop) && (after == ThenFinishAndEose ==> p.Snapshotting?)
  }

  predicate PcFits(k: Core, pc: Pc, p: Phase) {
    match pc
    case Idle => true
    case Parting => true
    case Taken(job) => JobFits(k, job) && (job.inst == k.inst ==> p.Snapshotting?)
    case First => p.Snapshotting?
    case Fetching(job) => p.Snapshotting? && job.inst == k.inst
    case Paging(_, _, source, _) => p.Snapshotting? && (source.FromWorker? ==> source.job.inst == k.inst)
    case Draining => p.Snapshotting?
    case Marking(after) => after == ThenFinishAndEose ==> p.Snapshotting?
    case Deleting(after) => after == ThenFinishAndEose ==> p.Snapshotting?
    case Clearing(after) => k.stamp.None? && after != Stop && (after == ThenFinishAndEose ==> p.Snapshotting?)
    case Eosing => p.Snapshotting?
    case Finishing => p == Streaming(-1) && !k.live
    case Flushing(evs, _, after) => FlushPhase(evs, after, p)
    case Counting(_, evs, _, after) => FlushPhase(evs, after, p)
  }

  predicate HasJob(k: Core) { exists i :: 0 <= i < |k.queue| && k.queue[i].inst == k.inst }

  predicate OneJob(k: Core) {
    forall i, j :: 0 <= i < j < |k.queue| ==> k.queue[i].inst < k.inst || k.queue[j].inst < k.inst
  }

  /** doomed: the entry will be gone before any job is looked at. */
  predicate QueueFits(k: Core, p: Phase, doomed: bool) {
    && (forall i :: 0 <= i < |k.queue| ==> k.queue[i].inst <= k.inst && (doomed || JobFits(k, k.queue[i])))
    && OneJob(k)
    && (HasJob(k) ==> p.Snapshotting?)
  }

  predicate Exclusive(k: Core, a: Pc, b: Pc) {
    !(Busy(k, a) && Busy(k, b)) && (HasJob(k) ==> !Busy(k, a) && !Busy(k, b))
  }

  /** At most one thread or job is at work on the current subscription, and the phase is what it thinks. */
  predicate Healthy(k: Core, a: Pc, b: Pc, p: Phase) {
    && !p.Broken? && PcFits(k, a, p) && PcFits(k, b, p) && (k.live ==> p.Streaming?)
    && QueueFits(k, p, Doomed(a) || Doomed(b)) && Exclusive(k, a, b) && (LoopLike(a) || LoopLike(b))
  }

  // ---- every section keeps it -------------------------------------------------------------------

  /** Where the client stands after a section that sent at most one frame. */
  function Then(p: Phase, before: seq<Frame>, after: seq<Frame>, inOrder: bool): Phase {
    if |after| <= |before| then p else Advance(p, after[|after| - 1], inOrder)
  }

  ghost predicate Keeps(sh: Shared, o: Out, other: Pc, p: Phase, inOrder: bool) {
    Healthy(CoreOf(o.sh), o.pc, other, Then(p, sh.frames, o.sh.frames, inOrder))
  }

  /** The other thread still fits when the phase moves only under a busy thread, and an entry only goes. */
  lemma OtherFits(k: Core, k': Core, other: Pc, p: Phase, p': Phase)
    requires PcFits(k, other, p) && k'.inst == k.inst && (k'.stamp == k.stamp || k'.stamp.None?)
    requires p' == p || !Busy(k, other)
    requires other.Finishing? ==> !k'.live
    ensures PcFits(k', other, p') && Busy(k', other) == Busy(k, other)
  {}

  /** A thread that moves on within the same phase, no busier than before. */
  lemma MovedHealthy(k: Core, pc: Pc, pc': Pc, other: Pc, p: Phase)
    requires Healthy(k, pc, other, p) && PcFits(k, pc', p) && (Busy(k, pc') ==> Busy(k, pc))
    requires (LoopLike(pc) ==> LoopLike(pc')) && (Doomed(pc) ==> Doomed(pc'))
    ensures Healthy(k, pc', other, p)
  {}

  /** The jobs already queued are of earlier REQs, and none passes for the new one's unless it will find no entry. */
  lemma AddedQueue(k: Core, now: int, doomed: bool)
    requires forall i :: 0 <= i < |k.queue| ==> k.queue[i].inst <= k.inst
    requires doomed || forall i :: 0 <= i < |k.queue| ==> k.queue[i].stamp != now
    ensures var k' := Core(Some(now), false, k.queue, k.inst + 1);
      QueueFits(k', Snapshotting, doomed) && !HasJob(k')
  {}

  lemma AddedThread(sh: Shared, other: Pc, p: Phase)
    requires PcFits(CoreOf(sh), other, p) && ReqRule(sh, other)
    ensures var k' := Core(Some(sh.now), false, sh.queue, sh.inst + 1);
      PcFits(k', other, Snapshotting) && !Busy(k', other)
  {}

  lemma AloneHealthy(k: Core, pc: Pc, other: Pc, p: Phase)
    requires !p.Broken? && PcFits(k, pc, p) && PcFits(k, other, p) && !Busy(k, other) && !HasJob(k)
    requires QueueFits(k, p, Doomed(other)) && (k.live ==> p.Streaming?) && LoopLike(pc)
    ensures Healthy(k, pc, other, p)
  {}

  lemma AddedHealthy(sh: Shared, other: Pc, filters: seq<NFilter>, p: Phase)
    requires Healthy(CoreOf(sh), Idle, other, p) && ReqRule(sh, other) && sh.sender
    ensures Healthy(CoreOf(Requested(sh, Idle, filters).sh), First, other, Snapshotting)
  {
    var k := Core(Some(sh.now), false, sh.queue, sh.inst + 1);
    assert CoreOf(Requested(sh, Idle, filters).sh) == k;
    AddedQueue(CoreOf(sh), sh.now, Doomed(other));
    AddedThread(sh, other, p);
    AloneHealthy(k, First, other, Snapshotting);
  }

  lemma RequestedHealthy(sh: Shared, pc: Pc, other: Pc, filters: seq<NFilter>, p: Phase, inOrder: bool)
    requires Healthy(CoreOf(sh), pc, other, p) && (pc.Idle? ==> ReqRule(sh, other))
    ensures Keeps(sh, Requested(sh, pc, filters), other, p, inOrder)
  {
    if pc.Idle? && sh.sender { AddedHealthy(sh, other, filters, p); }
  }

  lemma ClosingHealthy(sh: Shared, pc: Pc, other: Pc, ok: bool, p: Phase, inOrder: bool)
    requires Healthy(CoreOf(sh), pc, other, p)
    ensures Keeps(sh, Closing(sh, pc, ok), other, p, inOrder)
  {
    var o := Closing(sh, pc, ok);
    assert CoreOf(o.sh) == CoreOf(sh);
    MovedHealthy(CoreOf(sh), pc, o.pc, other, p);
  }

  lemma RefusedHealthy(sh: Shared, pc: Pc, other: Pc, ok: bool, p: Phase, inOrder: bool)
    requires Healthy(CoreOf(sh), pc, other, p)
    ensures Keeps(sh, Refused(sh, pc, ok), other, p, inOrder)
  {
    assert CoreOf(Refused(sh, pc, ok).sh) == CoreOf(sh);
  }

  lemma PartedHealthy(sh: Shared, pc: Pc, other: Pc, ok: bool, p: Phase, inOrder: bool)
    requires Healthy(CoreOf(sh), pc, other, p)
    ensures Keeps(sh, Parted(sh, pc, ok), other, p, inOrder)
  {
    assert CoreOf(Parted(sh, pc, ok).sh) == CoreOf(sh);
    if pc.Parting? { MovedHealthy(CoreOf(sh), pc, Idle, other, p); }
  }

  lemma TookHealthy(sh: Shared, pc: Pc, other: Pc, p: Phase, inOrder: bool)
    requires Healthy(CoreOf(sh), pc, other, p) && LoopLike(other)
    ensures Keeps(sh, Took(sh, pc), other, p, inOrder)
  {
    if pc.Idle? && sh.queue != [] {
      var k, k' := CoreOf(sh), CoreOf(Took(sh, pc).sh);
      assert forall i :: 0 <= i < |k'.queue| ==> k'.queue[i] == k.queue[i + 1];
      assert JobFits(k, k.queue[0]);
    }
  }

  lemma CheckedHealthy(sh: Shared, pc: Pc, other: Pc, connected: bool, p: Phase, inOrder: bool)
    requires Healthy(CoreOf(sh), pc, other, p)
    ensures Keeps(sh, Checked(sh, pc, connected), other, p, inOrder)
  {}

  lemma FetchedHealthy(sh: Shared, pc: Pc, other: Pc, evs: seq<Event>, more: bool, p: Phase, inOrder: bool)
    requires Healthy(CoreOf(sh), pc, other, p)
    ensures Keeps(sh, Fetched(sh, pc, evs, more), other, p, inOrder)
  {
    MovedHealthy(CoreOf(sh), pc, Fetched(sh, pc, evs, more).pc, other, p);
  }

  lemma FetchFailedHealthy(sh: Shared, pc: Pc, other: Pc, ok: bool, p: Phase, inOrder: bool)
    requires Healthy(CoreOf(sh), pc, other, p)
    ensures Keeps(sh, FetchFailed(sh, pc, ok), other, p, inOrder)
  {
    var o := FetchFailed(sh, pc, ok);
    assert CoreOf(o.sh) == CoreOf(sh);
    MovedHealthy(CoreOf(sh), pc, o.pc, other, p);
  }

  lemma LookedHealthy(sh: Shared, pc: Pc, other: Pc, sees: bool, p: Phase, inOrder: bool)
    requires Healthy(CoreOf(sh), pc, other, p)
    ensures Keeps(sh, Looked(sh, pc, sees), other, p, inOrder)
  {}

  lemma SentHealthy(sh: Shared, pc: Pc, other: Pc, ok: bool, p: Phase, inOrder: bool)
    requires Healthy(CoreOf(sh), pc, other, p)
    ensures Keeps(sh, Sent(sh, pc, ok), other, p, inOrder)
  {}

  lemma EnqueuedHealthy(sh: Shared, pc: Pc, other: Pc, job: Job, p: Phase)
    requires Healthy(CoreOf(sh), pc, other, p) && pc.Paging? && job.inst == sh.inst
    ensures Healthy(CoreOf(sh.(queue := sh.queue + [job])), Idle, other, p)
  {
    var k, k' := CoreOf(sh), CoreOf(sh.(queue := sh.queue + [job]));
    assert Busy(k, pc) && !Busy(k, other);
    assert forall i :: 0 <= i < |k.queue| ==> k.queue[i].inst < k.inst;
    assert k' == k.(queue := k.queue + [job]);
    OtherFits(k, k', other, p, p);
  }

  lemma TurnedHealthy(sh: Shared, pc: Pc, other: Pc, full: bool, p: Phase, inOrder: bool)
    requires Healthy(CoreOf(sh), pc, other, p)
    ensures Keeps(sh, Turned(sh, pc, full), other, p, inOrder)
  {
    var o := Turned(sh, pc, full);
    if pc.Paging? && o.pc == Idle {
      EnqueuedHealthy(sh, pc, other, o.sh.queue[|o.sh.queue| - 1], p);
    }
  }

  lemma EoseHealthy(k: Core, other: Pc, p: Phase)
    requires Healthy(k, Eosing, other, p)
    ensures Healthy(k, Finishing, other, Streaming(-1)) && Healthy(k, Idle, other, p)
  {
    assert Busy(k, Eosing) && !Busy(k, other) && !HasJob(k) && !k.live;
    OtherFits(k, k, other, p, Streaming(-1));
  }

  lemma EoseSentHealthy(sh: Shared, pc: Pc, other: Pc, ok: bool, p: Phase, inOrder: bool)
    requires Healthy(CoreOf(sh), pc, other, p)
    ensures Keeps(sh, EoseSent(sh, pc, ok), other, p, inOrder)
  {
    if pc.Eosing? {
      EoseHealthy(CoreOf(sh), other, p);
      assert CoreOf(EoseSent(sh, pc, ok).sh) == CoreOf(sh) && p.Snapshotting?;
    }
  }

  lemma TakenHealthy(k: Core, other: Pc, evs: seq<Event>, p: Phase, live: bool)
    requires Healthy(k, Finishing, other, p)
    ensures Healthy(k.(live := live), Flushing(evs, 0, Stop), other, p)
  {
    assert !other.Finishing? && !HasJob(k);
    OtherFits(k, k.(live := live), other, p, p);
    assert !HasJob(k.(live := live));
  }

  lemma FinishingHealthy(sh: Shared, other: Pc, p: Phase, inOrder: bool)
    requires Healthy(CoreOf(sh), Finishing, other, p)
    ensures Keeps(sh, Finished(sh, Finishing), other, p, inOrder)
  {
    var o := Finished(sh, Finishing);
    TakenHealthy(CoreOf(sh), other, o.pc.evs, p, CoreOf(o.sh).live);
  }

  lemma ClearingHealthy(sh: Shared, after: After, other: Pc, p: Phase, inOrder: bool)
    requires Healthy(CoreOf(sh), Clearing(after), other, p)
    ensures Keeps(sh, Finished(sh, Clearing(after)), other, p, inOrder)
  {
    assert sh.entry.None?;
    assert Finished(sh, Clearing(after)) == Out(sh, Flushing([], 0, after));
  }

  lemma FinishedHealthy(sh: Shared, pc: Pc, other: Pc, p: Phase, inOrder: bool)
    requires Healthy(CoreOf(sh), pc, other, p)
    ensures Keeps(sh, Finished(sh, pc), other, p, inOrder)
  {
    match pc {
      case Finishing => FinishingHealthy(sh, other, p, inOrder);
      case Clearing(after) => ClearingHealthy(sh, after, other, p, inOrder);
      case _ =>
    }
  }

  lemma FlushSendHealthy(sh: Shared, pc: Pc, other: Pc, ok: bool, p: Phase, inOrder: bool)
    requires Healthy(CoreOf(sh), pc, other, p) && pc.Flushing? && pc.evs != [] && (inOrder ==> FlushAhead(pc, p))
    ensures Keeps(sh, FlushedOne(sh, pc, ok), other, p, inOrder)
  {
    var o := FlushedOne(sh, pc, ok);
    assert CoreOf(o.sh) == CoreOf(sh);
    OtherFits(CoreOf(sh), CoreOf(sh), other, p, Then(p, sh.frames, o.sh.frames, inOrder));
  }

  lemma FlushedHealthy(sh: Shared, pc: Pc, other: Pc, ok: bool, p: Phase, inOrder: bool)
    requires Healthy(CoreOf(sh), pc, other, p) && (inOrder ==> FlushAhead(pc, p))
    ensures Keeps(sh, FlushedOne(sh, pc, ok), other, p, inOrder)
  {
    if pc.Flushing? && pc.evs != [] { FlushSendHealthy(sh, pc, other, ok, p, inOrder); }
  }

  lemma CountKeepsCore(sh: Shared, pc: Pc)
    ensures var o := CountedOne(sh, pc); CoreOf(o.sh) == CoreOf(sh) && o.sh.frames == sh.frames
  {}

  lemma CountedHealthy(sh: Shared, pc: Pc, other: Pc, p: Phase, inOrder: bool)
    requires Healthy(CoreOf(sh), pc, other, p)
    ensures Keeps(sh, CountedOne(sh, pc), other, p, inOrder)
  {
    CountKeepsCore(sh, pc);
    if pc.Counting? { MovedHealthy(CoreOf(sh), pc, Flushing(pc.evs, pc.n, pc.after), other, p); }
  }

  lemma MarkedHealthy(sh: Shared, pc: Pc, other: Pc, p: Phase, inOrder: bool)
    requires Healthy(CoreOf(sh), pc, other, p)
    ensures Keeps(sh, Marked(sh, pc), other, p, inOrder)
  {
    var o := Marked(sh, pc);
    assert CoreOf(o.sh) == CoreOf(sh);
    MovedHealthy(CoreOf(sh), pc, o.pc, other, p);
  }

  lemma RemovedQueue(k: Core, p: Phase, doomed: bool)
    requires QueueFits(k, p, doomed)
    ensures var k' := k.(stamp := None, live := false); QueueFits(k', p, false) && HasJob(k') == HasJob(k)
  {}

  lemma RemovedHealthy(k: Core, pc: Pc, other: Pc, p: Phase)
    requires Healthy(k, pc, other, p) && pc.Deleting?
    ensures Healthy(k.(stamp := None, live := false), if pc.after == Stop then Idle else Clearing(pc.after), other, p)
  {
    var k', pc' := k.(stamp := None, live := false), if pc.after == Stop then Idle else Clearing(pc.after);
    OtherFits(k, k', other, p, p);
    RemovedQueue(k, p, Doomed(pc) || Doomed(other));
    assert PcFits(k', pc', p) && (Busy(k', pc') <==> Busy(k, pc)) && (LoopLike(pc) ==> LoopLike(pc'));
  }

  lemma DeletedHealthy(sh: Shared, pc: Pc, other: Pc, p: Phase, inOrder: bool)
    requires Healthy(CoreOf(sh), pc, other, p)
    ensures Keeps(sh, Deleted(sh, pc), other, p, inOrder)
  {
    if pc.Deleting? {
      RemovedHealthy(CoreOf(sh), pc, other, p);
      assert CoreOf(Deleted(sh, pc).sh) == CoreOf(sh).(stamp := None, live := false);
    }
  }

  lemma GaveUpHealthy(sh: Shared, pc: Pc, other: Pc, p: Phase, inOrder: bool)
    requires Healthy(CoreOf(sh), pc, other, p)
    ensures Keeps(sh, Section(sh, pc, GiveUp, false, false), other, p, inOrder)
  {
    if pc.First? || (pc.Paging? && pc.source.FromLoop?) { MovedHealthy(CoreOf(sh), pc, Idle, other, p); }
  }

  predicate FlushAhead(pc: Pc, p: Phase) { FlushLeft(pc) && p.Streaming? ==> p.last < pc.n }

  /** The acts up to the end of a page. */
  predicate OfPage(act: Act) {
    OfClient(act) || act.Take? || act.Check? || act.Fetch? || act.FetchFail? || act.Look? || act.Send?
  }

  lemma ClientHealthy(sh: Shared, pc: Pc, other: Pc, act: Act, sees: bool, connected: bool, p: Phase, inOrder: bool)
    requires Healthy(CoreOf(sh), pc, other, p) && OfClient(act) && (act.Req? && pc.Idle? ==> ReqRule(sh, other))
    ensures Keeps(sh, Section(sh, pc, act, sees, connected), other, p, inOrder)
  {
    match act {
      case Req(filters) => RequestedHealthy(sh, pc, other, filters, p, inOrder);
      case Refuse(ok) => RefusedHealthy(sh, pc, other, ok, p, inOrder);
      case CloseMsg(ok) => ClosingHealthy(sh, pc, other, ok, p, inOrder);
      case Part(ok) => PartedHealthy(sh, pc, other, ok, p, inOrder);
    }
  }

  lemma PageHealthy(sh: Shared, pc: Pc, other: Pc, act: Act, sees: bool, connected: bool, p: Phase, inOrder: bool)
    requires Healthy(CoreOf(sh), pc, other, p) && OfPage(act) && !OfClient(act) && (act.Take? ==> LoopLike(other))
    ensures Keeps(sh, Section(sh, pc, act, sees, connected), other, p, inOrder)
  {
    match act {
      case Take => TookHealthy(sh, pc, other, p, inOrder);
      case Check => CheckedHealthy(sh, pc, other, connected, p, inOrder);
      case Fetch(evs, more) => FetchedHealthy(sh, pc, other, evs, more, p, inOrder);
      case FetchFail(ok) => FetchFailedHealthy(sh, pc, other, ok, p, inOrder);
      case Look(fault) => LookedHealthy(sh, pc, other, sees && !fault, p, inOrder);
      case Send(ok) => SentHealthy(sh, pc, other, ok, p, inOrder);
    }
  }

  lemma EndHealthy(sh: Shared, pc: Pc, other: Pc, act: Act, sees: bool, connected: bool, p: Phase, inOrder: bool)
    requires Healthy(CoreOf(sh), pc, other, p) && (inOrder ==> FlushAhead(pc, p)) && !OfPage(act)
    ensures Keeps(sh, Section(sh, pc, act, sees, connected), other, p, inOrder)
  {
    match act {
      case GiveUp => GaveUpHealthy(sh, pc, other, p, inOrder);
      case Turn(full) => TurnedHealthy(sh, pc, other, full, p, inOrder);
      case SendEose(ok) => EoseSentHealthy(sh, pc, other, ok, p, inOrder);
      case Finish => FinishedHealthy(sh, pc, other, p, inOrder);
      case FlushOne(ok) => FlushedHealthy(sh, pc, other, ok, p, inOrder);
      case Count => CountedHealthy(sh, pc, other, p, inOrder);
      case Mark => MarkedHealthy(sh, pc, other, p, inOrder);
      case Delete => DeletedHealthy(sh, pc, other, p, inOrder);
    }
  }

  lemma SectionHealthy(sh: Shared, pc: Pc, other: Pc, act: Act, sees: bool, connected: bool, p: Phase, inOrder: bool)
    requires Healthy(CoreOf(sh), pc, other, p) && (inOrder ==> FlushAhead(pc, p))
    requires (act.Req? && pc.Idle? ==> ReqRule(sh, other)) && (act.Take? ==> LoopLike(other))
    ensures Keeps(sh, Section(sh, pc, act, sees, connected), other, p, inOrder)
  {
    if OfClient(act) {
      ClientHealthy(sh, pc, other, act, sees, connected, p, inOrder);
    } else if OfPage(act) {
      PageHealthy(sh, pc, other, act, sees, connected, p, inOrder);
    } else {
      EndHealthy(sh, pc, other, act, sees, connected, p, inOrder);
    }
  }

  // ---- the invariant: buffer, flush and counters --------------------------------------------------

  function Held(n: nat): nat { if n < PENDING_LIVE_CAP then n else PENDING_LIVE_CAP }

  /** How many of the events offered while buffering did not fit. */
  function Lost(sh: Shared): nat {
    var n := if sh.entry.Some? && sh.entry.value.snapshotDone then sh.cut else |sh.offered|;
    n - Held(n)
  }

  /** Flushed or to be flushed, and not yet counted. */
  function Inflight(pc: Pc): nat {
    match pc
    case Flushing(evs, _, _) => |evs|
    case Counting(_, evs, _, _) => |evs| + 1
    case _ => 0
  }

  /** What is left to flush is the end of what was buffered. */
  predicate FlushFits(sh: Shared, pc: Pc) {
    FlushLeft(pc) ==>
      pc.n + |pc.evs| == Held(sh.cut) <= |sh.offered| && pc.evs == sh.offered[pc.n..pc.n + |pc.evs|]
  }

  predicate BufferFits(sh: Shared) {
    sh.entry.Some? ==>
      var e := sh.entry.value;
      sh.sender &&
      (e.snapshotDone ==> e.pendingLive == [] && sh.cut <= |sh.offered| && e.overflow == (sh.cut > PENDING_LIVE_CAP)) &&
      (!e.snapshotDone ==>
        e.pendingLive == sh.offered[..Held(|sh.offered|)] && e.overflow == (|sh.offered| > PENDING_LIVE_CAP))
  }

  predicate Fits(sh: Shared, a: Pc, b: Pc) { BufferFits(sh) && FlushFits(sh, a) && FlushFits(sh, b) }

  predicate Books(sh: Shared, inflight: nat) {
    sh.entry.Some? ==>
      var e := sh.entry.value;
      if e.snapshotDone then e.broadcastOk + e.broadcastDrop + inflight + sh.cut - Held(sh.cut) == |sh.offered|
      else e.broadcastOk == e.broadcastDrop == inflight == 0
  }

  /** Everything sent so far is older than everything still to be sent. */
  predicate Ahead(sh: Shared, a: Pc, b: Pc, p: Phase) {
    (p.Streaming? ==> p.last < |sh.offered|) && FlushAhead(a, p) && FlushAhead(b, p)
  }

  lemma UntouchedFits(sh: Shared, pc: Pc, other: Pc, o: Out)
    requires Fits(sh, pc, other)
    requires o.sh.entry == sh.entry && o.sh.sender == sh.sender && o.sh.offered == sh.offered && o.sh.cut == sh.cut
    requires o.pc == pc || !FlushLeft(o.pc)
    ensures Fits(o.sh, o.pc, other)
  {}

  lemma RequestedFits(sh: Shared, pc: Pc, other: Pc, filters: seq<NFilter>)
    requires Fits(sh, pc, other) && (pc.Idle? ==> ReqRule(sh, other))
    ensures var o := Requested(sh, pc, filters); Fits(o.sh, o.pc, other)
  {}

  lemma FinishedFits(sh: Shared, pc: Pc, other: Pc, p: Phase)
    requires Healthy(CoreOf(sh), pc, other, p) && Fits(sh, pc, other)
    ensures var o := Finished(sh, pc); Fits(o.sh, o.pc, other) && (FlushLeft(pc) || FlushAhead(o.pc, p))
  {
    if pc.Clearing? { assert sh.entry.None?; }
    if pc.Finishing? { assert !FlushLeft(other); }
  }

  lemma FlushedFits(sh: Shared, pc: Pc, other: Pc, ok: bool)
    requires Fits(sh, pc, other)
    ensures var o := FlushedOne(sh, pc, ok); Fits(o.sh, o.pc, other)
  {
    if pc.Flushing? && pc.evs != [] {
      assert pc.evs[1..] == sh.offered[pc.n + 1..pc.n + |pc.evs|];
    }
  }

  lemma CountedFits(sh: Shared, pc: Pc, other: Pc)
    requires Fits(sh, pc, other)
    ensures var o := CountedOne(sh, pc); Fits(o.sh, o.pc, other)
  {}

  lemma RemovedFits(sh: Shared, pc: Pc, other: Pc)
    requires Fits(sh, pc, other)
    ensures var o := Marked(sh, pc); Fits(o.sh, o.pc, other)
    ensures var o := Deleted(sh, pc); Fits(o.sh, o.pc, other)
  {}

  /** The acts that touch the entry, the offered events or a flush. */
  predicate OfEntry(act: Act) {
    act.Req? || act.Finish? || act.FlushOne? || act.Count? || act.Mark? || act.Delete?
  }

  lemma OtherActs(sh: Shared, pc: Pc, act: Act, sees: bool, connected: bool)
    requires !OfEntry(act)
    ensures var o := Section(sh, pc, act, sees, connected);
      && o.sh.entry == sh.entry && o.sh.sender == sh.sender && o.sh.offered == sh.offered && o.sh.cut == sh.cut
      && (o.pc == pc || (!FlushLeft(o.pc) && Inflight(o.pc) == Inflight(pc) == 0))
  {}

  lemma SectionFits(sh: Shared, pc: Pc, other: Pc, act: Act, sees: bool, connected: bool, p: Phase)
    requires Healthy(CoreOf(sh), pc, other, p) && Fits(sh, pc, other)
    requires act.Req? && pc.Idle? ==> ReqRule(sh, other)
    ensures var o := Section(sh, pc, act, sees, connected); Fits(o.sh, o.pc, other)
  {
    if !OfEntry(act) {
      OtherActs(sh, pc, act, sees, connected);
      UntouchedFits(sh, pc, other, Section(sh, pc, act, sees, connected));
    } else {
      match act {
        case Req(filters) => RequestedFits(sh, pc, other, filters);
        case Finish => FinishedFits(sh, pc, other, p);
        case FlushOne(ok) => FlushedFits(sh, pc, other, ok);
        case Count => CountedFits(sh, pc, other);
        case Mark => RemovedFits(sh, pc, other);
        case Delete => RemovedFits(sh, pc, other);
      }
    }
  }

  lemma FinishedBooks(sh: Shared, pc: Pc, other: Pc, p: Phase)
    requires Healthy(CoreOf(sh), pc, other, p) && Fits(sh, pc, other) && Books(sh, Inflight(pc) + Inflight(other))
    ensures var o := Finished(sh, pc); Books(o.sh, Inflight(o.pc) + Inflight(other))
  {
    if pc.Clearing? { assert sh.entry.None?; }
  }

  lemma FlushBooks(sh: Shared, pc: Pc, other: Pc, ok: bool)
    requires Books(sh, Inflight(pc) + Inflight(other))
    ensures var o := FlushedOne(sh, pc, ok); Books(o.sh, Inflight(o.pc) + Inflight(other))
    ensures var o := CountedOne(sh, pc); Books(o.sh, Inflight(o.pc) + Inflight(other))
  {}

  lemma RequestedBooks(sh: Shared, pc: Pc, other: Pc, filters: seq<NFilter>)
    requires Books(sh, Inflight(pc) + Inflight(other)) && (pc.Idle? ==> ReqRule(sh, other) && !other.Counting?)
    ensures var o := Requested(sh, pc, filters); Books(o.sh, Inflight(o.pc) + Inflight(other))
  {}

  lemma RemovedBooks(sh: Shared, pc: Pc, other: Pc)
    requires Books(sh, Inflight(pc) + Inflight(other))
    ensures var o := Marked(sh, pc); Books(o.sh, Inflight(o.pc) + Inflight(other))
    ensures var o := Deleted(sh, pc); Books(o.sh, Inflight(o.pc) + Inflight(other))
  {}

  lemma OtherBooks(sh: Shared, pc: Pc, other: Pc, act: Act, sees: bool, connected: bool)
    requires Books(sh, Inflight(pc) + Inflight(other)) && !OfEntry(act)
    ensures var o := Section(sh, pc, act, sees, connected); Books(o.sh, Inflight(o.pc) + Inflight(other))
  {
    OtherActs(sh, pc, act, sees, connected);
  }

  lemma SectionBooks(sh: Shared, pc: Pc, other: Pc, act: Act, sees: bool, connected: bool, p: Phase)
    requires Healthy(CoreOf(sh), pc, other, p) && Fits(sh, pc, other) && Books(sh, Inflight(pc) + Inflight(other))
    requires act.Req? && pc.Idle? ==> ReqRule(sh, other) && !other.Counting?
    ensures var o := Section(sh, pc, act, sees, connected); Books(o.sh, Inflight(o.pc) + Inflight(other))
  {
    if !OfEntry(act) {
      OtherBooks(sh, pc, other, act, sees, connected);
    } else {
      match act {
        case Req(filters) => RequestedBooks(sh, pc, other, filters);
        case Finish => FinishedBooks(sh, pc, other, p);
        case FlushOne(ok) => FlushBooks(sh, pc, other, ok);
        case Count => FlushBooks(sh, pc, other, true);
        case Mark => RemovedBooks(sh, pc, other);
        case Delete => RemovedBooks(sh, pc, other);
      }
    }
  }

  lemma FlushedAhead(sh: Shared, pc: Pc, other: Pc, ok: bool, p: Phase)
    requires Healthy(CoreOf(sh), pc, other, p) && Fits(sh, pc, other) && Ahead(sh, pc, other, p)
    ensures var o := FlushedOne(sh, pc, ok); Ahead(o.sh, o.pc, other, Then(p, sh.frames, o.sh.frames, true))
  {
    if pc.Flushing? && pc.evs != [] { assert !FlushLeft(other); }
  }

  lemma FinishedAhead(sh: Shared, pc: Pc, other: Pc, p: Phase)
    requires Healthy(CoreOf(sh), pc, other, p) && Fits(sh, pc, other) && Ahead(sh, pc, other, p)
    ensures var o := Finished(sh, pc); Ahead(o.sh, o.pc, other, p)
  {
    FinishedFits(sh, pc, other, p);
  }

  /** A section that sends no live event keeps them ahead. */
  ghost predicate KeepsAhead(sh: Shared, pc: Pc, o: Out, p: Phase) {
    && (FlushLeft(o.pc) ==> FlushLeft(pc) && o.pc.n == pc.n)
    && (o.sh.offered == sh.offered || o.sh.frames == sh.frames + [Opened])
    && (var p' := Then(p, sh.frames, o.sh.frames, true);
        p'.Streaming? ==> p' == Streaming(-1) || (p' == p && o.sh.offered == sh.offered))
  }

  lemma SilentKeepsAhead(sh: Shared, pc: Pc, o: Out, p: Phase)
    requires o.sh.frames == sh.frames && o.sh.offered == sh.offered && (o.pc == pc || !FlushLeft(o.pc))
    ensures KeepsAhead(sh, pc, o, p)
  {}

  /** A frame that starts no stream. */
  lemma FrameKeepsAhead(sh: Shared, pc: Pc, o: Out, p: Phase, f: Frame)
    requires o.sh.frames == sh.frames + [f] && (f.Snap? || f.ClosedMsg?)
    requires o.sh.offered == sh.offered && !FlushLeft(o.pc)
    ensures KeepsAhead(sh, pc, o, p)
  {}

  lemma OpenedKeepsAhead(sh: Shared, pc: Pc, o: Out, p: Phase)
    requires o.sh.frames == sh.frames + [Opened] && !FlushLeft(o.pc)
    ensures KeepsAhead(sh, pc, o, p)
  {}

  lemma QuietPage(sh: Shared, pc: Pc, act: Act, sees: bool, connected: bool, p: Phase)
    requires OfPage(act)
    ensures KeepsAhead(sh, pc, Section(sh, pc, act, sees, connected), p)
  {
    var o := Section(sh, pc, act, sees, connected);
    PageFrames(sh, pc, act, sees, connected);
    if o.sh.frames == sh.frames {
      SilentKeepsAhead(sh, pc, o, p);
    } else if act.Req? {
      OpenedKeepsAhead(sh, pc, o, p);
    } else {
      FrameKeepsAhead(sh, pc, o, p, if act.Send? then Snap(pc.evs[0]) else ClosedMsg);
    }
  }

  lemma PageFrames(sh: Shared, pc: Pc, act: Act, sees: bool, connected: bool)
    requires OfPage(act)
    ensures var o := Section(sh, pc, act, sees, connected);
      && (o.pc == pc || !FlushLeft(o.pc)) && (o.sh.frames != sh.frames ==> !FlushLeft(o.pc))
      && (act.Req? ==> (o.sh.frames == sh.frames && o.sh.offered == sh.offered) || o.sh.frames == sh.frames + [Opened])
      && (!act.Req? ==> o.sh.offered == sh.offered)
      && (!act.Req? && o.sh.frames != sh.frames ==>
        if act.Send? then pc.Paging? && pc.evs != [] && o.sh.frames == sh.frames + [Snap(pc.evs[0])]
        else o.sh.frames == sh.frames + [ClosedMsg])
  {}

  lemma QuietEnd(sh: Shared, pc: Pc, act: Act, sees: bool, connected: bool, p: Phase)
    requires !OfPage(act) && !act.FlushOne? && !act.Finish?
    ensures KeepsAhead(sh, pc, Section(sh, pc, act, sees, connected), p)
  {}

  lemma QuietAhead(sh: Shared, pc: Pc, other: Pc, act: Act, sees: bool, connected: bool, p: Phase)
    requires Ahead(sh, pc, other, p) && !act.FlushOne? && !act.Finish?
    ensures var o := Section(sh, pc, act, sees, connected);
      Ahead(o.sh, o.pc, other, Then(p, sh.frames, o.sh.frames, true))
  {
    if OfPage(act) { QuietPage(sh, pc, act, sees, connected, p); } else { QuietEnd(sh, pc, act, sees, connected, p); }
  }

  lemma SectionAhead(sh: Shared, pc: Pc, other: Pc, act: Act, sees: bool, connected: bool, p: Phase)
    requires Healthy(CoreOf(sh), pc, other, p) && Fits(sh, pc, other) && Ahead(sh, pc, other, p)
    ensures var o := Section(sh, pc, act, sees, connected);
      Ahead(o.sh, o.pc, other, Then(p, sh.frames, o.sh.frames, true))
  {
    match act {
      case FlushOne(ok) => FlushedAhead(sh, pc, other, ok, p);
      case Finish => FinishedAhead(sh, pc, other, p);
      case _ => QuietAhead(sh, pc, other, act, sees, connected, p);
    }
  }
}
