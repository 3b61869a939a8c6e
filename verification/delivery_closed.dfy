/**
 What may follow a CLOSED: nothing until the next accepted REQ, exactly from the states below, in every run
 (internal/relay/nip01.go, internal/relay/readqueue.go, internal/relay/subscription.go, internal/relay/relay.go).
 */
module DeliveryClosed {
  import opened Base
  import opened Runs
  import opened Nostr
  import opened Subscriptions
  import opened Visibility
  import opened Delivery
  import opened DeliveryOrder
  import opened DeliveryRuns
  import opened DeliveryExact
  import EventHistory
  import EventTables

  // ---- states from which only CLOSED can follow ---------------------------------------------------

  /** Will send nothing but CLOSED by itself, unless it still has a buffer to take or a job to look at. */
  predicate Quiet(pc: Pc) {
    match pc
    case Idle => true
    case Taken(_) => true
    case Parting => true
    case Finishing => true
    case Marking(after) => after != ThenFinishAndEose
    case Deleting(after) => after != ThenFinishAndEose
    case Clearing(after) => after != ThenFinishAndEose
    case Flushing(evs, _, after) => evs == [] && after != ThenFinishAndEose
    case Counting(_, evs, _, after) => evs == [] && after != ThenFinishAndEose
    case _ => false
  }

  /** Some broadcast could be meant for an entry with these filters: a gift wrap needs a recipient. */
  ghost predicate Wantable(p: Policy, filters: seq<NFilter>) {
    exists ev :: AcceptsAny(filters, ev) && (IsGiftWrap(p, ev) ==> exists key :: RecipientKey(ev, key))
  }

  predicate AtFinish(pc: Pc) { pc.Finishing? || pc.Clearing? }

  predicate Finishes(s: State) { AtFinish(s.loop) || AtFinish(s.worker) }

  predicate JobPasses(s: State) {
    (s.worker.Taken? && SameSnapshot(s.sh, s.worker.job.stamp)) ||
    exists i :: 0 <= i < |s.sh.queue| && SameSnapshot(s.sh, s.sh.queue[i].stamp)
  }

  /** The entry takes broadcasts, and is sent them at once now or after the FinishSnapshot under way. */
  ghost predicate Streams(s: State) {
    s.sh.entry.Some? && !s.sh.entry.value.closed && (s.sh.entry.value.snapshotDone || Finishes(s)) &&
    Wantable(s.policy, s.sh.entry.value.filters)
  }

  /** FinishSnapshot is under way and the buffer holds events. */
  predicate Flushes(s: State) { Finishes(s) && s.sh.entry.Some? && s.sh.entry.value.pendingLive != [] }

  ghost predicate Mute(s: State) {
    Quiet(s.loop) && Quiet(s.worker) && !Flushes(s) && !Streams(s) && (Doomed(s.worker) || !JobPasses(s))
  }

  predicate OnlyClosed(before: seq<Frame>, after: seq<Frame>) {
    before <= after && forall i :: |before| <= i < |after| ==> after[i] == ClosedMsg
  }

  /** Until the next accepted REQ the client gets nothing but CLOSED. */
  ghost predicate OnlyClosedFollows(s: State) {
    forall steps :: Obeys(Next, s, steps, NoReq) ==> OnlyClosed(s.sh.frames, Run(Next, s, steps).sh.frames)
  }

  // ---- what every run keeps, whatever its REQs ----------------------------------------------------

  predicate Sound(s: State) {
    && LoopLike(s.loop) && WorkerLike(s.worker) && (s.sh.sender ==> s.world.connected)
    && (s.sh.entry.Some? ==> s.sh.sender && (s.sh.entry.value.snapshotDone ==> s.sh.entry.value.pendingLive == []))
  }

  lemma SoundSection(sh: Shared, pc: Pc, act: Act, sees: bool, connected: bool)
    requires sh.entry.Some? ==> sh.sender && (sh.entry.value.snapshotDone ==> sh.entry.value.pendingLive == [])
    ensures var t := Section(sh, pc, act, sees, connected).sh;
      t.sender == sh.sender &&
      (t.entry.Some? ==> t.sender && (t.entry.value.snapshotDone ==> t.entry.value.pendingLive == []))
  {}

  lemma SoundStep(s: State, step: Step)
    requires Sound(s)
    ensures Sound(Next(s, step))
  {
    StaysWorkerLike(s, step);
    if step.Do? && Owns(step.loop, step.act) {
      SoundSection(s.sh, PcOf(s, step.loop), step.act, SeesNext(s, PcOf(s, step.loop)), s.world.connected);
      if step.loop { StaysLoopLike(s.sh, s.loop, step.act, SeesNext(s, s.loop), s.world.connected); }
    }
  }

  lemma {:induction false} SoundRun(s: State, steps: seq<Step>)
    requires Sound(s)
    ensures Sound(Run(Next, s, steps))
    decreases |steps|
  {
    if steps != [] {
      SoundStep(s, steps[0]);
      SoundRun(Next(s, steps[0]), steps[1..]);
    }
  }

  /** No rule: any step may come. */
  predicate AnyStep(s: State, step: Step) { true }

  /** A state some run of a connection leads to. */
  ghost predicate Reached(s: State) {
    exists now, log, policy :: Reaches(Next, Fresh(now, log, policy), s, AnyStep)
  }

  lemma ReachedSound(s: State)
    requires Reached(s)
    ensures Sound(s)
  {
    var now, log, policy :| Reaches(Next, Fresh(now, log, policy), s, AnyStep);
    var steps: seq<Step> :| Obeys(Next, Fresh(now, log, policy), steps, AnyStep) &&
      Run(Next, Fresh(now, log, policy), steps) == s;
    SoundRun(Fresh(now, log, policy), steps);
  }

  // ---- mute states stay mute ----------------------------------------------------------------------

  /** The entry goes, or is closed, counted or taken, but never becomes another's. */
  predicate Fades(e: Option<Entry>, e': Option<Entry>) {
    e'.Some? ==>
      && e.Some? && (e.value.closed ==> e'.value.closed) && e'.value.filters == e.value.filters
      && e'.value.openedUnix == e.value.openedUnix && e'.value.pendingLive in {e.value.pendingLive, []}
  }

  /** What a section of a quiet thread may do. */
  predicate StaysQuiet(sh: Shared, pc: Pc, act: Act, o: Out) {
    && Quiet(o.pc) && OnlyClosed(sh.frames, o.sh.frames)
    && Fades(sh.entry, o.sh.entry) && o.sh.sender == sh.sender
    && (o.sh.entry.Some? && o.sh.entry.value.snapshotDone ==> AtFinish(pc) || sh.entry.value.snapshotDone)
    && (AtFinish(o.pc) ==> AtFinish(pc) || o.sh.entry.None?)
    && (o.sh.queue == sh.queue || (act.Take? && sh.queue != [] && o.sh.queue == sh.queue[1..]))
    && (o.pc.Taken? ==> o.pc == pc || (sh.queue != [] && o.pc.job == sh.queue[0] && o.sh.entry == sh.entry))
    && (Doomed(pc) ==> Doomed(o.pc) || o.sh.entry.None?)
  }

  lemma QuietClient(sh: Shared, pc: Pc, act: Act, sees: bool, connected: bool)
    requires Quiet(pc) && OfClient(act) && !act.Req?
    ensures StaysQuiet(sh, pc, act, Section(sh, pc, act, sees, connected))
  {}

  lemma QuietJob(sh: Shared, pc: Pc, act: Act, sees: bool, connected: bool)
    requires Quiet(pc) && (act.Take? || act.Check?) && (pc.Taken? ==> !SameSnapshot(sh, pc.job.stamp))
    ensures StaysQuiet(sh, pc, act, Section(sh, pc, act, sees, connected))
  {}

  lemma QuietFlush(sh: Shared, pc: Pc, act: Act, sees: bool, connected: bool)
    requires Quiet(pc) && (act.Finish? || act.FlushOne? || act.Count?)
    requires AtFinish(pc) && sh.entry.Some? ==> sh.entry.value.pendingLive == []
    ensures StaysQuiet(sh, pc, act, Section(sh, pc, act, sees, connected))
  {}

  lemma QuietRemoval(sh: Shared, pc: Pc, act: Act, sees: bool, connected: bool)
    requires Quiet(pc) && (act.Mark? || act.Delete?)
    ensures StaysQuiet(sh, pc, act, Section(sh, pc, act, sees, connected))
  {}

  /** A quiet thread has no page to work on, and no EOSE to send. */
  lemma QuietElse(sh: Shared, pc: Pc, act: Act, sees: bool, connected: bool)
    requires Quiet(pc) && !OfClient(act) && !act.Take? && !act.Check? && !act.Finish? && !act.FlushOne? && !act.Count?
    requires !act.Mark? && !act.Delete?
    ensures Section(sh, pc, act, sees, connected) == Out(sh, pc)
  {}

  lemma QuietSection(sh: Shared, pc: Pc, act: Act, sees: bool, connected: bool)
    requires Quiet(pc) && !act.Req? && (AtFinish(pc) && sh.entry.Some? ==> sh.entry.value.pendingLive == [])
    requires pc.Taken? ==> !SameSnapshot(sh, pc.job.stamp)
    ensures StaysQuiet(sh, pc, act, Section(sh, pc, act, sees, connected))
  {
    if OfClient(act) {
      QuietClient(sh, pc, act, sees, connected);
    } else if act.Take? || act.Check? {
      QuietJob(sh, pc, act, sees, connected);
    } else if act.Finish? || act.FlushOne? || act.Count? {
      QuietFlush(sh, pc, act, sees, connected);
    } else if act.Mark? || act.Delete? {
      QuietRemoval(sh, pc, act, sees, connected);
    } else {
      QuietElse(sh, pc, act, sees, connected);
    }
  }

  lemma MuteSection(s: State, loop: bool, act: Act)
    requires Sound(s) && Mute(s) && !act.Req?
    ensures var t := Next(s, Do(loop, act)); Mute(t) && OnlyClosed(s.sh.frames, t.sh.frames)
  {
    if Owns(loop, act) {
      QuietSection(s.sh, PcOf(s, loop), act, SeesNext(s, PcOf(s, loop)), s.world.connected);
    }
  }

  lemma SeenIsWantable(s: State, ev: Event)
    requires s.sh.entry.Some? && AcceptsAny(s.sh.entry.value.filters, ev) && Sees(s.policy, s.world, ev)
    ensures Wantable(s.policy, s.sh.entry.value.filters)
  {}

  lemma MuteBroadcast(s: State, ev: Event, fault: bool, ok: bool)
    requires Mute(s)
    ensures var t := Next(s, Broadcast(ev, fault, ok)); Mute(t) && OnlyClosed(s.sh.frames, t.sh.frames)
  {
    if Offered(s.sh, ev, !fault && Sees(s.policy, s.world, ev)) { SeenIsWantable(s, ev); }
  }

  lemma MuteStep(s: State, step: Step)
    requires Sound(s) && Mute(s) && NoReq(s, step)
    ensures var t := Next(s, step); Mute(t) && OnlyClosed(s.sh.frames, t.sh.frames)
  {
    match step {
      case Do(loop, act) => if !act.Req? { MuteSection(s, loop, act); }
      case Broadcast(ev, fault, ok) => MuteBroadcast(s, ev, fault, ok);
      case _ =>
    }
  }

  lemma {:induction false} MuteRun(s: State, steps: seq<Step>)
    requires Sound(s) && Mute(s) && Obeys(Next, s, steps, NoReq)
    ensures OnlyClosed(s.sh.frames, Run(Next, s, steps).sh.frames)
    decreases |steps|
  {
    if steps != [] {
      MuteStep(s, steps[0]);
      SoundStep(s, steps[0]);
      MuteRun(Next(s, steps[0]), steps[1..]);
    }
  }

  // ---- every other state can speak ----------------------------------------------------------------

  lemma SectionGrows(sh: Shared, pc: Pc, act: Act, sees: bool, connected: bool)
    ensures sh.frames <= Section(sh, pc, act, sees, connected).sh.frames
  {}

  lemma FramesGrow(s: State, step: Step)
    ensures s.sh.frames <= Next(s, step).sh.frames
  {
    match step {
      case Do(loop, act) => SectionGrows(s.sh, PcOf(s, loop), act, SeesNext(s, PcOf(s, loop)), s.world.connected);
      case _ =>
    }
  }

  lemma {:induction false} RunGrows(s: State, steps: seq<Step>)
    ensures s.sh.frames <= Run(Next, s, steps).sh.frames
    decreases |steps|
  {
    if steps != [] {
      FramesGrow(s, steps[0]);
      RunGrows(Next(s, steps[0]), steps[1..]);
    }
  }

  /** Another frame than CLOSED can follow. */
  ghost predicate Speaks(s: State) { !OnlyClosedFollows(s) }

  lemma Spoken(s: State, t: State, step: Step, f: Frame)
    requires Leads(s, t) && NoReq(t, step) && f != ClosedMsg && Next(t, step).sh.frames == t.sh.frames + [f]
    ensures Speaks(s)
  {
    var steps: seq<Step> :| Obeys(Next, s, steps, NoReq) && Run(Next, s, steps) == t;
    RunGrows(s, steps);
    ObeysThen(Next, s, steps, step, NoReq);
    RunThen(Next, s, steps, step);
    assert Next(t, step).sh.frames[|t.sh.frames|] == f;
  }

  lemma EosingSpeaks(s: State, t: State, loop: bool)
    requires Leads(s, t) && PcOf(t, loop) == Eosing
    ensures Speaks(s)
  {
    Spoken(s, t, Do(loop, SendEose(true)), Eose);
  }

  lemma PagesSpeak(s: State, t: State, loop: bool)
    requires Leads(s, t)
    requires var pc := PcOf(t, loop); pc.First? || pc.Fetching? || pc.Paging? || pc.Draining? || pc.Eosing?
    ensures Speaks(s)
  {
    var u := ToEosing(s, t, loop);
    EosingSpeaks(s, u, loop);
  }

  lemma FlushSpeaks(s: State, t: State, loop: bool)
    requires Leads(s, t) && PcOf(t, loop).Flushing? && PcOf(t, loop).evs != []
    ensures Speaks(s)
  {
    Spoken(s, t, Do(loop, FlushOne(true)), Live(PcOf(t, loop).evs[0], PcOf(t, loop).n));
  }

  lemma FlushedSpeaks(s: State, t: State, loop: bool)
    requires Leads(s, t) && PcOf(t, loop).Flushing? && EoseOwed(PcOf(t, loop))
    ensures Speaks(s)
  {
    var u := Moves(s, t, loop, FlushOne(true), Eosing);
    EosingSpeaks(s, u, loop);
  }

  lemma DeletingSpeaks(s: State, t: State, loop: bool)
    requires Leads(s, t) && PcOf(t, loop) == Deleting(ThenFinishAndEose)
    ensures Speaks(s)
  {
    var u := Goes(s, t, Do(loop, Delete));
    u := Goes(s, u, Do(loop, Finish));
    FlushedSpeaks(s, u, loop);
  }

  lemma MarkingSpeaks(s: State, loop: bool)
    requires PcOf(s, loop) == Marking(ThenFinishAndEose)
    ensures Speaks(s)
  {
    ReachesSelf(Next, s, NoReq);
    var u := Goes(s, s, Do(loop, Mark));
    DeletingSpeaks(s, u, loop);
  }

  /** FinishSnapshot in a failed drain: it may find the entry of a newer REQ. */
  lemma ClearingSpeaks(s: State, loop: bool)
    requires PcOf(s, loop) == Clearing(ThenFinishAndEose)
    ensures Speaks(s)
  {
    ReachesSelf(Next, s, NoReq);
    var u := Goes(s, s, Do(loop, Finish));
    if PcOf(u, loop).evs == [] { FlushedSpeaks(s, u, loop); } else { FlushSpeaks(s, u, loop); }
  }

  lemma OwedSpeaks(s: State, loop: bool)
    requires EoseOwed(PcOf(s, loop))
    ensures Speaks(s)
  {
    ReachesSelf(Next, s, NoReq);
    match PcOf(s, loop) {
      case Marking(_) => MarkingSpeaks(s, loop);
      case Deleting(_) => DeletingSpeaks(s, s, loop);
      case Clearing(_) => ClearingSpeaks(s, loop);
      case Flushing(_, _, _) => FlushedSpeaks(s, s, loop);
      case Counting(_, _, _, _) =>
        var u := Goes(s, s, Do(loop, Count));
        FlushedSpeaks(s, u, loop);
    }
  }

  lemma CountedSpeaks(s: State, loop: bool)
    requires PcOf(s, loop).Counting? && FlushLeft(PcOf(s, loop))
    ensures Speaks(s)
  {
    ReachesSelf(Next, s, NoReq);
    var u := Goes(s, s, Do(loop, Count));
    FlushSpeaks(s, u, loop);
  }

  lemma UnquietSpeaks(s: State, loop: bool)
    requires !Quiet(PcOf(s, loop))
    ensures Speaks(s)
  {
    ReachesSelf(Next, s, NoReq);
    var pc := PcOf(s, loop);
    if EoseOwed(pc) {
      OwedSpeaks(s, loop);
    } else if pc.Counting? {
      CountedSpeaks(s, loop);
    } else if pc.Flushing? {
      FlushSpeaks(s, s, loop);
    } else {
      PagesSpeak(s, s, loop);
    }
  }

  function AfterFinish(pc: Pc): After { if pc.Clearing? then pc.after else Stop }

  /** The thread at FinishSnapshot takes the buffer. */
  lemma TakesBuffer(s: State, loop: bool) returns (u: State)
    requires Sound(s) && AtFinish(PcOf(s, loop)) && s.sh.entry.Some?
    ensures Leads(s, u) && PcOf(u, loop) == Flushing(s.sh.entry.value.pendingLive, 0, AfterFinish(PcOf(s, loop)))
    ensures u == WithPc(s.(sh := u.sh), loop, PcOf(u, loop)) && u.sh.sender && u.sh.queue == s.sh.queue
    ensures u.sh.entry == Some(Subscriptions.Taken(s.sh.entry.value))
  {
    ReachesSelf(Next, s, NoReq);
    u := Goes(s, s, Do(loop, Finish));
  }

  lemma FlushesSpeaks(s: State)
    requires Sound(s) && Flushes(s)
    ensures Speaks(s)
  {
    var u := TakesBuffer(s, AtFinish(s.loop));
    FlushSpeaks(s, u, AtFinish(s.loop));
  }

  // ---- a broadcast that is meant for the entry can be made visible ----------------------------------

  lemma DeletedShrinks(log: seq<Event>)
    requires log != []
    ensures |EventTables.Deleted(log, log[0].id)| < |log|
  {}

  /** Deletions empty the store: then no group is private. */
  lemma Erases(s: State, t: State) returns (u: State)
    requires Leads(s, t)
    ensures Leads(s, u) && u == t.(world := t.world.(log := []))
    decreases |t.world.log|
  {
    if t.world.log == [] {
      u := t;
    } else {
      DeletedShrinks(t.world.log);
      u := Goes(s, t, StoreOp(EventHistory.Delete(t.world.log[0].id)));
      u := Erases(s, u);
    }
  }

  lemma LowerTwice(s: string)
    ensures Lower(Lower(s)) == Lower(s)
  {}

  lemma ShownTo(s: State, t: State, ev: Event, key: string) returns (u: State)
    requires Leads(s, t) && t.sh.sender && t.world.connected && IsGiftWrap(t.policy, ev) && RecipientKey(ev, key)
    ensures Leads(s, u) && u == t.(world := u.world) && Sees(u.policy, u.world, ev)
  {
    u := Goes(s, t, Auth(key));
    var i :| 0 <= i < |ev.tags| && RecipientTag(ev.tags[i]) && Lower(TrimSpace(ev.tags[i][1])) == key;
    LowerTwice(TrimSpace(ev.tags[i][1]));
    assert key in u.world.authed && RecipientKey(ev, Lower(key));
  }

  lemma Shown(s: State, t: State, ev: Event) returns (u: State)
    requires Leads(s, t) && t.sh.sender && t.world.connected
    requires IsGiftWrap(t.policy, ev) ==> exists key :: RecipientKey(ev, key)
    ensures Leads(s, u) && u == t.(world := u.world) && Sees(u.policy, u.world, ev)
  {
    if IsGiftWrap(t.policy, ev) {
      var key :| RecipientKey(ev, key);
      u := ShownTo(s, t, ev, key);
    } else {
      u := Erases(s, t);
    }
  }

  lemma LiveSpeaks(s: State, t: State)
    requires Leads(s, t) && t.sh.sender && t.world.connected && t.sh.entry.Some?
    requires t.sh.entry.value.snapshotDone && !t.sh.entry.value.closed && Wantable(t.policy, t.sh.entry.value.filters)
    ensures Speaks(s)
  {
    var ev :| AcceptsAny(t.sh.entry.value.filters, ev) &&
      (IsGiftWrap(t.policy, ev) ==> exists key :: RecipientKey(ev, key));
    var u := Shown(s, t, ev);
    assert Offered(u.sh, ev, true);
    Spoken(s, u, Broadcast(ev, false, true), Live(ev, |u.sh.offered|));
  }

  lemma StreamsSpeaks(s: State)
    requires Sound(s) && Streams(s)
    ensures Speaks(s)
  {
    ReachesSelf(Next, s, NoReq);
    if s.sh.entry.value.snapshotDone {
      LiveSpeaks(s, s);
    } else {
      var u := TakesBuffer(s, AtFinish(s.loop));
      LiveSpeaks(s, u);
    }
  }

  // ---- a job that passes for the entry's ------------------------------------------------------------

  lemma TakenSpeaks(s: State, t: State)
    requires Leads(s, t) && t.world.connected && t.worker.Taken? && SameSnapshot(t.sh, t.worker.job.stamp)
    ensures Speaks(s)
  {
    var u := Moves(s, t, false, Check, Fetching(t.worker.job));
    PagesSpeak(s, u, false);
  }

  lemma QueuedSpeaks(s: State, t: State)
    requires Leads(s, t) && t.world.connected && t.worker.Idle? && JobPasses(t)
    ensures Speaks(s)
    decreases |t.sh.queue|
  {
    var u := Goes(s, t, Do(false, Act.Take));
    if SameSnapshot(t.sh, t.sh.queue[0].stamp) {
      TakenSpeaks(s, u);
    } else {
      var i :| 0 <= i < |t.sh.queue| && SameSnapshot(t.sh, t.sh.queue[i].stamp);
      assert u.sh.queue[i - 1] == t.sh.queue[i];
      u := Moves(s, u, false, Check, Idle);
      QueuedSpeaks(s, u);
    }
  }

  lemma FlushEnds(s: State, t: State)
    requires Leads(s, t) && t.world.connected && JobPasses(t) && t.worker.Flushing? && FlushOver(t.worker)
    ensures Speaks(s)
  {
    var u := Moves(s, t, false, FlushOne(true), Idle);
    QueuedSpeaks(s, u);
  }

  /** The worker, quiet and with nothing to remove, comes to look at the job. */
  lemma JobSpeaks(s: State)
    requires Sound(s) && !Flushes(s)
    requires Quiet(s.worker) && !Doomed(s.worker) && JobPasses(s)
    ensures Speaks(s)
  {
    ReachesSelf(Next, s, NoReq);
    match s.worker {
      case Idle => QueuedSpeaks(s, s);
      case Taken(job) =>
        if SameSnapshot(s.sh, job.stamp) {
          TakenSpeaks(s, s);
        } else {
          var u := Moves(s, s, false, Check, Idle);
          QueuedSpeaks(s, u);
        }
      case Finishing =>
        var u := TakesBuffer(s, false);
        FlushEnds(s, u);
      case Clearing(_) =>
        var u := TakesBuffer(s, false);
        FlushEnds(s, u);
      case Flushing(_, _, _) => FlushEnds(s, s);
      case Counting(_, _, _, _) =>
        var u := Goes(s, s, Do(false, Count));
        FlushEnds(s, u);
    }
  }

  /** Exactly from a mute state, nothing but CLOSED follows until the next accepted REQ. */
  lemma OnlyClosedFollowsIff(s: State)
    requires Sound(s)
    ensures OnlyClosedFollows(s) <==> Mute(s)
  {
    if Mute(s) {
      forall steps | Obeys(Next, s, steps, NoReq) ensures OnlyClosed(s.sh.frames, Run(Next, s, steps).sh.frames) {
        MuteRun(s, steps);
      }
    } else if !Quiet(s.loop) {
      UnquietSpeaks(s, true);
    } else if !Quiet(s.worker) {
      UnquietSpeaks(s, false);
    } else if Flushes(s) {
      FlushesSpeaks(s);
    } else if Streams(s) {
      StreamsSpeaks(s);
    } else {
      JobSpeaks(s);
    }
  }

  // ---- CLOSED as the last frame ---------------------------------------------------------------------

  ghost predicate SendsClosed(s: State, step: Step) { Next(s, step).sh.frames == s.sh.frames + [ClosedMsg] }

  /** This thread apart, the state is mute. After a failing page the worker removes the entry before it takes a job. */
  ghost predicate MuteBut(s: State, loop: bool) {
    var t := WithPc(s, loop, Idle);
    Quiet(PcOf(s, !loop)) && !Flushes(t) && !Streams(t) && (!loop || Doomed(s.worker) || !JobPasses(s))
  }

  /** Sent from no drain, and nobody else has anything left to send. */
  ghost predicate ClosedIsSafe(s: State, step: Step) {
    step.Do? && !PcOf(s, step.loop).Draining? && MuteBut(s, step.loop)
  }

  /** The places CLOSED comes from. */
  predicate AnswersClosed(pc: Pc, act: Act) {
    match act
    case Refuse(_) => pc.Idle?
    case CloseMsg(_) => pc.Idle?
    case Part(_) => pc.Parting?
    case FetchFail(_) => pc.First? || pc.Fetching? || pc.Draining?
    case _ => false
  }

  lemma ClosedComesFrom(s: State, step: Step)
    requires SendsClosed(s, step)
    ensures step.Do? && Owns(step.loop, step.act) && AnswersClosed(PcOf(s, step.loop), step.act)
  {
    assert Next(s, step).sh.frames[|s.sh.frames|] == ClosedMsg;
  }

  /** A CLOSED leaves the thread that sends it with nothing more to send, but for the EOSE a drain owes. */
  lemma ClosedMutesIff(s: State, step: Step)
    requires Sound(s) && SendsClosed(s, step)
    ensures Mute(Next(s, step)) <==> ClosedIsSafe(s, step)
  {
    ClosedComesFrom(s, step);
    var t, pc := Next(s, step), PcOf(s, step.loop);
    assert t == WithPc(s.(sh := s.sh.(frames := t.sh.frames)), step.loop, PcOf(t, step.loop));
    assert !pc.Draining? ==> Quiet(PcOf(t, step.loop)) && !AtFinish(PcOf(t, step.loop)) && !PcOf(t, step.loop).Taken?;
    if !step.loop && !pc.Draining? { assert Doomed(t.worker); }
  }

  /** Nothing follows this CLOSED until the next accepted REQ if and only if it was sent from a safe state. */
  lemma ClosedIsLastIff(s: State, step: Step)
    requires Reached(s) && SendsClosed(s, step)
    ensures OnlyClosedFollows(Next(s, step)) <==> ClosedIsSafe(s, step)
  {
    ReachedSound(s);
    SoundStep(s, step);
    OnlyClosedFollowsIff(Next(s, step));
    ClosedMutesIff(s, step);
  }

  // ---- in runs whose REQs obey the rule -----------------------------------------------------------

  /** A thread about to ask for a page, or to send EOSE. */
  predicate AtWork(pc: Pc) { pc.First? || pc.Fetching? || pc.Eosing? }

  /** While one thread is at work the entry is not live, and neither the other nor a job will send for it. */
  lemma WorksAlone(s: State, loop: bool)
    requires Inv(s, false, false) && AtWork(PcOf(s, loop))
    ensures Quiet(PcOf(s, !loop)) && (AtFinish(PcOf(s, !loop)) ==> s.sh.entry.None?)
    ensures s.sh.entry.Some? ==> !s.sh.entry.value.snapshotDone
    ensures Doomed(s.worker) || !JobPasses(s)
  {
    assert Busy(CoreOf(s.sh), PcOf(s, loop)) && !Busy(CoreOf(s.sh), PcOf(s, !loop));
    if !Doomed(s.worker) {
      forall i | 0 <= i < |s.sh.queue| ensures !SameSnapshot(s.sh, s.sh.queue[i].stamp) {
        assert JobFits(CoreOf(s.sh), CoreOf(s.sh).queue[i]);
      }
    }
  }

  /**
   A failed first page, a failed page of the worker, and an EOSE the send queue refuses: the subscription is
   mute from then on, and in the first and the last case its entry stays behind.
   */
  lemma FailureMutes(s: State, loop: bool, ok: bool)
    requires Inv(s, false, false) && AtWork(PcOf(s, loop))
    ensures var t := Next(s, Do(loop, if PcOf(s, loop).Eosing? then SendEose(false) else FetchFail(ok)));
      t.sh.entry == s.sh.entry && Mute(t)
  {
    WorksAlone(s, loop);
  }

  lemma {:induction false} AnyObeys(s: State, steps: seq<Step>)
    ensures Obeys(Next, s, steps, AnyStep)
    decreases |steps|
  {
    if steps != [] { AnyObeys(Next(s, steps[0]), steps[1..]); }
  }

  lemma RuledIsReached(s: State, inOrder: bool)
    requires Reachable(s, inOrder, false)
    ensures Reached(s)
  {
    var now, log, policy :| Reaches(Next, Fresh(now, log, policy), s, Rule(inOrder, false));
    var start := Fresh(now, log, policy);
    var steps: seq<Step> :| Obeys(Next, start, steps, Rule(inOrder, false)) && Run(Next, start, steps) == s;
    AnyObeys(start, steps);
  }

  /** There a failed page is safe unless it is a drain's, and any other CLOSED exactly from a mute state. */
  lemma RuledClosedIsLastIff(s: State, step: Step)
    requires Reachable(s, false, false) && SendsClosed(s, step)
    ensures OnlyClosedFollows(Next(s, step)) <==>
      if step.Do? && step.act.FetchFail? then !PcOf(s, step.loop).Draining? else Mute(s)
  {
    ReachableInv(s, false, false);
    RuledIsReached(s, false);
    ClosedIsLastIff(s, step);
    ClosedComesFrom(s, step);
    if step.act.FetchFail? {
      if !PcOf(s, step.loop).Draining? { WorksAlone(s, step.loop); }
    } else {
      assert WithPc(s, true, Idle) == s.(loop := Idle);
    }
  }

  // ---- over whole runs ------------------------------------------------------------------------------

  /** What a client has heard since the last REQ: Wrong once another frame came after CLOSED. */
  datatype Heard = Speaking | Shut | Wrong

  function Hear(h: Heard, f: Frame): Heard {
    if h == Wrong then Wrong
    else match f
      case Opened => Speaking
      case ClosedMsg => Shut
      case _ => if h == Shut then Wrong else h
  }

  function HeardOf(frames: seq<Frame>): Heard {
    if frames == [] then Speaking else Hear(HeardOf(frames[..|frames| - 1]), frames[|frames| - 1])
  }

  /** CLOSED is sent only where it is the last frame. */
  ghost predicate ClosedRule(s: State, step: Step) { SendsClosed(s, step) ==> ClosedIsSafe(s, step) }

  lemma OneFrameSection(sh: Shared, pc: Pc, act: Act, sees: bool, connected: bool)
    ensures var frames := Section(sh, pc, act, sees, connected).sh.frames;
      frames == sh.frames || (|frames| == |sh.frames| + 1 && frames == sh.frames + [frames[|sh.frames|]])
  {}

  /** A step sends at most one frame. */
  lemma OneFrame(s: State, step: Step)
    ensures var frames := Next(s, step).sh.frames;
      frames == s.sh.frames || (|frames| == |s.sh.frames| + 1 && frames == s.sh.frames + [frames[|s.sh.frames|]])
  {
    match step {
      case Do(loop, act) => OneFrameSection(s.sh, PcOf(s, loop), act, SeesNext(s, PcOf(s, loop)), s.world.connected);
      case _ =>
    }
  }

  ghost predicate HeardInv(s: State) {
    Sound(s) && HeardOf(s.sh.frames) != Wrong && (HeardOf(s.sh.frames) == Shut ==> Mute(s))
  }

  lemma HeardNext(frames: seq<Frame>, f: Frame)
    ensures HeardOf(frames + [f]) == Hear(HeardOf(frames), f)
  {
    assert (frames + [f])[..|frames|] == frames;
  }

  lemma ReqOpens(s: State, step: Step)
    requires !NoReq(s, step)
    ensures Next(s, step) == s || Next(s, step).sh.frames == s.sh.frames + [Opened]
  {}

  /** A mute state that sends no CLOSED sends nothing. */
  lemma ClosedOrNothing(s: State, step: Step)
    requires OnlyClosed(s.sh.frames, Next(s, step).sh.frames)
    ensures SendsClosed(s, step) || Next(s, step).sh.frames == s.sh.frames
  {
    OneFrame(s, step);
  }

  lemma HearsOn(frames: seq<Frame>, more: seq<Frame>)
    requires HeardOf(frames) == Speaking && more != frames + [ClosedMsg]
    requires more == frames || (|more| == |frames| + 1 && more == frames + [more[|frames|]])
    ensures HeardOf(more) == Speaking
  {
    if more != frames {
      var f := more[|frames|];
      HeardNext(frames, f);
      assert f != ClosedMsg;
    }
  }

  lemma StaysShut(s: State, step: Step)
    requires Sound(s) && Mute(s) && NoReq(s, step) && !SendsClosed(s, step)
    ensures Mute(Next(s, step)) && Next(s, step).sh.frames == s.sh.frames
  {
    MuteStep(s, step);
    ClosedOrNothing(s, step);
  }

  /** The step sends no CLOSED: either it is silent and stays mute, or the client may hear it. */
  lemma HeardUnclosed(s: State, t: State, step: Step)
    requires HeardInv(s) && t == Next(s, step) && Sound(t) && !SendsClosed(s, step)
    ensures HeardInv(t)
  {
    if !NoReq(s, step) {
      ReqOpens(s, step);
      HeardNext(s.sh.frames, Opened);
    } else if HeardOf(s.sh.frames) == Shut {
      StaysShut(s, step);
    } else {
      OneFrame(s, step);
      HearsOn(s.sh.frames, t.sh.frames);
    }
  }

  lemma HeardStep(s: State, step: Step)
    requires HeardInv(s) && ClosedRule(s, step)
    ensures HeardInv(Next(s, step))
  {
    SoundStep(s, step);
    if SendsClosed(s, step) {
      ClosedMutesIff(s, step);
      HeardNext(s.sh.frames, ClosedMsg);
    } else {
      HeardUnclosed(s, Next(s, step), step);
    }
  }

  lemma {:induction false} HeardRun(s: State, steps: seq<Step>)
    requires HeardInv(s) && Obeys(Next, s, steps, ClosedRule)
    ensures HeardInv(Run(Next, s, steps))
    decreases |steps|
  {
    if steps != [] {
      HeardStep(s, steps[0]);
      HeardRun(Next(s, steps[0]), steps[1..]);
    }
  }

  /** Where each CLOSED is sent from a safe state, nothing but CLOSED ever follows one until the next accepted REQ. */
  lemma NothingFollowsClosed(now: int, log: seq<Event>, policy: Policy, steps: seq<Step>)
    requires Obeys(Next, Fresh(now, log, policy), steps, ClosedRule)
    ensures HeardOf(Run(Next, Fresh(now, log, policy), steps).sh.frames) != Wrong
  {
    HeardRun(Fresh(now, log, policy), steps);
  }

  // ---- the failing inputs are reachable -------------------------------------------------------------

  lemma Steps(s: State, step: Step) returns (t: State)
    requires Reached(s)
    ensures t == Next(s, step) && Reached(t)
  {
    var now, log, policy :| Reaches(Next, Fresh(now, log, policy), s, AnyStep);
    ReachesThen(Next, Fresh(now, log, policy), s, AnyStep, step);
    t := Next(s, step);
  }

  /** With the reader queue full the read loop drains the rest itself; a query error there owes its EOSE. */
  lemma DrainErrorSpeaks(now: int, log: seq<Event>, policy: Policy, filters: seq<NFilter>) returns (s: State)
    ensures Reached(s) && s.loop == Draining
    ensures SendsClosed(s, Do(true, FetchFail(true))) && !OnlyClosedFollows(Next(s, Do(true, FetchFail(true))))
  {
    s := Opens(now, log, policy, filters, false);
    RuledIsReached(s, false);
    s := Steps(s, Do(true, Fetch([], true)));
    s := Steps(s, Do(true, Turn(true)));
    ClosedIsLastIff(s, Do(true, FetchFail(true)));
  }

  /** The worker is inside the job of the subscription. */
  lemma InsideJob(now: int, log: seq<Event>, policy: Policy, filters: seq<NFilter>) returns (s: State)
    ensures Reached(s) && s.loop == Idle && s.worker == Fetching(Job(now, 1)) && s.sh.sender && s.sh.entry.Some?
  {
    s := Queued(now, log, policy, filters);
    RuledIsReached(s, false);
    s := Steps(s, Do(false, Act.Take));
    s := Steps(s, Do(false, Check));
  }

  /** The client closes while the worker is inside the job of the subscription. */
  lemma CloseDuringJobSpeaks(now: int, log: seq<Event>, policy: Policy, filters: seq<NFilter>) returns (s: State)
    ensures Reached(s) && s.loop == Idle && s.worker == Fetching(Job(now, 1))
    ensures SendsClosed(s, Do(true, CloseMsg(true))) && !OnlyClosedFollows(Next(s, Do(true, CloseMsg(true))))
  {
    s := InsideJob(now, log, policy, filters);
    ClosedIsLastIff(s, Do(true, CloseMsg(true)));
  }

  /** The connection is torn down while the worker is inside the job. */
  lemma TeardownDuringJobSpeaks(now: int, log: seq<Event>, policy: Policy, filters: seq<NFilter>) returns (s: State)
    ensures Reached(s) && s.loop == Parting && s.worker == Fetching(Job(now, 1)) && s.sh.entry.None? && !s.sh.sender
    ensures SendsClosed(s, Do(true, Part(true))) && !OnlyClosedFollows(Next(s, Do(true, Part(true))))
  {
    s := InsideJob(now, log, policy, filters);
    s := Steps(s, Disconnect);
    ClosedIsLastIff(s, Do(true, Part(true)));
  }

  /** A REQ of the same second as the queued job of the one before: its first page fails, and the job goes on. */
  lemma FirstPageFailsBesideJobSpeaks(now: int, log: seq<Event>, policy: Policy, filters: seq<NFilter>)
    returns (s: State)
    ensures Reached(s) && s.loop == First && s.sh.queue == [Job(now, 1)] && s.sh.entry == Some(NewEntry(filters, now))
    ensures SendsClosed(s, Do(true, FetchFail(true))) && !OnlyClosedFollows(Next(s, Do(true, FetchFail(true))))
  {
    s := Queued(now, log, policy, filters);
    RuledIsReached(s, false);
    s := Steps(s, Do(true, Req(filters)));
    assert SameSnapshot(s.sh, s.sh.queue[0].stamp);
    ClosedIsLastIff(s, Do(true, FetchFail(true)));
  }

  lemma FlushDone(s: State) returns (t: State)
    requires Reachable(s, true, false) && s.loop == Flushing([], 0, Stop)
    ensures Reachable(t, true, false) && t == s.(loop := Idle)
  {
    Continues(s, Do(true, FlushOne(true)), true);
    t := Next(s, Do(true, FlushOne(true)));
  }

  /** A live subscription to everything. */
  lemma GoesLive(now: int, log: seq<Event>, policy: Policy) returns (s: State)
    ensures Reached(s) && s.loop == Idle && s == Fresh(now, log, policy).(sh := s.sh) && s.sh.sender
    ensures s.sh.queue == [] && s.sh.entry == Some(Subscriptions.Taken(NewEntry([Everything()], now))) && Streams(s)
  {
    s := Opens(now, log, policy, [Everything()], true);
    s := Emptied(s);
    s := Drained(s);
    s := FlushDone(s);
    RuledIsReached(s, true);
    EverythingStreams(s);
  }

  lemma EverythingStreams(s: State)
    requires s.sh.entry.Some? && s.sh.entry.value.snapshotDone && !s.sh.entry.value.closed
    requires s.sh.entry.value.filters == [Everything()]
    ensures Streams(s)
  {
    EverythingAccepts(Note());
  }

  /** The client closes a live subscription: until the entry is marked, a broadcast still reaches it. */
  lemma CloseWhileLiveSpeaks(now: int, log: seq<Event>, policy: Policy) returns (s: State)
    ensures Reached(s) && s.loop == s.worker == Idle && s.sh.queue == []
    ensures SendsClosed(s, Do(true, CloseMsg(true))) && !OnlyClosedFollows(Next(s, Do(true, CloseMsg(true))))
  {
    s := GoesLive(now, log, policy);
    ClosedIsLastIff(s, Do(true, CloseMsg(true)));
  }

  /** A REQ for the sub id of a live subscription is refused: the live entry goes on. */
  lemma RefusedReqSpeaks(now: int, log: seq<Event>, policy: Policy) returns (s: State)
    ensures Reached(s) && s.loop == s.worker == Idle && s.sh.queue == []
    ensures SendsClosed(s, Do(true, Refuse(true))) && !OnlyClosedFollows(Next(s, Do(true, Refuse(true))))
    ensures Next(s, Do(true, Refuse(true))).sh.entry == s.sh.entry
  {
    s := GoesLive(now, log, policy);
    ClosedIsLastIff(s, Do(true, Refuse(true)));
  }
}
