/**
 What a snapshot holds when its EOSE is sent: every event of every page fetched for the REQ was sent, found
 invisible, or refused by the send queue, and the last page said that there is no more (internal/relay/nip01.go,
 internal/relay/readqueue.go, internal/relay/req_query.go).
 */
module DeliverySnapshot {
  import opened Base
  import opened Runs
  import opened Nostr
  import opened Subscriptions
  import opened Visibility
  import opened Delivery
  import opened DeliveryOrder
  import opened DeliveryRuns
  import opened ReqQuery
  import opened ReqPager
  import opened ReqSnapshot

  // ---- the observer -----------------------------------------------------------------------------------

  /** What became of one event of a page. */
  datatype Handled = Handed(ev: Event) | Unseen(ev: Event) | NotTaken(ev: Event)

  /** What an observer of the steps notes since the last accepted REQ. drainFailed: a query of the drain failed. */
  datatype Book = Book(pages: seq<Page>, handled: seq<Handled>, drainFailed: bool)

  const BLANK := Book([], [], false)

  predicate Fetches(pc: Pc) { pc.First? || pc.Fetching? || pc.Draining? }

  /** The next event of this thread's page has not been checked yet. */
  predicate Unchecked(pc: Pc) { pc.Paging? && pc.evs != [] && !pc.cleared }

  predicate ReadyToSend(pc: Pc) { pc.Paging? && pc.evs != [] && pc.cleared }

  /** A page fetched, an event found invisible, sent or refused, a drain that failed; sees: the event may be seen. */
  function NotedAct(b: Book, pc: Pc, act: Act, sees: bool): Book {
    match act
    case Fetch(evs, more) => if Fetches(pc) then b.(pages := b.pages + [Page(evs, more)]) else b
    case FetchFail(_) => if pc.Draining? then b.(drainFailed := true) else b
    case Look(fault) =>
      if Unchecked(pc) && (fault || !sees) then b.(handled := b.handled + [Unseen(pc.evs[0])]) else b
    case Send(ok) =>
      if ReadyToSend(pc) then b.(handled := b.handled + [if ok then Handed(pc.evs[0]) else NotTaken(pc.evs[0])]) else b
    case _ => b
  }

  ghost function Noted(b: Book, s: State, step: Step): Book {
    if Next(s, step).sh.frames == s.sh.frames + [Opened] then BLANK
    else if step.Do? && Owns(step.loop, step.act) then
      NotedAct(b, PcOf(s, step.loop), step.act, SeesNext(s, PcOf(s, step.loop)))
    else b
  }

  ghost function BookOf(s: State, b: Book, steps: seq<Step>): Book
    decreases |steps|
  {
    if steps == [] then b else BookOf(Next(s, steps[0]), Noted(b, s, steps[0]), steps[1..])
  }

  function EventsOf(handled: seq<Handled>): seq<Event> { Map(handled, (h: Handled) => h.ev) }

  function HandedOf(handled: seq<Handled>): seq<Event> {
    if handled == [] then []
    else
      var n := |handled| - 1;
      HandedOf(handled[..n]) + if handled[n].Handed? then [handled[n].ev] else []
  }

  function SnapsAfter(snaps: seq<Event>, f: Frame): seq<Event> {
    if f.Opened? then [] else if f.Snap? then snaps + [f.ev] else snaps
  }

  /** The stored events sent since the last accepted REQ. */
  function SnapsOf(frames: seq<Frame>): seq<Event> {
    if frames == [] then [] else SnapsAfter(SnapsOf(frames[..|frames| - 1]), frames[|frames| - 1])
  }

  // ---- the invariant ----------------------------------------------------------------------------------

  /** All that was fetched is dealt with. */
  predicate AllHandled(b: Book) { Flat(b.pages) == EventsOf(b.handled) }

  predicate SaidMore(b: Book) { b.pages != [] && b.pages[|b.pages| - 1].more }

  predicate SaidNoMore(b: Book) { b.pages != [] && !b.pages[|b.pages| - 1].more }

  predicate OwesEose(pc: Pc) {
    match pc
    case Marking(after) => after == ThenFinishAndEose
    case Deleting(after) => after == ThenFinishAndEose
    case Clearing(after) => after == ThenFinishAndEose
    case Flushing(_, _, after) => after == ThenFinishAndEose
    case Counting(_, _, _, after) => after == ThenFinishAndEose
    case _ => false
  }

  /** What the place of a thread at work on the current REQ says of the book. */
  predicate PcBook(k: Core, pc: Pc, b: Book) {
    match pc
    case Taken(job) => job.inst == k.inst ==> AllHandled(b) && SaidMore(b)
    case First => b == BLANK
    case Fetching(_) => AllHandled(b) && SaidMore(b)
    case Draining => AllHandled(b) && SaidMore(b)
    case Paging(evs, more, _, _) =>
      b.pages != [] && b.pages[|b.pages| - 1].more == more && Flat(b.pages) == EventsOf(b.handled) + evs
    case Eosing => AllHandled(b) && (b.drainFailed || SaidNoMore(b))
    case _ => OwesEose(pc) ==> AllHandled(b) && b.drainFailed
  }

  predicate Booked(k: Core, a: Pc, b: Pc, book: Book) {
    PcBook(k, a, book) && PcBook(k, b, book) && (HasJob(k) ==> AllHandled(book) && SaidMore(book))
  }

  /** A thread that is not at work on the current REQ says nothing of the book. */
  lemma IdleSaysNothing(k: Core, pc: Pc, b: Book)
    requires !Busy(k, pc)
    ensures PcBook(k, pc, b)
  {}

  lemma HandledNext(b: Book, pc: Pc, h: Handled)
    requires pc.Paging? && pc.evs != [] && h.ev == pc.evs[0] && Flat(b.pages) == EventsOf(b.handled) + pc.evs
    ensures Flat(b.pages) == EventsOf(b.handled + [h]) + pc.evs[1..]
  {
    assert EventsOf(b.handled + [h]) == EventsOf(b.handled) + [h.ev];
    assert pc.evs == [pc.evs[0]] + pc.evs[1..];
  }

  lemma FetchedNext(b: Book, page: Page)
    requires AllHandled(b)
    ensures var t := b.(pages := b.pages + [page]);
      Flat(t.pages) == EventsOf(t.handled) + page.evs && t.pages[|t.pages| - 1] == page
  {
    FlatNext(b.pages, page);
  }

  lemma FetchBooked(sh: Shared, pc: Pc, evs: seq<Event>, more: bool, sees: bool, b: Book)
    requires PcBook(CoreOf(sh), pc, b) && (pc.Fetching? ==> pc.job.inst == sh.inst)
    ensures PcBook(CoreOf(sh), Fetched(sh, pc, evs, more).pc, NotedAct(b, pc, Fetch(evs, more), sees))
  {
    if Fetches(pc) {
      assert AllHandled(BLANK);
      FetchedNext(b, Page(evs, more));
    }
  }

  lemma LookBooked(sh: Shared, pc: Pc, fault: bool, sees: bool, b: Book)
    requires PcBook(CoreOf(sh), pc, b)
    ensures PcBook(CoreOf(sh), Looked(sh, pc, sees && !fault).pc, NotedAct(b, pc, Look(fault), sees))
  {
    if Unchecked(pc) { HandledNext(b, pc, Unseen(pc.evs[0])); }
  }

  lemma SendBooked(sh: Shared, pc: Pc, ok: bool, sees: bool, b: Book)
    requires PcBook(CoreOf(sh), pc, b)
    ensures PcBook(CoreOf(Sent(sh, pc, ok).sh), Sent(sh, pc, ok).pc, NotedAct(b, pc, Send(ok), sees))
  {
    if ReadyToSend(pc) { HandledNext(b, pc, if ok then Handed(pc.evs[0]) else NotTaken(pc.evs[0])); }
  }

  predicate OfPages(act: Act) { act.Fetch? || act.Look? || act.Send? }

  lemma TakeBooked(sh: Shared, pc: Pc, b: Book)
    requires PcBook(CoreOf(sh), pc, b) && (HasJob(CoreOf(sh)) ==> AllHandled(b) && SaidMore(b))
    ensures PcBook(CoreOf(Took(sh, pc).sh), Took(sh, pc).pc, b)
  {
    if pc.Idle? && sh.queue != [] && sh.queue[0].inst == sh.inst {
      assert CoreOf(sh).queue[0].inst == CoreOf(sh).inst;
    }
  }

  lemma TurnBooked(sh: Shared, pc: Pc, full: bool, b: Book)
    requires PcBook(CoreOf(sh), pc, b)
    ensures PcBook(CoreOf(Delivery.Turned(sh, pc, full).sh), Delivery.Turned(sh, pc, full).pc, b)
  {
    if pc.Paging? && pc.evs == [] { assert EventsOf(b.handled) + pc.evs == EventsOf(b.handled); }
  }

  lemma FailBooked(sh: Shared, pc: Pc, ok: bool, sees: bool, b: Book)
    requires PcBook(CoreOf(sh), pc, b)
    ensures PcBook(CoreOf(FetchFailed(sh, pc, ok).sh), FetchFailed(sh, pc, ok).pc, NotedAct(b, pc, FetchFail(ok), sees))
  {}

  /** The acts that leave the book alone. */
  lemma OtherBooked(sh: Shared, pc: Pc, act: Act, sees: bool, connected: bool, b: Book, p: Phase)
    requires PcFits(CoreOf(sh), pc, p) && PcBook(CoreOf(sh), pc, b)
    requires !OfPages(act) && !act.Req? && !act.Take? && !act.Turn? && !act.FetchFail?
    ensures var o := Section(sh, pc, act, sees, connected); PcBook(CoreOf(o.sh), o.pc, b)
  {
    if act.Finish? || act.FlushOne? || act.Count? || act.Mark? || act.Delete? {
      EndBooked(sh, pc, act, sees, connected, b);
    } else {
      ElseBooked(sh, pc, act, sees, connected, b, p);
    }
  }

  lemma EndBooked(sh: Shared, pc: Pc, act: Act, sees: bool, connected: bool, b: Book)
    requires PcBook(CoreOf(sh), pc, b) && (act.Finish? || act.FlushOne? || act.Count? || act.Mark? || act.Delete?)
    ensures var o := Section(sh, pc, act, sees, connected); PcBook(CoreOf(o.sh), o.pc, b)
  {}

  lemma ElseBooked(sh: Shared, pc: Pc, act: Act, sees: bool, connected: bool, b: Book, p: Phase)
    requires PcFits(CoreOf(sh), pc, p) && PcBook(CoreOf(sh), pc, b)
    requires OfClient(act) || act.Check? || act.GiveUp? || act.SendEose?
    requires !act.Req?
    ensures var o := Section(sh, pc, act, sees, connected); PcBook(CoreOf(o.sh), o.pc, b)
  {}

  lemma SameInst(sh: Shared, pc: Pc, act: Act, sees: bool, connected: bool)
    requires !act.Req?
    ensures Section(sh, pc, act, sees, connected).sh.inst == sh.inst
  {}

  lemma SectionBooked(sh: Shared, pc: Pc, act: Act, sees: bool, connected: bool, b: Book, p: Phase)
    requires PcFits(CoreOf(sh), pc, p) && PcBook(CoreOf(sh), pc, b) && !act.Req?
    requires act.Take? ==> (HasJob(CoreOf(sh)) ==> AllHandled(b) && SaidMore(b))
    ensures var o := Section(sh, pc, act, sees, connected);
      PcBook(CoreOf(o.sh), o.pc, NotedAct(b, pc, act, sees)) && o.sh.inst == sh.inst
  {
    SameInst(sh, pc, act, sees, connected);
    match act {
      case Take => TakeBooked(sh, pc, b);
      case Turn(full) => TurnBooked(sh, pc, full, b);
      case FetchFail(ok) => FailBooked(sh, pc, ok, sees, b);
      case Fetch(evs, more) => FetchBooked(sh, pc, evs, more, sees, b);
      case Look(fault) => LookBooked(sh, pc, fault, sees, b);
      case Send(ok) => SendBooked(sh, pc, ok, sees, b);
      case _ => OtherBooked(sh, pc, act, sees, connected, b, p);
    }
  }

  /** Only a thread at work on the current REQ changes the book. */
  lemma NotedByBusy(k: Core, pc: Pc, act: Act, sees: bool, b: Book)
    requires NotedAct(b, pc, act, sees) != b
    ensures Busy(k, pc)
  {}

  /** The jobs of the current REQ after a section: those there were, but for one taken, and one queued at a page's end. */
  lemma SectionJobs(sh: Shared, pc: Pc, act: Act, sees: bool, connected: bool, b: Book)
    requires PcBook(CoreOf(sh), pc, b) && !act.Req?
    ensures var o := Section(sh, pc, act, sees, connected);
      HasJob(CoreOf(o.sh)) ==> HasJob(CoreOf(sh)) || (act.Turn? && AllHandled(b) && SaidMore(b))
  {
    SameInst(sh, pc, act, sees, connected);
    match act {
      case Take => TakeJobs(sh, pc);
      case Turn(full) =>
        if pc.Paging? && pc.evs == [] { assert EventsOf(b.handled) + pc.evs == EventsOf(b.handled); }
        SameJobs(sh, Delivery.Turned(sh, pc, full).sh);
      case _ =>
        SameQueue(sh, pc, act, sees, connected);
        SameJobs(sh, Section(sh, pc, act, sees, connected).sh);
    }
  }

  lemma SameJobs(sh: Shared, sh': Shared)
    requires sh'.inst == sh.inst
    ensures sh'.queue == sh.queue ==> (HasJob(CoreOf(sh')) <==> HasJob(CoreOf(sh)))
  {
    assert CoreOf(sh').queue == sh'.queue && CoreOf(sh).queue == sh.queue;
  }

  lemma TakeJobs(sh: Shared, pc: Pc)
    ensures HasJob(CoreOf(Took(sh, pc).sh)) ==> HasJob(CoreOf(sh))
  {
    var t := Took(sh, pc).sh;
    if HasJob(CoreOf(t)) {
      var i :| 0 <= i < |t.queue| && CoreOf(t).queue[i].inst == CoreOf(t).inst;
      assert CoreOf(sh).queue[if t.queue == sh.queue then i else i + 1].inst == CoreOf(sh).inst;
    }
  }

  lemma SameQueue(sh: Shared, pc: Pc, act: Act, sees: bool, connected: bool)
    requires !act.Take? && !act.Turn?
    ensures Section(sh, pc, act, sees, connected).sh.queue == sh.queue
  {}

  /** The other thread, and the jobs, say the same after a section. */
  lemma OthersBooked(sh: Shared, pc: Pc, other: Pc, act: Act, sees: bool, connected: bool, b: Book, p: Phase)
    requires Healthy(CoreOf(sh), pc, other, p) && Booked(CoreOf(sh), pc, other, b) && !act.Req?
    ensures var o := Section(sh, pc, act, sees, connected);
      && PcBook(CoreOf(sh), other, NotedAct(b, pc, act, sees))
      && (HasJob(CoreOf(sh)) ==> AllHandled(NotedAct(b, pc, act, sees)) && SaidMore(NotedAct(b, pc, act, sees)))
  {
    if NotedAct(b, pc, act, sees) != b {
      NotedByBusy(CoreOf(sh), pc, act, sees, b);
      IdleSaysNothing(CoreOf(sh), other, NotedAct(b, pc, act, sees));
    }
  }

  lemma ThreadBooked(sh: Shared, pc: Pc, other: Pc, act: Act, sees: bool, connected: bool, b: Book, p: Phase)
    requires Healthy(CoreOf(sh), pc, other, p) && Booked(CoreOf(sh), pc, other, b) && !act.Req?
    ensures var o := Section(sh, pc, act, sees, connected);
      Booked(CoreOf(o.sh), o.pc, other, NotedAct(b, pc, act, sees))
  {
    SectionBooked(sh, pc, act, sees, connected, b, p);
    OthersBooked(sh, pc, other, act, sees, connected, b, p);
    SectionJobs(sh, pc, act, sees, connected, b);
  }

  lemma ReqBooked(s: State, filters: seq<NFilter>, b: Book)
    requires Inv(s, false, false) && Booked(CoreOf(s.sh), s.loop, s.worker, b)
    requires s.loop.Idle? ==> ReqRule(s.sh, s.worker)
    ensures var t := Next(s, Do(true, Req(filters)));
      Booked(CoreOf(t.sh), t.loop, t.worker, Noted(b, s, Do(true, Req(filters))))
  {
    var p := PhaseOf(s.sh.frames, false);
    if s.loop.Idle? && s.sh.sender {
      var t := Next(s, Do(true, Req(filters)));
      AddedThread(s.sh, s.worker, p);
      AddedQueue(CoreOf(s.sh), s.sh.now, Doomed(s.worker));
      assert CoreOf(t.sh) == Core(Some(s.sh.now), false, s.sh.queue, s.sh.inst + 1);
      IdleSaysNothing(CoreOf(t.sh), s.worker, BLANK);
    }
  }

  lemma NoOpened(s: State, step: Step)
    requires !(step.Do? && step.loop && step.act.Req?)
    ensures Next(s, step).sh.frames != s.sh.frames + [Opened]
  {
    match step {
      case Do(loop, act) =>
        if Owns(loop, act) { NothingOpens(s.sh, PcOf(s, loop), act, SeesNext(s, PcOf(s, loop)), s.world.connected); }
      case Broadcast(_, _, _) =>
        var more := Next(s, step).sh.frames;
        assert more != s.sh.frames ==> more[|s.sh.frames|].Live?;
      case _ =>
    }
  }

  lemma NothingOpens(sh: Shared, pc: Pc, act: Act, sees: bool, connected: bool)
    requires !act.Req?
    ensures Section(sh, pc, act, sees, connected).sh.frames != sh.frames + [Opened]
  {
    if act.Send? {
      assert Sent(sh, pc, act.ok).sh.frames != sh.frames ==> Sent(sh, pc, act.ok).sh.frames[|sh.frames|].Snap?;
    } else {
      OneMoreFrame(sh, pc, act, sees, connected);
    }
  }

  lemma ActBooked(s: State, loop: bool, act: Act, b: Book)
    requires Inv(s, false, false) && Booked(CoreOf(s.sh), s.loop, s.worker, b) && !act.Req?
    ensures var t := Next(s, Do(loop, act)); Booked(CoreOf(t.sh), t.loop, t.worker, Noted(b, s, Do(loop, act)))
  {
    NoOpened(s, Do(loop, act));
    if Owns(loop, act) {
      var p := PhaseOf(s.sh.frames, false);
      ThreadBooked(s.sh, PcOf(s, loop), PcOf(s, !loop), act, SeesNext(s, PcOf(s, loop)), s.world.connected, b, p);
    }
  }

  /** Steps of neither thread change nothing the book speaks of. */
  lemma OutsideBooked(s: State, step: Step, b: Book)
    requires Booked(CoreOf(s.sh), s.loop, s.worker, b) && !step.Do?
    ensures var t := Next(s, step); Booked(CoreOf(t.sh), t.loop, t.worker, Noted(b, s, step))
  {
    NoOpened(s, step);
    var t := Next(s, step);
    assert CoreOf(t.sh).queue == CoreOf(s.sh).queue && CoreOf(t.sh).inst == CoreOf(s.sh).inst;
  }

  lemma StepBooked(s: State, step: Step, b: Book)
    requires Inv(s, false, false) && Rule(false, false)(s, step) && Booked(CoreOf(s.sh), s.loop, s.worker, b)
    ensures var t := Next(s, step); Booked(CoreOf(t.sh), t.loop, t.worker, Noted(b, s, step))
  {
    if step.Do? && step.act.Req? {
      if step.loop { ReqBooked(s, step.act.filters, b); } else { NoOpened(s, step); }
    } else if step.Do? {
      ActBooked(s, step.loop, step.act, b);
    } else {
      OutsideBooked(s, step, b);
    }
  }

  lemma {:induction false} RunBooked(s: State, b: Book, steps: seq<Step>)
    requires Inv(s, false, false) && Obeys(Next, s, steps, Rule(false, false)) && Booked(CoreOf(s.sh), s.loop, s.worker, b)
    ensures var t := Run(Next, s, steps); Inv(t, false, false) && Booked(CoreOf(t.sh), t.loop, t.worker, BookOf(s, b, steps))
    decreases |steps|
  {
    if steps != [] {
      StepKeeps(s, steps[0], false, false);
      StepBooked(s, steps[0], b);
      RunBooked(Next(s, steps[0]), Noted(b, s, steps[0]), steps[1..]);
    }
  }

  // ---- what was sent is what the client has -------------------------------------------------------------

  lemma SnapsNext(frames: seq<Frame>, f: Frame)
    ensures SnapsOf(frames + [f]) == SnapsAfter(SnapsOf(frames), f)
  {
    assert (frames + [f])[..|frames|] == frames;
  }

  lemma HandedNext(handled: seq<Handled>, h: Handled)
    ensures h.Handed? ==> HandedOf(handled + [h]) == HandedOf(handled) + [h.ev]
    ensures !h.Handed? ==> HandedOf(handled + [h]) == HandedOf(handled)
  {
    assert (handled + [h])[..|handled|] == handled;
    assert HandedOf(handled) + [] == HandedOf(handled);
  }

  /** The frame a section sends, and what is noted of it. */
  lemma SectionSnaps(sh: Shared, pc: Pc, act: Act, sees: bool, connected: bool, b: Book)
    requires SnapsOf(sh.frames) == HandedOf(b.handled) && !act.Req?
    ensures SnapsOf(Section(sh, pc, act, sees, connected).sh.frames) == HandedOf(NotedAct(b, pc, act, sees).handled)
  {
    match act {
      case Send(ok) => SendSnaps(sh, pc, ok, sees, b);
      case Look(fault) => if Unchecked(pc) { HandedNext(b.handled, Unseen(pc.evs[0])); }
      case _ => OtherSnaps(sh, pc, act, sees, connected);
    }
  }

  lemma SendSnaps(sh: Shared, pc: Pc, ok: bool, sees: bool, b: Book)
    requires SnapsOf(sh.frames) == HandedOf(b.handled)
    ensures SnapsOf(Sent(sh, pc, ok).sh.frames) == HandedOf(NotedAct(b, pc, Send(ok), sees).handled)
  {
    if ReadyToSend(pc) && ok {
      HandedNext(b.handled, Handed(pc.evs[0]));
      SnapsNext(sh.frames, Snap(pc.evs[0]));
      assert Sent(sh, pc, ok).sh.frames == sh.frames + [Snap(pc.evs[0])];
    } else if ReadyToSend(pc) {
      HandedNext(b.handled, NotTaken(pc.evs[0]));
    }
  }

  lemma OtherSnaps(sh: Shared, pc: Pc, act: Act, sees: bool, connected: bool)
    requires !act.Send? && !act.Req?
    ensures SnapsOf(Section(sh, pc, act, sees, connected).sh.frames) == SnapsOf(sh.frames)
  {
    var more := Section(sh, pc, act, sees, connected).sh.frames;
    if more != sh.frames {
      OneMoreFrame(sh, pc, act, sees, connected);
      SnapsNext(sh.frames, more[|sh.frames|]);
    }
  }

  lemma OneMoreFrame(sh: Shared, pc: Pc, act: Act, sees: bool, connected: bool)
    requires !act.Send? && !act.Req?
    ensures var more := Section(sh, pc, act, sees, connected).sh.frames;
      more != sh.frames ==>
      |more| == |sh.frames| + 1 && more == sh.frames + [more[|sh.frames|]] &&
      !more[|sh.frames|].Snap? && !more[|sh.frames|].Opened?
  {}

  lemma ReqSnaps(s: State, filters: seq<NFilter>, b: Book)
    requires SnapsOf(s.sh.frames) == HandedOf(b.handled)
    ensures var step := Do(true, Req(filters));
      SnapsOf(Next(s, step).sh.frames) == HandedOf(Noted(b, s, step).handled)
  {
    SnapsNext(s.sh.frames, Opened);
  }

  lemma StepSnaps(s: State, step: Step, b: Book)
    requires SnapsOf(s.sh.frames) == HandedOf(b.handled)
    ensures SnapsOf(Next(s, step).sh.frames) == HandedOf(Noted(b, s, step).handled)
  {
    if step.Do? && step.loop && step.act.Req? {
      ReqSnaps(s, step.act.filters, b);
    } else {
      NoOpened(s, step);
      if step.Do? {
        if Owns(step.loop, step.act) {
          SectionSnaps(s.sh, PcOf(s, step.loop), step.act, SeesNext(s, PcOf(s, step.loop)), s.world.connected, b);
        }
      } else if step.Broadcast? {
        var more := Next(s, step).sh.frames;
        if more != s.sh.frames { SnapsNext(s.sh.frames, more[|s.sh.frames|]); }
      }
    }
  }

  /** In every run the stored events the client has got since the REQ are those noted as sent, in that order. */
  lemma {:induction false} SentIsNoted(s: State, b: Book, steps: seq<Step>)
    requires SnapsOf(s.sh.frames) == HandedOf(b.handled)
    ensures SnapsOf(Run(Next, s, steps).sh.frames) == HandedOf(BookOf(s, b, steps).handled)
    decreases |steps|
  {
    if steps != [] {
      StepSnaps(s, steps[0], b);
      SentIsNoted(Next(s, steps[0]), Noted(b, s, steps[0]), steps[1..]);
    }
  }

  // ---- EOSE ---------------------------------------------------------------------------------------------

  lemma EoseComesFrom(s: State, step: Step)
    requires Next(s, step).sh.frames == s.sh.frames + [Eose]
    ensures step.Do? && PcOf(s, step.loop) == Eosing
  {
    assert Next(s, step).sh.frames[|s.sh.frames|] == Eose;
  }

  /**
   When EOSE is sent, all events of all pages fetched since the REQ were sent, found invisible, or refused by a full
   queue, in order, and the last page said that there is no more; but for a drain whose query failed.
   */
  lemma EoseMeansComplete(now: int, log: seq<Event>, policy: Policy, steps: seq<Step>, step: Step)
    requires Obeys(Next, Fresh(now, log, policy), steps, Rule(false, false))
    requires var s := Run(Next, Fresh(now, log, policy), steps); Next(s, step).sh.frames == s.sh.frames + [Eose]
    ensures var b := BookOf(Fresh(now, log, policy), BLANK, steps);
      && Flat(b.pages) == EventsOf(b.handled) && (b.drainFailed || (b.pages != [] && !b.pages[|b.pages| - 1].more))
      && SnapsOf(Run(Next, Fresh(now, log, policy), steps).sh.frames) == HandedOf(b.handled)
  {
    var start := Fresh(now, log, policy);
    FreshInv(now, log, policy, false, false);
    RunBooked(start, BLANK, steps);
    SentIsNoted(start, BLANK, steps);
    EoseIsBooked(Run(Next, start, steps), step, BookOf(start, BLANK, steps));
  }

  lemma EoseIsBooked(s: State, step: Step, b: Book)
    requires Booked(CoreOf(s.sh), s.loop, s.worker, b) && Next(s, step).sh.frames == s.sh.frames + [Eose]
    ensures AllHandled(b) && (b.drainFailed || SaidNoMore(b))
  {
    EoseComesFrom(s, step);
    assert PcBook(CoreOf(s.sh), PcOf(s, step.loop), b);
  }

  /** What a paged snapshot holds: the search hits, and of each other filter the rows paging does not skip. */
  ghost predicate InSnapshot(v: StoreView, kept: seq<NFilter>, search: seq<NFilter>, p: nat, e: Event)
    requires p > 0
  {
    Ranked(v, search, e) || exists i :: 0 <= i < |kept| && SentByFilter(v.log, kept[i], p, e)
  }

  lemma CompleteIsSnapshot(v: StoreView, filters: seq<NFilter>, search: seq<NFilter>, p: nat, pages: seq<Page>)
    requires GoodStore(v) && p > 0 && GoodCursors(v.log, Cursors(Filter(filters, SearchFree())))
    requires PagesOf(v, Cursors(Filter(filters, SearchFree())), Hits(v, search), p, pages)
    requires pages != [] && !pages[|pages| - 1].more
    ensures DistinctIds(Flat(pages))
    ensures forall e :: e in Flat(pages) <==> InSnapshot(v, Filter(filters, SearchFree()), search, p, e)
  {
    HitsStored(v, search);
    CompletePages(v, Cursors(Filter(filters, SearchFree())), Hits(v, search), p, pages);
    forall e ensures e in Flat(pages) <==> InSnapshot(v, Filter(filters, SearchFree()), search, p, e) {
      HitsAreRanked(v, search, e);
      PagedSnapshotExactly(v, filters, Hits(v, search), p, e);
    }
  }

  /**
   When the pages were those of an unchanging store, the events sent, invisible or refused are then exactly those the
   paged snapshot holds, each once.
   */
  lemma EoseMeansSnapshot(now: int, log: seq<Event>, policy: Policy, steps: seq<Step>, step: Step, v: StoreView,
                          filters: seq<NFilter>, search: seq<NFilter>, p: nat)
    requires Obeys(Next, Fresh(now, log, policy), steps, Rule(false, false))
    requires var s := Run(Next, Fresh(now, log, policy), steps); Next(s, step).sh.frames == s.sh.frames + [Eose]
    requires GoodStore(v) && p > 0 && GoodCursors(v.log, Cursors(Filter(filters, SearchFree())))
    requires var b := BookOf(Fresh(now, log, policy), BLANK, steps);
      !b.drainFailed && PagesOf(v, Cursors(Filter(filters, SearchFree())), Hits(v, search), p, b.pages)
    ensures var b, kept := BookOf(Fresh(now, log, policy), BLANK, steps), Filter(filters, SearchFree());
      DistinctIds(EventsOf(b.handled)) && forall e :: e in EventsOf(b.handled) <==> InSnapshot(v, kept, search, p, e)
  {
    EoseMeansComplete(now, log, policy, steps, step);
    CompleteIsSnapshot(v, filters, search, p, BookOf(Fresh(now, log, policy), BLANK, steps).pages);
  }

  // ---- no snapshot is dropped ---------------------------------------------------------------------------

  /** The thread is at work on the snapshot of the current REQ. */
  predicate Snapping(inst: nat, pc: Pc) {
    Fetches(pc) || pc.Paging? || pc.Eosing? || (pc.Taken? && pc.job.inst == inst)
  }

  predicate UnderWay(s: State) {
    Snapping(s.sh.inst, s.loop) || Snapping(s.sh.inst, s.worker) || HasJob(CoreOf(s.sh))
  }

  /** The ways a thread leaves a snapshot: EOSE, a failed query, the end of its context, a job found outdated. */
  predicate Leaves(sh: Shared, pc: Pc, act: Act, connected: bool) {
    match act
    case SendEose(_) => pc.Eosing?
    case FetchFail(_) => Fetches(pc)
    case GiveUp => pc.First? || (pc.Paging? && pc.source.FromLoop?)
    case Check => pc.Taken? && !(connected && SameSnapshot(sh, pc.job.stamp))
    case _ => false
  }

  lemma WorkStays(sh: Shared, pc: Pc, act: Act, sees: bool, connected: bool)
    requires !act.Req? && !act.Take? && !Leaves(sh, pc, act, connected)
    requires pc.Paging? && pc.source.FromWorker? ==> pc.source.job.inst == sh.inst
    ensures var o := Section(sh, pc, act, sees, connected);
      && (Snapping(sh.inst, pc) ==> Snapping(o.sh.inst, o.pc) || HasJob(CoreOf(o.sh))) && o.sh.inst == sh.inst
      && (HasJob(CoreOf(sh)) ==> HasJob(CoreOf(o.sh)))
  {
    SameInst(sh, pc, act, sees, connected);
    if act.Turn? {
      TurnStays(sh, pc, act.full);
    } else {
      SameQueue(sh, pc, act, sees, connected);
      SameJobs(sh, Section(sh, pc, act, sees, connected).sh);
      if Snapping(sh.inst, pc) { PlaceStays(sh, pc, act, sees, connected); }
    }
  }

  lemma PlaceStays(sh: Shared, pc: Pc, act: Act, sees: bool, connected: bool)
    requires !act.Req? && !act.Take? && !act.Turn? && !Leaves(sh, pc, act, connected) && Snapping(sh.inst, pc)
    ensures Snapping(sh.inst, Section(sh, pc, act, sees, connected).pc)
  {}

  lemma TurnStays(sh: Shared, pc: Pc, full: bool)
    requires pc.Paging? && pc.source.FromWorker? ==> pc.source.job.inst == sh.inst
    ensures var o := Delivery.Turned(sh, pc, full);
      && (Snapping(sh.inst, pc) ==> Snapping(sh.inst, o.pc) || HasJob(CoreOf(o.sh)))
      && (HasJob(CoreOf(sh)) ==> HasJob(CoreOf(o.sh)))
  {
    var t := Delivery.Turned(sh, pc, full).sh;
    if HasJob(CoreOf(sh)) {
      var i :| 0 <= i < |sh.queue| && CoreOf(sh).queue[i].inst == sh.inst;
      assert CoreOf(t).queue[i] == CoreOf(sh).queue[i];
    }
    if |t.queue| > |sh.queue| { assert CoreOf(t).queue[|sh.queue|].inst == sh.inst; }
  }

  lemma TakenStays(sh: Shared, pc: Pc)
    requires !pc.Taken?
    ensures var o := Took(sh, pc);
      && o.sh.inst == sh.inst && (Snapping(sh.inst, pc) ==> Snapping(sh.inst, o.pc))
      && (HasJob(CoreOf(sh)) ==> HasJob(CoreOf(o.sh)) || Snapping(sh.inst, o.pc))
  {
    if HasJob(CoreOf(sh)) && pc.Idle? {
      var i :| 0 <= i < |sh.queue| && CoreOf(sh).queue[i].inst == sh.inst;
      if i > 0 { assert CoreOf(Took(sh, pc).sh).queue[i - 1] == sh.queue[i]; }
    }
  }

  /** Until it ends in one of those ways, or a further REQ is accepted, a thread or a queued job goes on with it. */
  lemma SnapshotGoesOn(s: State, step: Step)
    requires Inv(s, false, false) && UnderWay(s)
    requires step.Do? && Owns(step.loop, step.act) ==>
      !step.act.Req? && !Leaves(s.sh, PcOf(s, step.loop), step.act, s.world.connected)
    ensures UnderWay(Next(s, step))
  {
    if step.Do? && Owns(step.loop, step.act) {
      var sees := SeesNext(s, PcOf(s, step.loop));
      if step.act.Take? {
        if !s.worker.Taken? { TakenStays(s.sh, s.worker); }
      } else {
        WorkStays(s.sh, PcOf(s, step.loop), step.act, sees, s.world.connected);
      }
    } else {
      assert CoreOf(Next(s, step).sh).queue == CoreOf(s.sh).queue;
    }
  }
}
