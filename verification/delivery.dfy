/**
 How one subscription's frames reach its connection, under every interleaving of the connection's
 read loop, the reader-queue worker, broadcasts and changes of the store (internal/relay/nip01.go,
 internal/relay/readqueue.go, internal/relay/subscription.go).

 Operations on different connections or sub ids share nothing but the order of the reader queue, so
 the machine follows one connection and one sub id; work for others is no step of it. One step is one
 mutex section, one visibility check or one send. Pages, failures and full queues are inputs.
 */
module Delivery {
  import opened Base
  import opened Nostr
  import opened Subscriptions
  import opened Visibility
  import EventHistory

  /** Opened marks an accepted REQ. n is the place of a live event among the broadcasts offered since. */
  datatype Frame = Opened | Snap(ev: Event) | Eose | Live(ev: Event, n: nat) | ClosedMsg

  /** A reader-queue job; inst, the number of the REQ that made it, is history. */
  datatype Job = Job(stamp: int, inst: nat)

  datatype Source = FromLoop | FromWorker(job: Job) | FromDrain

  /** What follows a removal: nothing, or FinishSnapshot, or FinishSnapshot and then the caller's EOSE. */
  datatype After = Stop | ThenFinish | ThenFinishAndEose

  /** Where the read loop or the worker stands. */
  datatype Pc =
    | Idle
    | Taken(job: Job)                                      // dequeued, snapshot not yet checked
    | First                                                // REQ added, first page not yet fetched
    | Fetching(job: Job)
    | Paging(evs: seq<Event>, more: bool, source: Source, cleared: bool) // cleared: evs[0] was found visible
    | Draining
    | Marking(after: After)                                // Remove, before its closed mark
    | Deleting(after: After)                               // Remove, before its deletion
    | Clearing(after: After)                               // FinishSnapshot after a removal
    | Eosing
    | Finishing
    | Flushing(evs: seq<Event>, n: nat, after: After)      // n: place of evs[0] among the offered
    | Counting(ok: bool, evs: seq<Event>, n: nat, after: After) // a flushed send not yet counted; evs are left
    | Parting                                              // teardown, sender gone, CLOSED not yet sent

  /** offered, cut and inst are history: cut is how many were offered when the buffer was taken. */
  datatype Shared = Shared(
    entry: Option<Entry>,
    sender: bool,
    queue: seq<Job>,
    now: int,
    frames: seq<Frame>,
    inst: nat,
    offered: seq<Event>,
    cut: nat)

  datatype Act =
    | Req(filters: seq<NFilter>)
    | Refuse(ok: bool)                                     // a REQ answered with CLOSED, before or by Add
    | CloseMsg(ok: bool)
    | Part(ok: bool)
    | Take
    | Check
    | Fetch(evs: seq<Event>, more: bool)
    | FetchFail(ok: bool)
    | Look(fault: bool)
    | Send(ok: bool)
    | GiveUp
    | Turn(full: bool)
    | SendEose(ok: bool)
    | Finish
    | FlushOne(ok: bool)
    | Count
    | Mark
    | Delete

  datatype Step =
    | Do(loop: bool, act: Act)                             // a section of the read loop, or else of the worker
    | Broadcast(ev: Event, fault: bool, ok: bool)
    | Tick(now: int)
    | Disconnect
    | Forget                                               // the connection leaves the table of connections
    | StoreOp(op: EventHistory.Op)
    | Auth(pk: string)

  datatype State = State(sh: Shared, loop: Pc, worker: Pc, world: Moment, policy: Policy)

  datatype Out = Out(sh: Shared, pc: Pc)

  function Handed(sh: Shared, f: Frame, ok: bool): Shared {
    if ok then sh.(frames := sh.frames + [f]) else sh
  }

  // Each section below returns what was there when it is not enabled.

  /** handleREQ up to an accepted Add. */
  function Requested(sh: Shared, pc: Pc, filters: seq<NFilter>): Out {
    if pc.Idle? && sh.sender then
      Out(sh.(entry := Some(NewEntry(filters, sh.now)), frames := sh.frames + [Opened],
              inst := sh.inst + 1, offered := [], cut := 0), First)
    else Out(sh, pc)
  }

  /** An entry of the sub id stays as it is. */
  function Refused(sh: Shared, pc: Pc, ok: bool): Out {
    if pc.Idle? && sh.sender then Out(Handed(sh, ClosedMsg, ok), pc) else Out(sh, pc)
  }

  function Parted(sh: Shared, pc: Pc, ok: bool): Out {
    if pc.Parting? then Out(Handed(sh, ClosedMsg, ok), Idle) else Out(sh, pc)
  }

  function Closing(sh: Shared, pc: Pc, ok: bool): Out {
    if pc.Idle? && sh.sender then Out(Handed(sh, ClosedMsg, ok), Marking(Stop)) else Out(sh, pc)
  }

  function Took(sh: Shared, pc: Pc): Out {
    if pc.Idle? && sh.queue != [] then Out(sh.(queue := sh.queue[1..]), Pc.Taken(sh.queue[0])) else Out(sh, pc)
  }

  predicate SameSnapshot(sh: Shared, stamp: int) {
    sh.sender && sh.entry.Some? && !sh.entry.value.closed && sh.entry.value.openedUnix == stamp
  }

  /** connected: the connection is still in the table of connections. */
  function Checked(sh: Shared, pc: Pc, connected: bool): Out {
    Out(sh, if !pc.Taken? then pc
            else if connected && SameSnapshot(sh, pc.job.stamp) then Fetching(pc.job)
            else Idle)
  }

  function Fetched(sh: Shared, pc: Pc, evs: seq<Event>, more: bool): Out {
    Out(sh, match pc
            case First => Paging(evs, more, FromLoop, false)
            case Fetching(job) => Paging(evs, more, FromWorker(job), false)
            case Draining => Paging(evs, more, FromDrain, false)
            case _ => pc)
  }

  /** A failed first page leaves the subscription in place; a later one removes it. */
  function FetchFailed(sh: Shared, pc: Pc, ok: bool): Out {
    match pc
    case First => Out(Handed(sh, ClosedMsg, ok), Idle)
    case Fetching(_) => Out(Handed(sh, ClosedMsg, ok), Marking(ThenFinish))
    case Draining => Out(Handed(sh, ClosedMsg, ok), Marking(ThenFinishAndEose))
    case _ => Out(sh, pc)
  }

  /** The visibility check of the next event of a page: passed on to the send, or skipped. */
  function Looked(sh: Shared, pc: Pc, sees: bool): Out {
    Out(sh, if !(pc.Paging? && pc.evs != [] && !pc.cleared) then pc
            else if sees then Paging(pc.evs, pc.more, pc.source, true)
            else Paging(pc.evs[1..], pc.more, pc.source, false))
  }

  function Sent(sh: Shared, pc: Pc, ok: bool): Out {
    if pc.Paging? && pc.evs != [] && pc.cleared
    then Out(Handed(sh, Snap(pc.evs[0]), ok), Paging(pc.evs[1..], pc.more, pc.source, false))
    else Out(sh, pc)
  }

  /** The end of a page: queue the rest, drain it here, or go on to EOSE. */
  function Turned(sh: Shared, pc: Pc, full: bool): Out {
    if !(pc.Paging? && pc.evs == []) then Out(sh, pc)
    else if !pc.more then Out(sh, Eosing)
    else if pc.source.FromDrain? || full then Out(sh, Draining)
    else
      var stamp := if sh.entry.Some? && !sh.entry.value.closed then sh.entry.value.openedUnix else 0;
      var job := if pc.source.FromWorker? then pc.source.job else Job(stamp, sh.inst);
      Out(sh.(queue := sh.queue + [job]), Idle)
  }

  function EoseSent(sh: Shared, pc: Pc, ok: bool): Out {
    if pc.Eosing? then Out(Handed(sh, Eose, ok), if ok then Finishing else Idle) else Out(sh, pc)
  }

  /** FinishSnapshot's locked part, and the flush it leaves to do. */
  function Finished(sh: Shared, pc: Pc): Out {
    if !pc.Finishing? && !pc.Clearing? then Out(sh, pc)
    else
      var after := if pc.Clearing? then pc.after else Stop;
      match sh.entry
      case None => Out(sh, Flushing([], 0, after))
      case Some(e) =>
        Out(sh.(entry := Some(Subscriptions.Taken(e)), cut := if e.snapshotDone then sh.cut else |sh.offered|),
            Flushing(if sh.sender then e.pendingLive else [], 0, after))
  }

  function FlushedOne(sh: Shared, pc: Pc, ok: bool): Out {
    if !pc.Flushing? then Out(sh, pc)
    else if pc.evs == [] then Out(sh, if pc.after == ThenFinishAndEose then Eosing else Idle)
    else Out(Handed(sh, Live(pc.evs[0], pc.n), ok), Pc.Counting(ok, pc.evs[1..], pc.n + 1, pc.after))
  }

  /** The counter of a flushed send, on whichever entry holds the sub id now. */
  function CountedOne(sh: Shared, pc: Pc): Out {
    if !pc.Counting? then Out(sh, pc)
    else Out(sh.(entry := if sh.entry.Some? then Some(Counted(sh.entry.value, pc.ok)) else None),
             Flushing(pc.evs, pc.n, pc.after))
  }

  function Marked(sh: Shared, pc: Pc): Out {
    if !pc.Marking? then Out(sh, pc)
    else Out(if sh.entry.Some? then sh.(entry := Some(sh.entry.value.(closed := true))) else sh, Deleting(pc.after))
  }

  function Deleted(sh: Shared, pc: Pc): Out {
    if !pc.Deleting? then Out(sh, pc)
    else Out(sh.(entry := None), if pc.after == Stop then Idle else Clearing(pc.after))
  }

  /** sees: what a visibility check of the event in hand would find. */
  function Section(sh: Shared, pc: Pc, act: Act, sees: bool, connected: bool): Out {
    match act
    case Req(filters) => Requested(sh, pc, filters)
    case Refuse(ok) => Refused(sh, pc, ok)
    case CloseMsg(ok) => Closing(sh, pc, ok)
    case Part(ok) => Parted(sh, pc, ok)
    case Take => Took(sh, pc)
    case Check => Checked(sh, pc, connected)
    case Fetch(evs, more) => Fetched(sh, pc, evs, more)
    case FetchFail(ok) => FetchFailed(sh, pc, ok)
    case Look(fault) => Looked(sh, pc, sees && !fault)
    case Send(ok) => Sent(sh, pc, ok)
    case GiveUp => Out(sh, if pc.First? || (pc.Paging? && pc.source.FromLoop?) then Idle else pc)
    case Turn(full) => Turned(sh, pc, full)
    case SendEose(ok) => EoseSent(sh, pc, ok)
    case Finish => Finished(sh, pc)
    case FlushOne(ok) => FlushedOne(sh, pc, ok)
    case Count => CountedOne(sh, pc)
    case Mark => Marked(sh, pc)
    case Delete => Deleted(sh, pc)
  }

  /** The broadcast is offered to this subscription. */
  predicate Offered(sh: Shared, ev: Event, sees: bool) {
    sh.sender && sees && sh.entry.Some? && Wants(sh.entry.value, ev)
  }

  function Broadcasted(sh: Shared, ev: Event, sees: bool, ok: bool): Shared {
    if !Offered(sh, ev, sees) then sh
    else
      var e := sh.entry.value;
      Handed(sh.(entry := Some(Offer(e, ev, ok))), Live(ev, |sh.offered|), e.snapshotDone && ok)
        .(offered := sh.offered + [ev])
  }

  function PcOf(s: State, loop: bool): Pc { if loop then s.loop else s.worker }

  /** The next event of this thread's page may be seen now. */
  ghost predicate SeesNext(s: State, pc: Pc) {
    pc.Paging? && pc.evs != [] && Sees(s.policy, s.world, pc.evs[0])
  }

  predicate OfClient(act: Act) { act.Req? || act.Refuse? || act.CloseMsg? || act.Part? }

  /** What answers the client is the read loop's, Take is the worker's. */
  predicate Owns(loop: bool, act: Act) { if loop then !act.Take? else !OfClient(act) }

  /** UnregisterSender, at the end of the read loop; the sub ids it returns are still owed a CLOSED. */
  function Disconnected(s: State): State {
    if !s.loop.Idle? then s
    else s.(sh := s.sh.(entry := None, sender := false), loop := if s.sh.entry.Some? then Parting else Idle)
  }

  ghost function Next(s: State, step: Step): State {
    match step
    case Do(loop, act) =>
      if !Owns(loop, act) then s
      else
        var o := Section(s.sh, PcOf(s, loop), act, SeesNext(s, PcOf(s, loop)), s.world.connected);
        if loop then s.(sh := o.sh, loop := o.pc) else s.(sh := o.sh, worker := o.pc)
    case Broadcast(ev, fault, ok) =>
      s.(sh := Broadcasted(s.sh, ev, !fault && Sees(s.policy, s.world, ev), ok))
    case Tick(now) => s.(sh := s.sh.(now := now))
    case Disconnect => Disconnected(s)
    case Forget => if s.sh.sender || s.loop.Parting? then s else s.(world := s.world.(connected := false))
    case StoreOp(op) => s.(world := s.world.(log := EventHistory.After(s.world.log, op, true)))
    case Auth(pk) => if s.sh.sender then s.(world := s.world.(authed := s.world.authed + {pk})) else s
  }

  /** A connection that has just registered its sender. */
  function Fresh(now: int, log: seq<Event>, p: Policy): State {
    State(Shared(None, true, [], now, [], 0, [], 0), Idle, Idle, Moment(log, true, {}), p)
  }
}
