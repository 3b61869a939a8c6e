/**
 Callers, the writer loop, its tasks and Close under every interleaving (internal/storage/sqlitewriter/writer.go):
 order of execution, one answer each, what an answer says of the store, and who is left without one. A task in
 progress acts as Writer.Queue.ExecuteTask does: its monitor stays good, and it ends settled.
 */
module WriterRuns {
  import opened Base
  import opened Runs
  import opened Nostr
  import opened EventTables
  import opened Writer
  import EventHistory

  type Op = EventHistory.Op

  /** Without the engine's name the source puts before it. */
  const STORE_CLOSED := WError("store closed", false)

  datatype Caller = Trying | Waiting | Returned(res: Option<WError>)

  datatype LoopPc = Selecting | Executing(id: nat, m: Monitor) | Draining | Done

  /** What callers asked for and what they got. */
  datatype Desk = Desk(nextId: nat, tasks: map<nat, Op>, callers: map<nat, Caller>, answers: map<nat, Option<WError>>)

  /** History: sent to the channel, received from it, executed, and those whose closure returned nil. */
  datatype Book = Book(enqueued: seq<nat>, taken: seq<nat>, ran: seq<nat>, stored: seq<nat>)

  datatype State = State(
    cap: nat,
    desk: Desk,
    book: Book,
    queue: seq<nat>,
    log: seq<Event>,
    shutdown: bool,
    cancelled: bool,
    loop: LoopPc,
    handlesClosed: bool)

  datatype Step =
    | Call(op: Op)
    | Enqueue(id: nat)
    | GiveUp(id: nat, err: WError)        // the caller's context ended before the send
    | SeesClosed(id: nat)
    | Receive(id: nat, viaClose: bool)    // viaClose: the select took the closed context first
    | Shutdown
    | Cancel
    | Dequeue
    | Act(a: Action)                      // of whatever is in progress
    | EndTask
    | BeginDrain
    | DrainOne
    | DrainEnd
    | CloseHandles

  function Init(cap: nat, log: seq<Event>): State {
    State(cap, Desk(0, map[], map[], map[]), Book([], [], [], []), [], log, false, false, Selecting, false)
  }

  predicate At(s: State, id: nat, pc: Caller) { id in s.desk.callers && s.desk.callers[id] == pc }

  function WithCaller(s: State, id: nat, pc: Caller): State {
    s.(desk := s.desk.(callers := s.desk.callers[id := pc]))
  }

  function WithAnswer(s: State, id: nat, res: Option<WError>): Desk { s.desk.(answers := s.desk.answers[id := res]) }

  /** The transaction of this task can succeed. */
  predicate Applies(log: seq<Event>, op: Op) { op.Save? ==> Saved(log, op.ev).Ok? }

  ghost predicate Allows(s: State, a: Action) {
    s.loop.Executing? && Watch(s.loop.m, a).Good? &&
    (a == Ended(None) ==> s.loop.id in s.desk.tasks && Applies(s.log, s.desk.tasks[s.loop.id]))
  }

  /** A closure that returns nil has committed; any other left the store as it was. */
  ghost function Acted(s: State, a: Action): State
    requires Allows(s, a)
  {
    var id, s' := s.loop.id, s.(loop := Executing(s.loop.id, Watch(s.loop.m, a)));
    match a
    case Answered(res) => s'.(desk := WithAnswer(s, id, res))
    case Ended(None) =>
      s'.(log := EventHistory.After(s.log, s.desk.tasks[id], true), book := s.book.(stored := s.book.stored + [id]))
    case _ => s'
  }

  ghost predicate TaskOver(m: Monitor) { m.Good? && m.answer.Some? && Settled(m, m.answer.value) }

  /** One atomic step; a step that is not enabled changes nothing. */
  ghost function Next(s: State, step: Step): State {
    match step
    case Call(op) =>
      if s.shutdown then s
      else
        var id := s.desk.nextId;
        s.(desk := s.desk.(nextId := id + 1, tasks := s.desk.tasks[id := op], callers := s.desk.callers[id := Trying]))
    case Enqueue(id) =>
      if At(s, id, Trying) && |s.queue| < s.cap then
        WithCaller(s, id, Waiting).(queue := s.queue + [id], book := s.book.(enqueued := s.book.enqueued + [id]))
      else s
    case GiveUp(id, err) => if At(s, id, Trying) then WithCaller(s, id, Returned(Some(err))) else s
    case SeesClosed(id) =>
      if At(s, id, Trying) && s.cancelled then WithCaller(s, id, Returned(Some(STORE_CLOSED))) else s
    case Receive(id, viaClose) =>
      if At(s, id, Waiting) && id in s.desk.answers then
        WithCaller(s, id, Returned(if viaClose && s.cancelled then Some(STORE_CLOSED) else s.desk.answers[id]))
      else s
    case Shutdown => s.(shutdown := true)
    case Cancel => if s.shutdown then s.(cancelled := true) else s
    case Dequeue =>
      if s.loop == Selecting && s.queue != [] then
        s.(loop := Executing(s.queue[0], START), queue := s.queue[1..],
           book := s.book.(taken := s.book.taken + [s.queue[0]], ran := s.book.ran + [s.queue[0]]))
      else s
    case Act(a) => if Allows(s, a) then Acted(s, a) else s
    case EndTask => if s.loop.Executing? && TaskOver(s.loop.m) then s.(loop := Selecting) else s
    case BeginDrain => if s.loop == Selecting && s.cancelled then s.(loop := Draining) else s
    case DrainOne =>
      if s.loop == Draining && s.queue != [] then
        s.(desk := WithAnswer(s, s.queue[0], Some(STORE_CLOSED)), queue := s.queue[1..],
           book := s.book.(taken := s.book.taken + [s.queue[0]]))
      else s
    case DrainEnd => if s.loop == Draining && s.queue == [] then s.(loop := Done) else s
    case CloseHandles => if s.loop == Done then s.(handlesClosed := true) else s
  }

  // ---- the invariant: the queue ---------------------------------------------------------------------

  /** Every task sent to the channel, in order, is either taken or still in it; none was sent twice. */
  predicate InOrder(s: State) {
    && s.book.enqueued == s.book.taken + s.queue
    && (forall i, j :: 0 <= i < j < |s.book.enqueued| ==> s.book.enqueued[i] != s.book.enqueued[j])
    && (forall i :: 0 <= i < |s.book.enqueued| ==> Sent(s.desk, s.book.enqueued[i]))
    && (forall i :: 0 <= i < |s.queue| ==> At(s, s.queue[i], Waiting))
    && (forall id :: id in s.desk.callers ==> id < s.desk.nextId)
  }

  predicate Sent(d: Desk, id: nat) { id in d.callers && d.callers[id] != Trying }

  /** A task in progress is the last taken, and only while the loop runs are tasks executed. */
  predicate LoopFits(s: State) {
    && s.book.ran <= s.book.taken
    && (s.loop in {Draining, Done} || s.book.ran == s.book.taken)
    && (s.loop.Executing? ==> s.book.taken != [] && s.loop.id == s.book.taken[|s.book.taken| - 1])
    && (s.cancelled ==> s.shutdown)
    && (s.loop in {Draining, Done} ==> s.cancelled)
    && (s.handlesClosed ==> s.loop == Done)
  }

  lemma TakenIsNotQueued(s: State, id: nat)
    requires InOrder(s) && id in s.book.taken
    ensures id !in s.queue
  {
    var i :| 0 <= i < |s.book.taken| && s.book.taken[i] == id;
    assert s.book.enqueued[i] == id;
    forall j | 0 <= j < |s.queue| ensures s.queue[j] != id {
      assert s.book.enqueued[|s.book.taken| + j] == s.queue[j];
    }
  }

  /** The head of the queue was never taken; taking it keeps the order. */
  lemma TakeHead(s: State)
    requires InOrder(s) && s.queue != []
    ensures s.queue[0] !in s.book.taken
    ensures s.book.enqueued == (s.book.taken + [s.queue[0]]) + s.queue[1..]
  {
    var n := |s.book.taken|;
    assert s.book.enqueued[n] == s.queue[0];
    forall i | 0 <= i < n ensures s.book.taken[i] != s.queue[0] {
      assert s.book.enqueued[i] == s.book.taken[i];
    }
  }

  lemma EnqueueInOrder(s: State, id: nat)
    requires InOrder(s) && At(s, id, Trying)
    ensures InOrder(WithCaller(s, id, Waiting)
              .(queue := s.queue + [id], book := s.book.(enqueued := s.book.enqueued + [id])))
  {
    assert forall i :: 0 <= i < |s.book.enqueued| ==> s.book.enqueued[i] != id;
    assert s.book.enqueued + [id] == s.book.taken + (s.queue + [id]);
  }

  lemma HeadInOrder(s: State, t: State)
    requires InOrder(s) && s.queue != [] && t.desk.callers == s.desk.callers && t.desk.nextId == s.desk.nextId
    requires t.queue == s.queue[1..]
    requires t.book.enqueued == s.book.enqueued && t.book.taken == s.book.taken + [s.queue[0]]
    ensures InOrder(t)
  {
    TakeHead(s);
  }

  /** A caller that returns was not in the queue any more. */
  lemma ReturnInOrder(s: State, id: nat, res: Option<WError>)
    requires InOrder(s) && (id in s.desk.callers) && id !in s.queue
    ensures InOrder(WithCaller(s, id, Returned(res)))
  {}

  lemma TryingIsNotQueued(s: State, id: nat)
    requires InOrder(s) && At(s, id, Trying)
    ensures id !in s.queue && id !in s.book.enqueued
  {}

  lemma SameDeskInOrder(s: State, t: State)
    requires InOrder(s) && t.queue == s.queue && t.desk.callers == s.desk.callers && t.desk.nextId == s.desk.nextId
    requires t.book.enqueued == s.book.enqueued && t.book.taken == s.book.taken
    ensures InOrder(t)
  {}

  lemma CallInOrder(s: State, op: Op)
    requires InOrder(s)
    ensures InOrder(Next(s, Call(op)))
  {}

  lemma CallerInOrder(s: State, step: Step)
    requires InOrder(s) && (forall id :: id in s.desk.answers ==> id in s.book.taken)
    requires step.Enqueue? || step.GiveUp? || step.SeesClosed? || step.Receive?
    ensures InOrder(Next(s, step))
  {
    match step {
      case Enqueue(id) => if At(s, id, Trying) && |s.queue| < s.cap { EnqueueInOrder(s, id); }
      case GiveUp(id, err) => if At(s, id, Trying) { ReturnInOrder(s, id, Some(err)); }
      case SeesClosed(id) => if At(s, id, Trying) && s.cancelled { ReturnInOrder(s, id, Some(STORE_CLOSED)); }
      case Receive(id, viaClose) =>
        if At(s, id, Waiting) && id in s.desk.answers {
          TakenIsNotQueued(s, id);
          ReturnInOrder(s, id, if viaClose && s.cancelled then Some(STORE_CLOSED) else s.desk.answers[id]);
        }
    }
  }

  /** The steps that neither move a caller nor the queue. */
  predicate Inner(step: Step) {
    || step.Act? || step.EndTask? || step.Shutdown? || step.Cancel?
    || step.BeginDrain? || step.DrainEnd? || step.CloseHandles?
  }

  lemma ActedFrame(s: State, a: Action)
    requires Allows(s, a)
    ensures var t := Acted(s, a);
      && t.queue == s.queue && t.desk == s.desk.(answers := t.desk.answers) && t.book == s.book.(stored := t.book.stored)
      && (a != Ended(None) ==> t.log == s.log && t.book == s.book)
      && (forall id :: id in s.desk.answers && id != s.loop.id ==>
        id in t.desk.answers && t.desk.answers[id] == s.desk.answers[id])
  {}

  lemma InnerStep(s: State, step: Step)
    requires Inner(step)
    ensures var t := Next(s, step);
      && t.queue == s.queue && t.desk == s.desk.(answers := t.desk.answers) && t.book == s.book.(stored := t.book.stored)
      && (step != Act(Ended(None)) ==> t.log == s.log && t.book == s.book)
      && (!step.Act? ==> t.desk == s.desk)
  {
    match step {
      case Act(a) => if Allows(s, a) { ActedFrame(s, a); }
      case _ =>
    }
  }

  lemma InOrderStep(s: State, step: Step)
    requires InOrder(s) && (forall id :: id in s.desk.answers ==> id in s.book.taken)
    ensures InOrder(Next(s, step))
  {
    if step.Enqueue? || step.GiveUp? || step.SeesClosed? || step.Receive? {
      CallerInOrder(s, step);
    } else if Inner(step) {
      InnerStep(s, step);
      SameDeskInOrder(s, Next(s, step));
    } else {
      match step {
        case Call(op) => CallInOrder(s, op);
        case Dequeue => if s.loop == Selecting && s.queue != [] { HeadInOrder(s, Next(s, step)); }
        case DrainOne => if s.loop == Draining && s.queue != [] { HeadInOrder(s, Next(s, step)); }
      }
    }
  }

  lemma LoopFitsStep(s: State, step: Step)
    requires LoopFits(s)
    ensures LoopFits(Next(s, step))
  {}

  // ---- the invariant: what was stored ---------------------------------------------------------------

  /** What the monitor has seen so far. */
  ghost predicate Sane(m: Monitor) {
    && m.Good? && (m.runs == 0 ==> m.last.None? && !m.inflight) && (m.last == Some(None) ==> !m.inflight)
    && (m.answer == Some(None) ==> m.last == Some(None))
  }

  /** A closure that returned nil is the last to run. */
  lemma SaneNext(m: Monitor, a: Action)
    requires Sane(m) && Watch(m, a).Good?
    ensures Sane(Watch(m, a))
    ensures m.last == Some(None) ==> Watch(m, a).last == Some(None) && !a.Ended?
  {}

  /** The answer of task id is what its end, or the drain, made it. */
  ghost predicate AnswerFits(s: State, id: nat) {
    if s.loop.Executing? && s.loop.id == id then
      Sane(s.loop.m) && (id in s.book.stored <==> s.loop.m.last == Some(None)) &&
      (if id in s.desk.answers then s.loop.m.answer == Some(s.desk.answers[id]) else s.loop.m.answer.None?)
    else
      id in s.desk.answers &&
      (s.desk.answers[id] == None ==> id in s.book.stored) &&
      (id in s.book.stored ==> s.desk.answers[id] in {None, Some(DEADLINE)})
  }

  /** Answers are of taken tasks; each executed task's answer fits; the drained were told the store is closed. */
  ghost predicate Answers(s: State) {
    && (forall id :: id in s.desk.answers ==> id in s.book.taken)
    && (forall id :: id in s.book.stored ==> id in s.book.ran)
    && (forall id :: id in s.book.taken ==> if id in s.book.ran then AnswerFits(s, id) else DrainedFits(s, id))
  }

  predicate DrainedFits(s: State, id: nat) {
    id in s.desk.answers && s.desk.answers[id] == Some(STORE_CLOSED) && id !in s.book.stored
  }

  lemma ActAnswers(s: State, a: Action)
    requires Answers(s) && LoopFits(s) && Allows(s, a)
    ensures Answers(Acted(s, a))
  {
    var id, t := s.loop.id, Acted(s, a);
    assert id in s.book.taken && id in s.book.ran && AnswerFits(s, id);
    SaneNext(s.loop.m, a);
    assert AnswerFits(t, id);
    forall x | x in t.book.taken ensures if x in t.book.ran then AnswerFits(t, x) else DrainedFits(t, x) {
      assert if x in s.book.ran then AnswerFits(s, x) else DrainedFits(s, x);
    }
  }

  lemma EndAnswers(s: State)
    requires Answers(s) && LoopFits(s) && s.loop.Executing? && TaskOver(s.loop.m)
    ensures Answers(s.(loop := Selecting))
  {
    var id, t := s.loop.id, s.(loop := Selecting);
    assert id in s.book.taken && id in s.book.ran && AnswerFits(s, id);
    assert AnswerFits(t, id);
    forall x | x in t.book.taken ensures if x in t.book.ran then AnswerFits(t, x) else DrainedFits(t, x) {
      assert if x in s.book.ran then AnswerFits(s, x) else DrainedFits(s, x);
    }
  }

  lemma DequeueAnswers(s: State)
    requires Answers(s) && InOrder(s) && LoopFits(s) && s.loop == Selecting && s.queue != []
    ensures Answers(Next(s, Dequeue))
  {
    var t, id := Next(s, Dequeue), s.queue[0];
    TakeHead(s);
    assert id !in s.book.stored && id !in s.desk.answers;
    assert AnswerFits(t, id);
    forall x | x in t.book.taken ensures if x in t.book.ran then AnswerFits(t, x) else DrainedFits(t, x) {
      if x != id { assert if x in s.book.ran then AnswerFits(s, x) else DrainedFits(s, x); }
    }
  }

  lemma DrainAnswers(s: State)
    requires Answers(s) && InOrder(s) && LoopFits(s) && s.loop == Draining && s.queue != []
    ensures Answers(Next(s, DrainOne))
  {
    var t, id := Next(s, DrainOne), s.queue[0];
    TakeHead(s);
    assert id !in s.book.ran && id !in s.book.stored;
    forall x | x in t.book.taken ensures if x in t.book.ran then AnswerFits(t, x) else DrainedFits(t, x) {
      if x != id { assert if x in s.book.ran then AnswerFits(s, x) else DrainedFits(s, x); }
    }
  }

  lemma SameAnswers(s: State, t: State)
    requires Answers(s) && t.desk.answers == s.desk.answers
    requires t.book.taken == s.book.taken && t.book.ran == s.book.ran && t.book.stored == s.book.stored
    requires t.loop == s.loop || (!t.loop.Executing? && !s.loop.Executing?)
    ensures Answers(t)
  {
    forall x | x in t.book.taken ensures if x in t.book.ran then AnswerFits(t, x) else DrainedFits(t, x) {
      assert if x in s.book.ran then AnswerFits(s, x) else DrainedFits(s, x);
    }
  }

  predicate OfTask(step: Step) { step.Act? || step.EndTask? || step.Dequeue? || step.DrainOne? }

  lemma OthersAnswer(s: State, step: Step)
    requires Answers(s) && !OfTask(step)
    ensures Answers(Next(s, step))
  {
    SameAnswers(s, Next(s, step));
  }

  lemma AnswersStep(s: State, step: Step)
    requires Answers(s) && InOrder(s) && LoopFits(s)
    ensures Answers(Next(s, step))
  {
    match step {
      case Act(a) => if Allows(s, a) { ActAnswers(s, a); }
      case EndTask => if s.loop.Executing? && TaskOver(s.loop.m) { EndAnswers(s); }
      case Dequeue => if s.loop == Selecting && s.queue != [] { DequeueAnswers(s); }
      case DrainOne => if s.loop == Draining && s.queue != [] { DrainAnswers(s); }
      case _ => OthersAnswer(s, step);
    }
  }

  // ---- the invariant: what callers were told --------------------------------------------------------

  /** A caller that returned was told its answer or that the store is closed, or had not sent its task. */
  predicate CallerFits(s: State, id: nat) {
    id in s.desk.callers && s.desk.callers[id].Returned? ==>
      if id in s.book.enqueued
      then id in s.desk.answers && s.desk.callers[id].res in {s.desk.answers[id], Some(STORE_CLOSED)}
      else s.desk.callers[id].res.Some?
  }

  ghost predicate Callers(s: State) { forall id :: id in s.desk.callers ==> CallerFits(s, id) }

  /** An answer never changes. */
  lemma AnswerKept(s: State, step: Step, id: nat)
    requires Answers(s) && InOrder(s) && LoopFits(s) && id in s.desk.answers
    ensures var t := Next(s, step); id in t.desk.answers && t.desk.answers[id] == s.desk.answers[id]
  {
    match step {
      case Act(a) => if Allows(s, a) { ActKeepsAnswer(s, a, id); }
      case DrainOne => DrainKeepsAnswer(s, id);
      case _ => if Inner(step) { InnerStep(s, step); }
    }
  }

  lemma DrainKeepsAnswer(s: State, id: nat)
    requires Answers(s) && InOrder(s) && id in s.desk.answers
    ensures var t := Next(s, DrainOne); id in t.desk.answers && t.desk.answers[id] == s.desk.answers[id]
  {
    if s.queue != [] { TakeHead(s); }
  }

  lemma ActKeepsAnswer(s: State, a: Action, id: nat)
    requires Answers(s) && LoopFits(s) && id in s.desk.answers && Allows(s, a)
    ensures var t := Acted(s, a); id in t.desk.answers && t.desk.answers[id] == s.desk.answers[id]
  {
    ActedFrame(s, a);
    if s.loop.id == id { assert AnswerFits(s, id); }
  }

  /** A caller the step does not move, and whose task it does not send. */
  lemma CallerStays(s: State, step: Step, id: nat)
    requires Answers(s) && InOrder(s) && LoopFits(s) && id in s.desk.callers && CallerFits(s, id)
    requires var t := Next(s, step); id in t.desk.callers && t.desk.callers[id] == s.desk.callers[id]
    ensures CallerFits(Next(s, step), id)
  {
    var t := Next(s, step);
    if s.desk.callers[id].Returned? {
      if id in s.desk.answers { AnswerKept(s, step, id); }
      assert id in t.book.enqueued <==> id in s.book.enqueued;
    }
  }

  lemma CallersStep(s: State, step: Step)
    requires Answers(s) && InOrder(s) && LoopFits(s) && Callers(s)
    ensures Callers(Next(s, step))
  {
    var t := Next(s, step);
    forall id | id in t.desk.callers ensures CallerFits(t, id) {
      if id in s.desk.callers && t.desk.callers[id] == s.desk.callers[id] {
        CallerStays(s, step, id);
      } else if id in s.desk.callers {
        CallerMoves(s, step, id);
      }
    }
  }

  lemma CallerMoves(s: State, step: Step, id: nat)
    requires Answers(s) && InOrder(s) && LoopFits(s) && id in s.desk.callers
    requires var t := Next(s, step); id in t.desk.callers && t.desk.callers[id] != s.desk.callers[id]
    ensures CallerFits(Next(s, step), id)
  {
    if step.GiveUp? || step.SeesClosed? { TryingIsNotQueued(s, id); }
    if step.Receive? { WaitingWasSent(s, id); }
  }

  lemma WaitingWasSent(s: State, id: nat)
    requires Answers(s) && InOrder(s) && id in s.desk.answers
    ensures id in s.book.enqueued
  {
    var i :| 0 <= i < |s.book.taken| && s.book.taken[i] == id;
    assert s.book.enqueued[i] == id;
  }

  // ---- the invariant: the store ---------------------------------------------------------------------

  /** The log with what these ids asked for applied, one after the other. */
  function Replay(log: seq<Event>, tasks: map<nat, Op>, ids: seq<nat>): seq<Event> {
    if ids == [] then log
    else
      var before, id := Replay(log, tasks, ids[..|ids| - 1]), ids[|ids| - 1];
      if id in tasks then EventHistory.After(before, tasks[id], true) else before
  }

  function In(ids: seq<nat>): nat -> bool { (id: nat) => id in ids }

  /** The store is what the stored tasks made of it, and those are the executed tasks but for some left out. */
  ghost predicate Store(s: State, log: seq<Event>) {
    && s.log == Replay(log, s.desk.tasks, s.book.stored)
    && s.book.stored == Filter(s.book.ran, In(s.book.stored))
    && (forall id :: id in s.desk.tasks ==> id < s.desk.nextId)
    && (forall id :: id in s.book.stored ==> id in s.desk.tasks)
  }

  lemma {:induction false} ReplayNewTask(log: seq<Event>, tasks: map<nat, Op>, ids: seq<nat>, id: nat, op: Op)
    requires id !in ids
    ensures Replay(log, tasks[id := op], ids) == Replay(log, tasks, ids)
    decreases |ids|
  {
    if ids != [] {
      assert ids[|ids| - 1] in ids;
      ReplayNewTask(log, tasks, ids[..|ids| - 1], id, op);
    }
  }

  lemma ReplayNext(log: seq<Event>, tasks: map<nat, Op>, ids: seq<nat>, id: nat)
    requires id in tasks
    ensures Replay(log, tasks, ids + [id]) == EventHistory.After(Replay(log, tasks, ids), tasks[id], true)
  {
    assert (ids + [id])[..|ids|] == ids;
  }

  lemma ThinnedRan(ran: seq<nat>, stored: seq<nat>, id: nat)
    requires stored == Filter(ran, In(stored)) && id !in stored
    ensures stored == Filter(ran + [id], In(stored))
  {
    FilterAppend(ran, [id], In(stored));
  }

  lemma ThinnedStored(init: seq<nat>, stored: seq<nat>, id: nat)
    requires id !in init && id !in stored && stored == Filter(init + [id], In(stored))
    ensures stored + [id] == Filter(init + [id], In(stored + [id]))
  {
    var more := stored + [id];
    FilterAppend(init, [id], In(stored));
    FilterAppend(init, [id], In(more));
    assert forall x :: x in init ==> In(stored)(x) == In(more)(x);
    FilterSame(init, In(stored), In(more));
    assert Filter([id], In(stored)) == [] && Filter([id], In(more)) == [id];
  }

  lemma CallStore(s: State, op: Op, log: seq<Event>)
    requires Store(s, log)
    ensures Store(Next(s, Call(op)), log)
  {
    if !s.shutdown { ReplayNewTask(log, s.desk.tasks, s.book.stored, s.desk.nextId, op); }
  }

  lemma LastRan(s: State)
    requires InOrder(s) && LoopFits(s) && s.loop.Executing?
    ensures s.book.ran != [] && s.book.ran[|s.book.ran| - 1] == s.loop.id
    ensures s.loop.id !in s.book.ran[..|s.book.ran| - 1]
  {
    var n := |s.book.ran| - 1;
    forall i | 0 <= i < n ensures s.book.ran[i] != s.loop.id {
      assert s.book.enqueued[i] == s.book.taken[i] && s.book.enqueued[n] == s.book.taken[n];
    }
  }

  lemma CommitStore(s: State, log: seq<Event>)
    requires Store(s, log) && InOrder(s) && LoopFits(s) && Answers(s) && Allows(s, Ended(None))
    ensures Store(Acted(s, Ended(None)), log)
  {
    var id := s.loop.id;
    LastRan(s);
    assert AnswerFits(s, id);
    SaneNext(s.loop.m, Ended(None));
    var init := s.book.ran[..|s.book.ran| - 1];
    assert s.book.ran == init + [id];
    ThinnedStored(init, s.book.stored, id);
    ReplayNext(log, s.desk.tasks, s.book.stored, id);
  }

  lemma DequeueStore(s: State, log: seq<Event>)
    requires Store(s, log) && InOrder(s) && LoopFits(s) && Answers(s)
    ensures Store(Next(s, Dequeue), log)
  {
    if s.loop == Selecting && s.queue != [] {
      TakeHead(s);
      ThinnedRan(s.book.ran, s.book.stored, s.queue[0]);
    }
  }

  lemma SameStore(s: State, t: State, log: seq<Event>)
    requires Store(s, log) && t.log == s.log && t.desk.tasks == s.desk.tasks && t.desk.nextId == s.desk.nextId
    requires t.book.ran == s.book.ran && t.book.stored == s.book.stored
    ensures Store(t, log)
  {}

  lemma OtherStep(s: State, step: Step)
    requires !step.Call? && !step.Dequeue? && !(step.Act? && step.a == Ended(None))
    ensures var t := Next(s, step);
      && t.log == s.log && t.desk.tasks == s.desk.tasks && t.desk.nextId == s.desk.nextId
      && t.book.ran == s.book.ran && t.book.stored == s.book.stored
  {
    if Inner(step) { InnerStep(s, step); }
  }

  lemma StoreStep(s: State, step: Step, log: seq<Event>)
    requires Store(s, log) && InOrder(s) && LoopFits(s) && Answers(s)
    ensures Store(Next(s, step), log)
  {
    if step.Call? {
      CallStore(s, step.op, log);
    } else if step.Dequeue? {
      DequeueStore(s, log);
    } else if step == Act(Ended(None)) {
      if Allows(s, Ended(None)) { CommitStore(s, log); }
    } else {
      OtherStep(s, step);
      SameStore(s, Next(s, step), log);
    }
  }

  ghost predicate Inv(s: State, log: seq<Event>) {
    InOrder(s) && LoopFits(s) && Answers(s) && Callers(s) && Store(s, log)
  }

  lemma StepKeeps(s: State, step: Step, log: seq<Event>)
    requires Inv(s, log)
    ensures Inv(Next(s, step), log)
  {
    InOrderStep(s, step);
    LoopFitsStep(s, step);
    AnswersStep(s, step);
    CallersStep(s, step);
    StoreStep(s, step, log);
  }

  lemma {:induction false} RunKeeps(s: State, steps: seq<Step>, log: seq<Event>)
    requires Inv(s, log)
    ensures Inv(Run(Next, s, steps), log)
    decreases |steps|
  {
    if steps != [] {
      StepKeeps(s, steps[0], log);
      RunKeeps(Next(s, steps[0]), steps[1..], log);
    }
  }

  // ---- what holds of every run ------------------------------------------------------------------

  /**
   Tasks execute in the order they were sent, each at most once, and the handles are closed only when
   no task can run any more.
   */
  lemma ExecutedInOrder(cap: nat, log: seq<Event>, steps: seq<Step>)
    ensures var s := Run(Next, Init(cap, log), steps); var b := s.book;
      b.ran <= b.taken <= b.enqueued && b.enqueued == b.taken + s.queue
      && (forall i, j :: 0 <= i < j < |b.enqueued| ==> b.enqueued[i] != b.enqueued[j])
      && (s.handlesClosed ==> s.loop == Done)
  {
    RunKeeps(Init(cap, log), steps, log);
  }

  /**
   The store is at every moment its first log with every task applied whose closure returned nil, each once, in
   the order they were sent.
   */
  lemma StoreIsStoredTasks(cap: nat, log: seq<Event>, steps: seq<Step>)
    ensures var s := Run(Next, Init(cap, log), steps);
      s.log == Replay(log, s.desk.tasks, s.book.stored) && s.book.stored == Filter(s.book.ran, In(s.book.stored))
  {
    RunKeeps(Init(cap, log), steps, log);
  }

  predicate InProgress(s: State, id: nat) { s.loop.Executing? && s.loop.id == id }

  /** Each taken task but the one in progress has an answer, and no other task has one. */
  lemma TakenIffAnswered(cap: nat, log: seq<Event>, steps: seq<Step>, id: nat)
    ensures var s := Run(Next, Init(cap, log), steps);
      !InProgress(s, id) ==> (id in s.desk.answers <==> id in s.book.taken)
    ensures var s := Run(Next, Init(cap, log), steps);
      InProgress(s, id) ==> (id in s.desk.answers <==> s.loop.m.Good? && s.loop.m.answer.Some?) && id in s.book.taken
  {
    RunKeeps(Init(cap, log), steps, log);
    var s := Run(Next, Init(cap, log), steps);
    if id in s.book.taken { assert if id in s.book.ran then AnswerFits(s, id) else DrainedFits(s, id); }
  }

  lemma {:induction false} AnswersAreFinal(s: State, log: seq<Event>, steps: seq<Step>, id: nat)
    requires Inv(s, log) && id in s.desk.answers
    ensures var t := Run(Next, s, steps); id in t.desk.answers && t.desk.answers[id] == s.desk.answers[id]
    decreases |steps|
  {
    if steps != [] {
      StepKeeps(s, steps[0], log);
      AnswerKept(s, steps[0], id);
      AnswersAreFinal(Next(s, steps[0]), log, steps[1..], id);
    }
  }

  // ---- what a caller may conclude ---------------------------------------------------------------

  /** The states of all runs from this log. */
  ghost predicate Reachable(s: State, log: seq<Event>) {
    exists cap: nat, steps: seq<Step> :: s == Run(Next, Init(cap, log), steps)
  }

  lemma ReachableInv(s: State, log: seq<Event>)
    requires Reachable(s, log)
    ensures Inv(s, log)
  {
    var cap: nat, steps: seq<Step> :| s == Run(Next, Init(cap, log), steps);
    RunKeeps(Init(cap, log), steps, log);
  }

  /** The caller has returned with this, and its task is not in progress any more. */
  predicate Told(s: State, id: nat, res: Option<WError>) { At(s, id, Returned(res)) && !InProgress(s, id) }

  /** Answered with the deadline while its closure went on to commit. */
  predicate CommittedLate(s: State, id: nat) {
    id in s.desk.answers && s.desk.answers[id] == Some(DEADLINE) && id in s.book.stored
  }

  /** Answered nil, and received through the closed context. */
  predicate NilLost(s: State, id: nat) {
    id in s.desk.answers && s.desk.answers[id] == None && At(s, id, Returned(Some(STORE_CLOSED)))
  }

  /**
   A caller that got nil has its task in the store. One that got an error has not, if and only if its task was
   neither answered with the deadline and then committed, nor answered nil and reported as closed.
   */
  lemma WhatAnAnswerMeans(s: State, log: seq<Event>, id: nat, res: Option<WError>)
    requires Reachable(s, log) && Told(s, id, res)
    ensures res.None? ==> id in s.book.stored
    ensures res.Some? ==> (id !in s.book.stored <==> !CommittedLate(s, id) && !NilLost(s, id))
  {
    ReachableInv(s, log);
    assert CallerFits(s, id);
    if id in s.book.enqueued {
      assert if id in s.book.ran then AnswerFits(s, id) else DrainedFits(s, id);
    } else if id in s.book.stored {
      StoredWasSent(s, id);
    }
  }

  lemma StoredWasSent(s: State, id: nat)
    requires Answers(s) && InOrder(s) && LoopFits(s) && id in s.book.stored
    ensures id in s.book.enqueued
  {
    var i :| 0 <= i < |s.book.ran| && s.book.ran[i] == id;
    assert s.book.enqueued[i] == s.book.taken[i] == id;
  }

  /** This error tells every caller, in every run, that its task left the store alone. */
  ghost predicate MeansNotStored(log: seq<Event>, e: WError) {
    forall s, id :: Reachable(s, log) && Told(s, id, Some(e)) ==> id !in s.book.stored
  }

  lemma OtherErrorsMeanNotStored(s: State, log: seq<Event>, id: nat, e: WError)
    requires Reachable(s, log) && Told(s, id, Some(e)) && e !in {DEADLINE, STORE_CLOSED}
    ensures id !in s.book.stored
  {
    WhatAnAnswerMeans(s, log, id, Some(e));
    ReachableInv(s, log);
    assert CallerFits(s, id);
    if id in s.book.stored {
      StoredWasSent(s, id);
      assert false;
    }
  }

  // ---- scripted runs ------------------------------------------------------------------------------

  lemma Goes(s: State, log: seq<Event>, step: Step) returns (t: State)
    requires Reachable(s, log)
    ensures Reachable(t, log) && t == Next(s, step)
  {
    var cap: nat, steps: seq<Step> :| s == Run(Next, Init(cap, log), steps);
    RunThen(Next, Init(cap, log), steps, step);
    t := Next(s, step);
  }

  /** The first call of a writer with room for one task. */
  lemma Called(log: seq<Event>, op: Op) returns (s: State)
    ensures Reachable(s, log)
    ensures s == Init(1, log).(desk := Desk(1, map[0 := op], map[0 := Trying], map[]))
  {
    var none: seq<Step> := [];
    s := Init(1, log);
    assert s == Run(Next, Init(1, log), none);
    s := Goes(s, log, Call(op));
  }

  /** Its task is under way. */
  lemma Begun(log: seq<Event>, op: Op) returns (s: State)
    ensures Reachable(s, log)
    ensures s == State(1, Desk(1, map[0 := op], map[0 := Waiting], map[]), Book([0], [0], [0], []), [], log,
                       false, false, Executing(0, START), false)
  {
    s := Called(log, op);
    s := Goes(s, log, Enqueue(0));
    assert s.queue == [0] && s.desk.callers == map[0 := Waiting];
    s := Goes(s, log, Dequeue);
  }

  lemma Acts(s: State, log: seq<Event>, a: Action) returns (t: State)
    requires Reachable(s, log) && Allows(s, a)
    ensures Reachable(t, log) && t == Acted(s, a)
  {
    t := Goes(s, log, Act(a));
  }

  /** Its closure, a deletion, is running. */
  lemma InFlight(log: seq<Event>) returns (s: State)
    ensures Reachable(s, log) && !s.cancelled && s.desk.answers == map[] && s.book.stored == []
    ensures s.desk.tasks == map[0 := EventHistory.Delete("")] && s.desk.callers == map[0 := Waiting]
    ensures s.loop == Executing(0, START.(inflight := true, runs := 1))
  {
    s := Begun(log, EventHistory.Delete(""));
    s := Acts(s, log, Began);
  }

  /** It returns nil in time, and its caller is told. */
  lemma InTime(log: seq<Event>) returns (s: State)
    ensures Reachable(s, log) && !s.cancelled && s.book.stored == [0] && s.desk.callers == map[0 := Waiting]
    ensures s.loop == Executing(0, START.(runs := 1, last := Some(None), answer := Some(None)))
    ensures s.desk.answers == map[0 := None]
  {
    s := InFlight(log);
    s := Acts(s, log, Ended(None));
    assert s.loop == Executing(0, START.(runs := 1, last := Some(None))) && s.book.stored == [0];
    s := Acts(s, log, Answered(None));
  }

  /** Its caller is told of the deadline. */
  lemma Expired(log: seq<Event>) returns (s: State)
    ensures Reachable(s, log) && !s.cancelled && s.desk.callers == map[0 := Waiting] && s.book.stored == []
    ensures s.loop == Executing(0, START.(inflight := true, runs := 1, answer := Some(Some(DEADLINE)), stale := true))
    ensures s.desk.tasks == map[0 := EventHistory.Delete("")] && s.desk.answers == map[0 := Some(DEADLINE)]
  {
    s := InFlight(log);
    s := Acts(s, log, Answered(Some(DEADLINE)));
  }

  /** The handles are closed and opened again. */
  lemma Reopens(s: State, log: seq<Event>) returns (t: State)
    requires Reachable(s, log) && s.loop.Executing? && s.loop.m.Good? && !s.loop.m.inflight
    ensures Reachable(t, log)
    ensures t == s.(loop := Executing(s.loop.id,
      s.loop.m.(closed := true, reopened := true, stale := false, handles := Some(true))))
  {
    t := Acts(s, log, ClosedHandles);
    t := Acts(t, log, Opened(true));
  }

  /** It returns this after the deadline was told. */
  lemma TooLong(log: seq<Event>, res: Option<WError>) returns (s: State)
    ensures Reachable(s, log) && !s.cancelled && s.desk.callers == map[0 := Waiting]
    ensures s.loop == Executing(0, START.(runs := 1, last := Some(res), answer := Some(Some(DEADLINE)),
      closed := true, reopened := true, handles := Some(true)))
    ensures s.desk.answers == map[0 := Some(DEADLINE)] && s.book.stored == if res.None? then [0] else []
  {
    s := Expired(log);
    s := Acts(s, log, Ended(res));
    s := Reopens(s, log);
  }

  /** It ends, and its caller returns. */
  lemma Returns(s: State, log: seq<Event>) returns (t: State)
    requires Reachable(s, log) && s.loop.Executing? && TaskOver(s.loop.m) && !s.cancelled
    requires s.desk.callers == map[0 := Waiting] && 0 in s.desk.answers
    ensures Reachable(t, log) && Told(t, 0, s.desk.answers[0]) && t.book == s.book && t.desk.answers == s.desk.answers
  {
    t := Goes(s, log, EndTask);
    t := Goes(t, log, Receive(0, false));
  }

  /** A task answered with the deadline was stored all the same. */
  lemma DeadlineButStored(log: seq<Event>) returns (s: State)
    ensures Reachable(s, log) && Told(s, 0, Some(DEADLINE)) && CommittedLate(s, 0)
  {
    s := TooLong(log, None);
    s := Returns(s, log);
  }

  /** Another was not. */
  lemma DeadlineAndNotStored(log: seq<Event>) returns (s: State)
    ensures Reachable(s, log) && Told(s, 0, Some(DEADLINE)) && 0 !in s.book.stored
  {
    s := TooLong(log, Some(DEADLINE));
    s := Returns(s, log);
  }

  lemma Closing(s: State, log: seq<Event>) returns (t: State)
    requires Reachable(s, log)
    ensures Reachable(t, log) && t == s.(shutdown := true, cancelled := true)
  {
    t := Goes(s, log, Shutdown);
    t := Goes(t, log, Cancel);
  }

  /** A task that was executed and answered nil may still be reported to its caller as not stored. */
  lemma ExecutedButReportedClosed(log: seq<Event>) returns (s: State)
    ensures Reachable(s, log) && Told(s, 0, Some(STORE_CLOSED)) && NilLost(s, 0) && 0 in s.book.stored
  {
    s := InTime(log);
    s := Goes(s, log, EndTask);
    s := Closing(s, log);
    s := Goes(s, log, Receive(0, true));
  }

  /** Exactly two errors leave it open whether the write took place: the deadline, and the closed store. */
  lemma MeansNotStoredIff(log: seq<Event>, e: WError)
    ensures MeansNotStored(log, e) <==> e !in {DEADLINE, STORE_CLOSED}
  {
    if e == DEADLINE {
      var s := DeadlineButStored(log);
    } else if e == STORE_CLOSED {
      var s := ExecutedButReportedClosed(log);
    } else {
      forall s, id | Reachable(s, log) && Told(s, id, Some(e)) ensures id !in s.book.stored {
        OtherErrorsMeanNotStored(s, log, id, e);
      }
    }
  }

  // ---- the send that comes too late ---------------------------------------------------------------

  lemma DoneStep(s: State, step: Step)
    requires s.loop == Done
    ensures var t := Next(s, step);
      t.loop == Done && t.book.taken == s.book.taken && t.desk.answers == s.desk.answers
  {}

  lemma {:induction false} DoneFreezes(s: State, steps: seq<Step>)
    requires s.loop == Done
    ensures var t := Run(Next, s, steps);
      t.loop == Done && t.book.taken == s.book.taken && t.desk.answers == s.desk.answers
    decreases |steps|
  {
    if steps != [] {
      DoneStep(s, steps[0]);
      DoneFreezes(Next(s, steps[0]), steps[1..]);
    }
  }

  lemma DoneAnswers(s: State, log: seq<Event>, id: nat)
    requires Inv(s, log) && s.loop == Done
    ensures id in s.desk.answers <==> id in s.book.taken
    ensures id in s.queue ==> id !in s.book.taken && At(s, id, Waiting)
  {
    if id in s.book.taken {
      TakenIsNotQueued(s, id);
      assert if id in s.book.ran then AnswerFits(s, id) else DrainedFits(s, id);
    }
  }

  /**
   Once the writer loop is gone, exactly what it took has an answer: whatever was sent before it
   looked for the last time. A task sent after that never gets one, and its caller waits for ever.
   */
  lemma AnsweredIffSentInTime(s: State, log: seq<Event>, after: seq<Step>, id: nat)
    requires Reachable(s, log) && s.loop == Done && s.queue == []
    ensures var t := Run(Next, s, after);
      && (id in t.book.enqueued ==> (id in t.desk.answers <==> id in s.book.enqueued))
      && (id in t.queue ==> id !in t.desk.answers && At(t, id, Waiting))
  {
    ReachableInv(s, log);
    RunKeeps(s, after, log);
    DoneFreezes(s, after);
    DoneAnswers(Run(Next, s, after), log, id);
    assert s.book.enqueued == s.book.taken;
  }

  /** A caller that passed the shutdown test before Close may still win the send after the drain. */
  lemma LateSendIsStranded(log: seq<Event>, op: Op) returns (s: State)
    ensures Reachable(s, log) && s.loop == Done && s.queue == [0] && At(s, 0, Waiting)
  {
    s := Called(log, op);
    s := Closing(s, log);
    s := Drained(s, log);
    s := Goes(s, log, Enqueue(0));
  }

  lemma Drained(s: State, log: seq<Event>) returns (t: State)
    requires Reachable(s, log) && s.loop == Selecting && s.cancelled && s.queue == []
    ensures Reachable(t, log) && t == s.(loop := Done)
  {
    t := Goes(s, log, BeginDrain);
    t := Goes(t, log, DrainEnd);
  }

  // ---- room, giving up, shutting down ---------------------------------------------------------------

  lemma RoomStep(s: State, step: Step)
    requires |s.queue| <= s.cap
    ensures |Next(s, step).queue| <= Next(s, step).cap == s.cap
  {
    if Inner(step) { InnerStep(s, step); }
  }

  /** The channel never holds more tasks than it has room for. */
  lemma {:induction false} QueueHasRoom(s: State, steps: seq<Step>)
    requires |s.queue| <= s.cap
    ensures |Run(Next, s, steps).queue| <= Run(Next, s, steps).cap == s.cap
    decreases |steps|
  {
    if steps != [] {
      RoomStep(s, steps[0]);
      QueueHasRoom(Next(s, steps[0]), steps[1..]);
    }
  }

  /** Returned without having sent its task. */
  predicate Quit(s: State, id: nat, res: Option<WError>) {
    id < s.desk.nextId && At(s, id, Returned(res)) && id !in s.book.enqueued
  }

  lemma QuitStep(s: State, step: Step, id: nat, res: Option<WError>)
    requires Quit(s, id, res)
    ensures Quit(Next(s, step), id, res)
  {
    if Inner(step) { InnerStep(s, step); }
  }

  lemma {:induction false} QuitStays(s: State, steps: seq<Step>, id: nat, res: Option<WError>)
    requires Quit(s, id, res)
    ensures Quit(Run(Next, s, steps), id, res)
    decreases |steps|
  {
    if steps != [] {
      QuitStep(s, steps[0], id, res);
      QuitStays(Next(s, steps[0]), steps[1..], id, res);
    }
  }

  /** Before the send a caller may leave, for its own reason or for the closed store; its task then never runs. */
  lemma QuitNeverRuns(s: State, log: seq<Event>, id: nat, err: WError, step: Step, steps: seq<Step>)
    requires Reachable(s, log) && At(s, id, Trying)
    requires step == GiveUp(id, err) || (step == SeesClosed(id) && s.cancelled && err == STORE_CLOSED)
    ensures var t := Run(Next, Next(s, step), steps);
      At(t, id, Returned(Some(err))) && id !in t.book.enqueued && id !in t.book.ran && id !in t.book.stored
  {
    ReachableInv(s, log);
    TryingIsNotQueued(s, id);
    StepKeeps(s, step, log);
    QuitStays(Next(s, step), steps, id, Some(err));
    RunKeeps(Next(s, step), steps, log);
    var t := Run(Next, Next(s, step), steps);
    assert t.book.enqueued == t.book.taken + t.queue;
    if id in t.book.stored { StoredWasSent(t, id); }
  }

  predicate ToldClosed(s: State, id: nat) { id in s.desk.answers && s.desk.answers[id] == Some(STORE_CLOSED) }

  lemma DrainsNext(s: State)
    requires s.loop == Draining && s.queue != []
    ensures var t := Next(s, DrainOne);
      && t.loop == Draining && t.queue == s.queue[1..] && t.log == s.log
      && t.book == s.book.(taken := s.book.taken + [s.queue[0]])
      && ToldClosed(t, s.queue[0]) && forall id :: ToldClosed(s, id) ==> ToldClosed(t, id)
  {}

  /** The drain answers every task left, and runs none. */
  lemma DrainsAll(start: State, steps: seq<Step>, s: State) returns (more: seq<Step>, t: State)
    requires Run(Next, start, steps) == s && s.loop == Draining
    ensures Run(Next, start, more) == t && t.loop == Draining && t.queue == []
    ensures t.log == s.log && t.book == s.book.(taken := s.book.taken + s.queue)
    ensures forall id :: ToldClosed(s, id) || id in s.queue ==> ToldClosed(t, id)
    decreases |s.queue|
  {
    more, t := steps, s;
    if s.queue == [] {
      assert s.book.taken + [] == s.book.taken;
    } else {
      DrainsNext(s);
      more, t := Go(Next, start, more, t, DrainOne);
      more, t := DrainsAll(start, more, t);
      assert (s.book.taken + [s.queue[0]]) + s.queue[1..] == s.book.taken + s.queue;
    }
  }

  /** From a shutdown between two tasks the writer can end: whoever is queued is told, and the handles are closed. */
  lemma ShutdownEnds(s: State) returns (steps: seq<Step>)
    requires s.loop == Selecting && s.shutdown
    ensures var t := Run(Next, s, steps);
      && t.loop == Done && t.handlesClosed && t.queue == [] && t.log == s.log
      && t.book == s.book.(taken := s.book.taken + s.queue) && forall id :: id in s.queue ==> ToldClosed(t, id)
  {
    var t: State;
    steps := [];
    steps, t := Go(Next, s, steps, s, Cancel);
    steps, t := Go(Next, s, steps, t, BeginDrain);
    steps, t := DrainsAll(s, steps, t);
    steps, t := Go(Next, s, steps, t, DrainEnd);
    steps, t := Go(Next, s, steps, t, CloseHandles);
  }
}
