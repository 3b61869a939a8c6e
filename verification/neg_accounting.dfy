/**
 The global session counter of NIP-77 under every interleaving of the connections' read loops,
 the open-job worker and the idle timers (internal/relay/nip77.go, internal/relay/neg_sessions.go,
 internal/relay/negqueue.go, the teardown of internal/relay/relay.go).

 One step is one mutex section or one atomic add. A session is named by the order in which it
 was created, so a name stands for one instance. The fields replaced and tornGap of the state are
 history: they count what the counter is never told about.
 */
module NegAccounting {
  import opened Base
  import opened Runs
  import NegSessions

  const QUEUE_CAPACITY := 64

  /** Where a connection's read loop stands between two atomic sections. */
  datatype Pc =
    | Idle
    | OpenChecked(sub: string)             // limit checked, old session not yet closed
    | OpenClosed(sub: string)              // old session closed, its slot not yet released
    | OpenReady(sub: string)               // slot not yet reserved
    | OpenReserved(sub: string)            // reserved, job not yet queued
    | MsgGot(sub: string, sess: nat)       // session fetched, reconcile under way
    | Owes                                 // one slot given up, not yet released
    | Counted(n: nat)                      // teardown: count taken, map not yet cleared
    | ClearedAll(n: nat)                   // teardown: map cleared, n slots not yet released
    | Gone

  datatype Conn = Conn(pc: Pc, sessions: map<string, nat>)

  datatype Job = Job(conn: nat, sub: string)

  datatype State = State(
    max: nat,
    active: int,
    conns: seq<Conn>,
    queue: seq<Job>,
    running: Option<Job>,
    idleOwes: nat,
    nextSess: nat,
    replaced: nat,
    tornGap: int)

  /** An atomic section of one connection, or of an idle timer on one connection. */
  datatype Act =
    | OpenCheck(sub: string)
    | OpenClose
    | OpenRelease
    | OpenReserve
    | MsgGet(sub: string)
    | MsgContinue
    | MsgFail
    | MsgDone
    | CloseMsg(sub: string)
    | Release
    | IdleFire(sub: string, sess: nat)
    | TearCount
    | TearClear
    | TearRelease

  datatype Step =
    | Connect
    | On(c: nat, act: Act)
    | Enqueue(c: nat)
    | JobTake
    | JobRelease                           // capacity, count, query or reconcile failure, or nothing to sync
    | JobStore
    | IdleRelease

  /** What a section does to its connection, and by how much it moves the shared fields. */
  datatype Move = Move(k: Conn, active: int, idleOwes: nat, tornGap: int)

  predicate Holds(k: Conn, sub: string, sess: nat) { sub in k.sessions && k.sessions[sub] == sess }

  /** Drops sub whichever session holds it; the read loop goes on at got when there was one. */
  function Drop(k: Conn, sub: string, got: Pc, none: Pc): Conn {
    if sub in k.sessions then Conn(got, k.sessions - {sub}) else k.(pc := none)
  }

  /** Drops sub only while sess holds it. */
  function DropSame(k: Conn, sub: string, sess: nat, got: Pc, none: Pc): Conn {
    Conn(if Holds(k, sub, sess) then got else none, NegSessions.RemovedIf(k.sessions, sub, sess))
  }

  /** A section that is not enabled changes nothing. room: the counter is below the limit. */
  function Section(k: Conn, act: Act, room: bool): Move {
    var stay := Move(k, 0, 0, 0);
    match act
    case OpenCheck(sub) => if k.pc == Idle && room then stay.(k := k.(pc := OpenChecked(sub))) else stay
    case OpenClose =>
      if k.pc.OpenChecked? then stay.(k := Drop(k, k.pc.sub, OpenClosed(k.pc.sub), OpenReady(k.pc.sub))) else stay
    case OpenRelease => if k.pc.OpenClosed? then Move(k.(pc := OpenReady(k.pc.sub)), -1, 0, 0) else stay
    case OpenReserve => if k.pc.OpenReady? then Move(k.(pc := OpenReserved(k.pc.sub)), 1, 0, 0) else stay
    case MsgGet(sub) =>
      if k.pc == Idle && sub in k.sessions then stay.(k := k.(pc := MsgGot(sub, k.sessions[sub]))) else stay
    case MsgContinue => if k.pc.MsgGot? then stay.(k := k.(pc := Idle)) else stay
    case MsgFail => if k.pc.MsgGot? then stay.(k := DropSame(k, k.pc.sub, k.pc.sess, Owes, Idle)) else stay
    case MsgDone => if k.pc.MsgGot? then stay.(k := Drop(k, k.pc.sub, Owes, Idle)) else stay
    case CloseMsg(sub) => if k.pc == Idle then stay.(k := Drop(k, sub, Owes, Idle)) else stay
    case Release => if k.pc == Owes then Move(k.(pc := Idle), -1, 0, 0) else stay
    case IdleFire(sub, sess) =>
      Move(DropSame(k, sub, sess, k.pc, k.pc), 0, if Holds(k, sub, sess) then 1 else 0, 0)
    case TearCount => if k.pc == Idle then stay.(k := k.(pc := Counted(|k.sessions|))) else stay
    case TearClear =>
      if k.pc.Counted? then Move(Conn(ClearedAll(k.pc.n), map[]), 0, 0, |k.sessions| - k.pc.n) else stay
    case TearRelease => if k.pc.ClearedAll? then Move(k.(pc := Gone), 0 - k.pc.n, 0, 0) else stay
  }

  function Init(max: nat): State { State(max, 0, [], [], None, 0, 0, 0, 0) }

  function Next(s: State, step: Step): State {
    match step
    case Connect => s.(conns := s.conns + [Conn(Idle, map[])])
    case On(c, act) =>
      if c < |s.conns| then
        var m := Section(s.conns[c], act, s.active < s.max);
        s.(conns := s.conns[c := m.k], active := s.active + m.active,
           idleOwes := s.idleOwes + m.idleOwes, tornGap := s.tornGap + m.tornGap)
      else s
    case Enqueue(c) =>
      if c < |s.conns| && s.conns[c].pc.OpenReserved? then
        var k := s.conns[c];
        if |s.queue| < QUEUE_CAPACITY
        then s.(conns := s.conns[c := k.(pc := Idle)], queue := s.queue + [Job(c, k.pc.sub)])
        else s.(conns := s.conns[c := k.(pc := Owes)])
      else s
    case JobTake =>
      if s.running.None? && s.queue != [] then s.(queue := s.queue[1..], running := Some(s.queue[0])) else s
    case JobRelease => if s.running.Some? then s.(running := None, active := s.active - 1) else s
    case JobStore =>
      if s.running.Some? && s.running.value.conn < |s.conns| then
        var j := s.running.value;
        var k := s.conns[j.conn];
        s.(conns := s.conns[j.conn := k.(sessions := k.sessions[j.sub := s.nextSess])],
           running := None, nextSess := s.nextSess + 1,
           replaced := s.replaced + if j.sub in k.sessions then 1 else 0)
      else s
    case IdleRelease => if s.idleOwes > 0 then s.(idleOwes := s.idleOwes - 1, active := s.active - 1) else s
  }

  // ---- the accounting identity ----------------------------------------------------------

  /** Slots a read loop holds without a session or job: reserved, or given up but not yet released. */
  function Held(pc: Pc): nat {
    match pc
    case OpenClosed(_) => 1
    case OpenReserved(_) => 1
    case Owes => 1
    case ClearedAll(n) => n
    case _ => 0
  }

  function Own(k: Conn): nat { |k.sessions| + Held(k.pc) }

  function Sum(conns: seq<Conn>, f: Conn -> nat): nat {
    if conns == [] then 0 else f(conns[0]) + Sum(conns[1..], f)
  }

  function Running(s: State): nat { if s.running.Some? then 1 else 0 }

  /** Every slot that somebody still holds: a session, a job, or a release that is due. */
  function Holders(s: State): nat { Sum(s.conns, Own) + |s.queue| + Running(s) + s.idleOwes }

  /** The counter is its holders, plus the two leaks. */
  ghost predicate Accounted(s: State) { s.active == Holders(s) + s.replaced + s.tornGap }

  lemma {:induction false} SumUpdate(conns: seq<Conn>, i: nat, k: Conn, f: Conn -> nat)
    requires i < |conns|
    ensures Sum(conns[i := k], f) == Sum(conns, f) - f(conns[i]) + f(k)
  {
    if i == 0 {
      assert conns[0 := k][1..] == conns[1..];
    } else {
      assert conns[i := k][1..] == conns[1..][i - 1 := k];
      SumUpdate(conns[1..], i - 1, k, f);
    }
  }

  lemma {:induction false} SumAppend(conns: seq<Conn>, k: Conn, f: Conn -> nat)
    ensures Sum(conns + [k], f) == Sum(conns, f) + f(k)
  {
    if conns != [] {
      assert (conns + [k])[1..] == conns[1..] + [k];
      SumAppend(conns[1..], k, f);
    } else {
      assert [k][1..] == [];
    }
  }

  lemma CardRemove(m: map<string, nat>, k: string)
    requires k in m
    ensures |m - {k}| == |m| - 1
  {
    assert (m - {k}).Keys == m.Keys - {k};
  }

  lemma CardPut(m: map<string, nat>, k: string, v: nat)
    ensures |m[k := v]| == |m| + if k in m then 0 else 1
  {
    assert m[k := v].Keys == m.Keys + {k};
  }

  lemma DropCard(k: Conn, sub: string, got: Pc, none: Pc)
    ensures |Drop(k, sub, got, none).sessions| == |k.sessions| - if sub in k.sessions then 1 else 0
  {
    if sub in k.sessions { CardRemove(k.sessions, sub); }
  }

  lemma DropSameCard(k: Conn, sub: string, sess: nat, got: Pc, none: Pc)
    ensures |DropSame(k, sub, sess, got, none).sessions| == |k.sessions| - if Holds(k, sub, sess) then 1 else 0
  {
    if Holds(k, sub, sess) { CardRemove(k.sessions, sub); }
  }

  /** A section moves the counter by what it adds to or takes from its own slots and the leaks. */
  ghost predicate Balances(k: Conn, act: Act, room: bool) {
    var m := Section(k, act, room);
    m.active == Own(m.k) - Own(k) + m.idleOwes + m.tornGap
  }

  lemma OpenCloseBalances(k: Conn, room: bool)
    ensures Balances(k, OpenClose, room)
  {
    if k.pc.OpenChecked? { DropCard(k, k.pc.sub, OpenClosed(k.pc.sub), OpenReady(k.pc.sub)); }
  }

  lemma DropBalances(k: Conn, act: Act, room: bool)
    requires act.MsgDone? || act.CloseMsg?
    ensures Balances(k, act, room)
  {
    match act {
      case MsgDone => if k.pc.MsgGot? { DropCard(k, k.pc.sub, Owes, Idle); }
      case CloseMsg(sub) => DropCard(k, sub, Owes, Idle);
    }
  }

  lemma MsgFailBalances(k: Conn, room: bool)
    ensures Balances(k, MsgFail, room)
  {
    if k.pc.MsgGot? { DropSameCard(k, k.pc.sub, k.pc.sess, Owes, Idle); }
  }

  lemma IdleFireBalances(k: Conn, sub: string, sess: nat, room: bool)
    ensures Balances(k, IdleFire(sub, sess), room)
  {
    DropSameCard(k, sub, sess, k.pc, k.pc);
  }

  lemma SectionBalances(k: Conn, act: Act, room: bool)
    ensures Balances(k, act, room)
  {
    if act == OpenClose {
      OpenCloseBalances(k, room);
    } else if act.MsgDone? || act.CloseMsg? {
      DropBalances(k, act, room);
    } else if act.MsgFail? {
      MsgFailBalances(k, room);
    } else if act.IdleFire? {
      IdleFireBalances(k, act.sub, act.sess, room);
    }
  }

  lemma OnBalances(s: State, c: nat, act: Act)
    requires Accounted(s)
    ensures Accounted(Next(s, On(c, act)))
  {
    if c < |s.conns| {
      SectionBalances(s.conns[c], act, s.active < s.max);
      SumUpdate(s.conns, c, Section(s.conns[c], act, s.active < s.max).k, Own);
    }
  }

  lemma EnqueueBalances(s: State, c: nat)
    requires Accounted(s)
    ensures Accounted(Next(s, Enqueue(c)))
  {
    if c < |s.conns| && s.conns[c].pc.OpenReserved? {
      SumUpdate(s.conns, c, s.conns[c].(pc := if |s.queue| < QUEUE_CAPACITY then Idle else Owes), Own);
    }
  }

  lemma StoreBalances(s: State)
    requires Accounted(s)
    ensures Accounted(Next(s, JobStore))
  {
    if s.running.Some? && s.running.value.conn < |s.conns| {
      var c := s.running.value.conn;
      CardPut(s.conns[c].sessions, s.running.value.sub, s.nextSess);
      SumUpdate(s.conns, c, Next(s, JobStore).conns[c], Own);
    }
  }

  lemma AccountedStep(s: State, step: Step)
    requires Accounted(s)
    ensures Accounted(Next(s, step))
  {
    match step {
      case Connect => SumAppend(s.conns, Conn(Idle, map[]), Own);
      case On(c, act) => OnBalances(s, c, act);
      case Enqueue(c) => EnqueueBalances(s, c);
      case JobStore => StoreBalances(s);
      case _ =>
    }
  }

  /** Conservation over every run, with no assumption on the interleaving. */
  lemma {:induction false} CounterIsAccounted(s: State, steps: seq<Step>)
    requires Accounted(s)
    ensures Accounted(Run(Next, s, steps))
    decreases |steps|
  {
    if steps != [] {
      AccountedStep(s, steps[0]);
      CounterIsAccounted(Next(s, steps[0]), steps[1..]);
    }
  }

  // ---- never below the holders ------------------------------------------------------------

  /** No idle timer of a connection removes a session between its teardown's count and its clear. */
  predicate TimerRule(s: State, step: Step) {
    !(step.On? && step.act.IdleFire? && step.c < |s.conns| && s.conns[step.c].pc.Counted?
      && Holds(s.conns[step.c], step.act.sub, step.act.sess))
  }

  ghost predicate NotUndercounted(s: State) {
    && s.tornGap >= 0
    && forall c: nat :: c < |s.conns| && s.conns[c].pc.Counted? ==> s.conns[c].pc.n <= |s.conns[c].sessions|
  }

  lemma NotUndercountedStep(s: State, step: Step)
    requires NotUndercounted(s) && TimerRule(s, step)
    ensures NotUndercounted(Next(s, step))
  {
    var s' := Next(s, step);
    forall c: nat | c < |s'.conns| && s'.conns[c].pc.Counted?
      ensures s'.conns[c].pc.n <= |s'.conns[c].sessions|
    {
      if step == JobStore && s.running.Some? && s.running.value.conn == c {
        CardPut(s.conns[c].sessions, s.running.value.sub, s.nextSess);
      }
    }
  }

  /** Without such a timer the counter covers every session and job, at the end of every run. */
  lemma {:induction false} CounterCoversHolders(s: State, steps: seq<Step>)
    requires Accounted(s) && NotUndercounted(s) && Obeys(Next, s, steps, TimerRule)
    ensures Run(Next, s, steps).active >= Holders(Run(Next, s, steps))
    decreases |steps|
  {
    if steps != [] {
      AccountedStep(s, steps[0]);
      NotUndercountedStep(s, steps[0]);
      CounterCoversHolders(Next(s, steps[0]), steps[1..]);
    }
  }

  /** From a fresh relay: connection 0 has sub open as session 0. */
  lemma OneOpened(max: nat, sub: string) returns (steps: seq<Step>, s: State)
    requires max > 0
    ensures Run(Next, Init(max), steps) == s == State(max, 1, [Conn(Idle, map[sub := 0])], [], None, 0, 1, 0, 0)
  {
    var init := Init(max);
    steps, s := Go(Next, init, [], init, Connect);
    steps, s := Go(Next, init, steps, s, On(0, OpenCheck(sub)));
    steps, s := Go(Next, init, steps, s, On(0, OpenClose));
    steps, s := Go(Next, init, steps, s, On(0, OpenReserve));
    steps, s := Go(Next, init, steps, s, Enqueue(0));
    assert s == State(max, 1, [Conn(Idle, map[])], [Job(0, sub)], None, 0, 0, 0, 0);
    steps, s := Go(Next, init, steps, s, JobTake);
    steps, s := Go(Next, init, steps, s, JobStore);
  }

  /** One more section of the only connection of a scripted run. */
  lemma GoOn(start: State, steps: seq<Step>, s: State, k: Conn, act: Act) returns (more: seq<Step>, s': State)
    requires Run(Next, start, steps) == s && s.conns == [k]
    ensures var m := Section(k, act, s.active < s.max);
      Run(Next, start, more) == s' == s.(conns := [m.k], active := s.active + m.active,
        idleOwes := s.idleOwes + m.idleOwes, tornGap := s.tornGap + m.tornGap)
  {
    more, s' := Go(Next, start, steps, s, On(0, act));
  }

  /** The teardown has counted the one session. */
  lemma CountedOne(sub: string) returns (steps: seq<Step>, s: State)
    ensures Run(Next, Init(1), steps) == s == State(1, 1, [Conn(Counted(1), map[sub := 0])], [], None, 0, 1, 0, 0)
  {
    CardPut(map[], sub, 0);
    steps, s := OneOpened(1, sub);
    steps, s := GoOn(Init(1), steps, s, Conn(Idle, map[sub := 0]), TearCount);
  }

  /** The timer fires between the teardown's count and its clear, and releases its session. */
  lemma TimerInTeardown(sub: string) returns (steps: seq<Step>, s: State)
    ensures Run(Next, Init(1), steps) == s == State(1, 0, [Conn(Counted(1), map[])], [], None, 0, 1, 0, 0)
  {
    assert map[sub := 0] - {sub} == map[];
    steps, s := CountedOne(sub);
    steps, s := GoOn(Init(1), steps, s, Conn(Counted(1), map[sub := 0]), IdleFire(sub, 0));
    steps, s := Go(Next, Init(1), steps, s, IdleRelease);
  }

  /** With such a timer the counter goes below zero: timer and teardown release the same session. */
  lemma TeardownRaceGoesNegative(sub: string) returns (steps: seq<Step>)
    ensures Run(Next, Init(1), steps).active == -1
  {
    var s;
    steps, s := TimerInTeardown(sub);
    steps, s := GoOn(Init(1), steps, s, Conn(Counted(1), map[]), TearClear);
    steps, s := GoOn(Init(1), steps, s, Conn(ClearedAll(1), map[]), TearRelease);
  }
}
