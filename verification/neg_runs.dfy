/**
 What the session accounting of NIP-77 keeps over whole runs (internal/relay/nip77.go): how far the
 counter may pass the configured maximum, when it is exact, and that a timer or failed message of an
 old session never touches a newer one.
 */
module NegRuns {
  import opened Base
  import opened Runs
  import opened NegAccounting
  import NegSessions

  // ---- the configured maximum -------------------------------------------------------------

  /** 1 while an open has passed the limit check and has not reserved its slot. */
  function Opening(k: Conn): nat {
    if k.pc.OpenChecked? || k.pc.OpenClosed? || k.pc.OpenReady? then 1 else 0
  }

  function Openings(s: State): nat { Sum(s.conns, Opening) }

  /** The step leaves at most overlap opens between their limit check and their reservation. */
  function AtMostOpening(overlap: nat): (State, Step) -> bool {
    (s: State, step: Step) => Openings(Next(s, step)) <= overlap
  }

  lemma SectionOpening(k: Conn, act: Act, room: bool)
    ensures var m := Section(k, act, room);
      if act.OpenCheck? && k.pc == Idle && room then m.active == 0 && Opening(m.k) == 1 && Opening(k) == 0
      else m.active + Opening(m.k) <= Opening(k)
  {}

  lemma OpeningStep(s: State, step: Step)
    ensures var s' := Next(s, step);
      s'.max == s.max && (s'.active + Openings(s') <= s.active + Openings(s) || (s'.active == s.active < s.max))
  {
    match step {
      case Connect => SumAppend(s.conns, Conn(Idle, map[]), Opening);
      case On(c, act) =>
        if c < |s.conns| {
          SectionOpening(s.conns[c], act, s.active < s.max);
          SumUpdate(s.conns, c, Section(s.conns[c], act, s.active < s.max).k, Opening);
        }
      case Enqueue(c) =>
        if c < |s.conns| && s.conns[c].pc.OpenReserved? {
          SumUpdate(s.conns, c, s.conns[c].(pc := if |s.queue| < QUEUE_CAPACITY then Idle else Owes), Opening);
        }
      case JobStore =>
        if s.running.Some? && s.running.value.conn < |s.conns| {
          SumUpdate(s.conns, s.running.value.conn, Next(s, JobStore).conns[s.running.value.conn], Opening);
        }
      case _ =>
    }
  }

  /** Checks and reservations that overlap on n connections can pass the maximum, by at most n - 1. */
  lemma {:induction false} MaximumUpToOverlap(s: State, steps: seq<Step>, overlap: nat)
    requires overlap >= 1 && s.active + Openings(s) <= s.max + overlap - 1
    requires Obeys(Next, s, steps, AtMostOpening(overlap))
    ensures Run(Next, s, steps).active <= s.max + overlap - 1
    decreases |steps|
  {
    if steps != [] {
      OpeningStep(s, steps[0]);
      MaximumUpToOverlap(Next(s, steps[0]), steps[1..], overlap);
    }
  }

  /** reserved connections have a slot, checked ones are about to reserve theirs. */
  ghost predicate Lined(s: State, sub: string, reserved: nat, checked: nat) {
    && |s.conns| == reserved + checked && s.active == reserved && Openings(s) == checked
    && forall i :: 0 <= i < |s.conns| ==>
      s.conns[i] == Conn(if i < reserved then OpenReserved(sub) else OpenReady(sub), map[])
  }

  lemma Connected(start: State, s: State, sub: string, reserved: nat, checked: nat, n: nat) returns (t: State)
    requires Reaches(Next, start, s, AtMostOpening(n)) && Lined(s, sub, reserved, checked) && checked <= n
    ensures Reaches(Next, start, t, AtMostOpening(n)) && t == s.(conns := s.conns + [Conn(Idle, map[])])
    ensures Openings(t) == checked
  {
    SumAppend(s.conns, Conn(Idle, map[]), Opening);
    t := Next(s, Connect);
    ReachesThen(Next, start, s, AtMostOpening(n), Connect);
  }

  lemma LastUpdate(conns: seq<Conn>, k: Conn, k': Conn)
    ensures (conns + [k])[|conns| := k'] == conns + [k']
    ensures Sum(conns + [k'], Opening) == Sum(conns, Opening) + Opening(k')
  {
    SumAppend(conns, k', Opening);
  }

  lemma OneMoreChecked(start: State, s: State, sub: string, reserved: nat, checked: nat, n: nat) returns (t: State)
    requires Reaches(Next, start, s, AtMostOpening(n)) && Lined(s, sub, reserved, checked)
    requires s.active < s.max && checked < n
    ensures Reaches(Next, start, t, AtMostOpening(n)) && Lined(t, sub, reserved, checked + 1) && t.max == s.max
  {
    var c := |s.conns|;
    t := Connected(start, s, sub, reserved, checked, n);
    var check, close := On(c, OpenCheck(sub)), On(c, OpenClose);
    LastUpdate(s.conns, Conn(Idle, map[]), Conn(OpenChecked(sub), map[]));
    assert Next(t, check) == s.(conns := s.conns + [Conn(OpenChecked(sub), map[])]);
    ReachesThen(Next, start, t, AtMostOpening(n), check);
    t := Next(t, check);
    LastUpdate(s.conns, Conn(OpenChecked(sub), map[]), Conn(OpenReady(sub), map[]));
    assert Next(t, close) == s.(conns := s.conns + [Conn(OpenReady(sub), map[])]);
    ReachesThen(Next, start, t, AtMostOpening(n), close);
    t := Next(t, close);
  }

  lemma OneMoreReserved(start: State, s: State, sub: string, reserved: nat, checked: nat, n: nat) returns (t: State)
    requires Reaches(Next, start, s, AtMostOpening(n)) && Lined(s, sub, reserved, checked) && 1 <= checked <= n
    ensures Reaches(Next, start, t, AtMostOpening(n)) && Lined(t, sub, reserved + 1, checked - 1) && t.max == s.max
  {
    var step := On(reserved, OpenReserve);
    SumUpdate(s.conns, reserved, Conn(OpenReserved(sub), map[]), Opening);
    t := Next(s, step);
    assert t.conns == s.conns[reserved := Conn(OpenReserved(sub), map[])];
    ReachesThen(Next, start, s, AtMostOpening(n), step);
  }

  lemma AllChecked(start: State, s: State, sub: string, reserved: nat, checked: nat, n: nat) returns (t: State)
    requires Reaches(Next, start, s, AtMostOpening(n)) && Lined(s, sub, reserved, checked)
    requires s.active < s.max && checked <= n
    ensures Reaches(Next, start, t, AtMostOpening(n)) && Lined(t, sub, reserved, n) && t.max == s.max
    decreases n - checked
  {
    t := s;
    if checked < n {
      t := OneMoreChecked(start, s, sub, reserved, checked, n);
      t := AllChecked(start, t, sub, reserved, checked + 1, n);
    }
  }

  lemma AllReserved(start: State, s: State, sub: string, reserved: nat, checked: nat, n: nat) returns (t: State)
    requires Reaches(Next, start, s, AtMostOpening(n)) && Lined(s, sub, reserved, checked) && checked <= n
    ensures Reaches(Next, start, t, AtMostOpening(n)) && Lined(t, sub, reserved + checked, 0) && t.max == s.max
    decreases checked
  {
    t := s;
    if checked > 0 {
      t := OneMoreReserved(start, s, sub, reserved, checked, n);
      t := AllReserved(start, t, sub, reserved + 1, checked - 1, n);
    }
  }

  lemma Filled(start: State, s: State, sub: string, reserved: nat, goal: nat, n: nat) returns (t: State)
    requires Reaches(Next, start, s, AtMostOpening(n)) && Lined(s, sub, reserved, 0)
    requires reserved <= goal < s.max && n >= 1
    ensures Reaches(Next, start, t, AtMostOpening(n)) && Lined(t, sub, goal, 0) && t.max == s.max
    decreases goal - reserved
  {
    t := s;
    if reserved < goal {
      t := OneMoreChecked(start, s, sub, reserved, 0, n);
      t := OneMoreReserved(start, t, sub, reserved, 1, n);
      t := Filled(start, t, sub, reserved + 1, goal, n);
    }
  }

  /** And n overlapping opens do pass it by n - 1, whatever the maximum. */
  lemma MaximumIsPassed(max: nat, n: nat) returns (t: State)
    requires max >= 1 && n >= 1
    ensures Reaches(Next, Init(max), t, AtMostOpening(n)) && t.active == max + n - 1
  {
    ReachesSelf(Next, Init(max), AtMostOpening(n));
    t := Filled(Init(max), Init(max), "", 0, max - 1, n);
    t := AllChecked(Init(max), t, "", max - 1, 0, n);
    t := AllReserved(Init(max), t, "", max - 1, n, n);
  }

  /** The counter never passes the maximum if and only if no two opens are ever between check and reservation. */
  lemma MaximumHoldsIff(max: nat, n: nat)
    requires max >= 1 && n >= 1
    ensures n == 1 <==> forall t :: Reaches(Next, Init(max), t, AtMostOpening(n)) ==> t.active <= max
  {
    if n == 1 {
      forall t | Reaches(Next, Init(max), t, AtMostOpening(n)) ensures t.active <= max {
        var steps: seq<Step> :| Obeys(Next, Init(max), steps, AtMostOpening(n)) && Run(Next, Init(max), steps) == t;
        MaximumUpToOverlap(Init(max), steps, n);
      }
    } else {
      var t := MaximumIsPassed(max, n);
    }
  }

  // ---- when the counter is exact ------------------------------------------------------------

  ghost function Jobs(s: State): set<Job> {
    (set j | j in s.queue) + if s.running.Some? then {s.running.value} else {}
  }

  /** Connection c's sessions and pending opens do not meet, and its read loop knows what it thinks it knows. */
  predicate Fine(k: Conn, c: nat, jobs: set<Job>) {
    && (forall sub :: sub in k.sessions ==> Job(c, sub) !in jobs)
    && match k.pc
       case OpenChecked(sub) => Job(c, sub) !in jobs
       case OpenClosed(sub) => Job(c, sub) !in jobs && sub !in k.sessions
       case OpenReady(sub) => Job(c, sub) !in jobs && sub !in k.sessions
       case OpenReserved(sub) => Job(c, sub) !in jobs && sub !in k.sessions
       case MsgGot(sub, sess) => Job(c, sub) !in jobs && (sub in k.sessions ==> k.sessions[sub] == sess)
       case Counted(n) => n == |k.sessions|
       case _ => true
  }

  ghost predicate Tidy(s: State) {
    && s.replaced == 0 && s.tornGap == 0
    && (forall i, j :: 0 <= i < j < |s.queue| ==> s.queue[i] != s.queue[j])
    && (s.running.Some? ==> s.running.value !in s.queue)
    && (forall c: nat :: c < |s.conns| ==> Fine(s.conns[c], c, Jobs(s)))
    && (forall j :: j in Jobs(s) ==> j.conn < |s.conns|)
  }

  /**
   No sub id is reopened while its own earlier open is pending, and between a teardown's count and
   its clear no job and no timer touches that connection.
   */
  ghost predicate TidyRule(s: State, step: Step) {
    && TimerRule(s, step)
    && (step.On? && step.act.OpenCheck? ==> Job(step.c, step.act.sub) !in Jobs(s))
    && (step == JobStore && s.running.Some? && s.running.value.conn < |s.conns| ==>
        !s.conns[s.running.value.conn].pc.Counted?)
  }

  lemma SectionFine(k: Conn, act: Act, room: bool, c: nat, jobs: set<Job>)
    requires Fine(k, c, jobs)
    requires act.OpenCheck? ==> Job(c, act.sub) !in jobs
    requires act.IdleFire? && k.pc.Counted? ==> !Holds(k, act.sub, act.sess)
    ensures var m := Section(k, act, room); Fine(m.k, c, jobs) && m.tornGap == 0
  {}

  lemma OnTidy(s: State, c: nat, act: Act)
    requires Tidy(s) && TidyRule(s, On(c, act))
    ensures Tidy(Next(s, On(c, act)))
  {
    if c < |s.conns| {
      SectionFine(s.conns[c], act, s.active < s.max, c, Jobs(s));
      assert Jobs(Next(s, On(c, act))) == Jobs(s);
    }
  }

  lemma EnqueueTidy(s: State, c: nat)
    requires Tidy(s)
    ensures Tidy(Next(s, Enqueue(c)))
  {
    if c < |s.conns| && s.conns[c].pc.OpenReserved? {
      var s', j := Next(s, Enqueue(c)), Job(c, s.conns[c].pc.sub);
      assert Jobs(s') <= Jobs(s) + {j};
      assert j !in Jobs(s);
      assert j !in s.queue;
    }
  }

  lemma WorkerTidy(s: State, step: Step)
    requires step == JobTake || step == JobRelease || step == JobStore
    requires Tidy(s) && TidyRule(s, step)
    ensures Tidy(Next(s, step))
  {
    var s' := Next(s, step);
    if step == JobTake {
      assert Jobs(s') <= Jobs(s);
    } else if s.running.Some? && s.running.value.conn < |s.conns| {
      assert Jobs(s') <= Jobs(s) - {s.running.value};
    }
  }

  lemma TidyStep(s: State, step: Step)
    requires Tidy(s) && TidyRule(s, step)
    ensures Tidy(Next(s, step))
  {
    match step {
      case On(c, act) => OnTidy(s, c, act);
      case Enqueue(c) => EnqueueTidy(s, c);
      case JobTake => WorkerTidy(s, step);
      case JobRelease => WorkerTidy(s, step);
      case JobStore => WorkerTidy(s, step);
      case _ => assert Jobs(Next(s, step)) == Jobs(s);
    }
  }

  /**
   In such runs the counter is exactly sessions, jobs and releases due, and a finished sync removes
   its own session.
   */
  lemma {:induction false} CounterIsExact(s: State, steps: seq<Step>)
    requires Accounted(s) && Tidy(s) && Obeys(Next, s, steps, TidyRule)
    ensures var t := Run(Next, s, steps); t.active == Holders(t)
    ensures forall c: nat :: var t := Run(Next, s, steps);
      c < |t.conns| && t.conns[c].pc.MsgGot? && t.conns[c].pc.sub in t.conns[c].sessions ==>
      Holds(t.conns[c], t.conns[c].pc.sub, t.conns[c].pc.sess)
    decreases |steps|
  {
    if steps != [] {
      AccountedStep(s, steps[0]);
      TidyStep(s, steps[0]);
      CounterIsExact(Next(s, steps[0]), steps[1..]);
    } else {
      assert forall c: nat :: c < |s.conns| ==> Fine(s.conns[c], c, Jobs(s));
    }
  }

  /** A fresh relay meets the starting conditions of every theorem above. */
  lemma FreshRelay(max: nat)
    ensures Accounted(Init(max)) && NotUndercounted(Init(max)) && Tidy(Init(max)) && Openings(Init(max)) == 0
  {}

  /** Two opens of the same sub id, the second sent while the first was still queued; one job has run. */
  lemma ReopenedWhileQueued(sub: string) returns (steps: seq<Step>, s: State)
    ensures Run(Next, Init(2), steps) == s == State(2, 2, [Conn(Idle, map[sub := 0])], [Job(0, sub)], None, 0, 1, 0, 0)
  {
    var i := Init(2);
    steps, s := Go(Next, i, [], i, Connect);
    steps, s := OpenFully(i, steps, s, sub);
    steps, s := OpenFully(i, steps, s, sub);
    steps, s := Go(Next, i, steps, s, JobTake);
    steps, s := Go(Next, i, steps, s, JobStore);
  }

  /** An open with no session under its sub id, from check to queue. */
  lemma OpenFully(start: State, before: seq<Step>, s: State, sub: string) returns (steps: seq<Step>, s': State)
    requires Run(Next, start, before) == s && s.conns == [Conn(Idle, map[])]
    requires s.active < s.max && |s.queue| < QUEUE_CAPACITY
    ensures Run(Next, start, steps) == s' == s.(active := s.active + 1, queue := s.queue + [Job(0, sub)])
  {
    steps, s' := GoOn(start, before, s, Conn(Idle, map[]), OpenCheck(sub));
    steps, s' := GoOn(start, steps, s', Conn(OpenChecked(sub), map[]), OpenClose);
    steps, s' := GoOn(start, steps, s', Conn(OpenReady(sub), map[]), OpenReserve);
    steps, s' := Go(Next, start, steps, s', Enqueue(0));
  }

  /** The second job stores while a message on session 0 is being reconciled. */
  lemma StoredOver(sub: string) returns (steps: seq<Step>, s: State)
    ensures Run(Next, Init(2), steps) == s == State(2, 2, [Conn(MsgGot(sub, 0), map[sub := 1])], [], None, 0, 2, 1, 0)
  {
    var i := Init(2);
    steps, s := ReopenedWhileQueued(sub);
    steps, s := GoOn(i, steps, s, Conn(Idle, map[sub := 0]), MsgGet(sub));
    steps, s := Go(Next, i, steps, s, JobTake);
    steps, s := Go(Next, i, steps, s, JobStore);
    assert map[sub := 0][sub := 1] == map[sub := 1];
  }

  /**
   Outside such runs: the second store replaces session 0 without releasing it, and the message that
   finishes session 0 removes session 1, so one slot stays taken with nothing left to release it.
   */
  lemma ReopenLeaksAndRemovesNewer(sub: string) returns (steps: seq<Step>)
    ensures Run(Next, Init(2), steps) == State(2, 1, [Conn(Idle, map[])], [], None, 0, 2, 1, 0)
  {
    var s;
    steps, s := StoredOver(sub);
    assert map[sub := 1] - {sub} == map[];
    steps, s := GoOn(Init(2), steps, s, Conn(MsgGot(sub, 0), map[sub := 1]), MsgDone);
    steps, s := GoOn(Init(2), steps, s, Conn(Owes, map[]), Release);
  }

  /** The worker holds the job of the only open, and the teardown has counted no session. */
  lemma CountedBeforeStore(sub: string) returns (steps: seq<Step>, s: State)
    ensures Run(Next, Init(1), steps) == s == State(1, 1, [Conn(Counted(0), map[])], [], Some(Job(0, sub)), 0, 0, 0, 0)
  {
    var i := Init(1);
    steps, s := Go(Next, i, [], i, Connect);
    steps, s := OpenFully(i, steps, s, sub);
    steps, s := Go(Next, i, steps, s, JobTake);
    steps, s := GoOn(i, steps, s, Conn(Idle, map[]), TearCount);
  }

  /** A job stores between a teardown's count and its clear: the session is cleared, and its slot never released. */
  lemma StoreInTeardownLeaks(sub: string) returns (steps: seq<Step>, s: State)
    ensures Run(Next, Init(1), steps) == s == State(1, 1, [Conn(Gone, map[])], [], None, 0, 1, 0, 1) && Holders(s) == 0
  {
    steps, s := CountedBeforeStore(sub);
    steps, s := Go(Next, Init(1), steps, s, JobStore);
    CardPut(map[], sub, 0);
    steps, s := GoOn(Init(1), steps, s, Conn(Counted(0), map[sub := 0]), TearClear);
    steps, s := GoOn(Init(1), steps, s, Conn(ClearedAll(0), map[]), TearRelease);
  }

  // ---- stale timers and failed messages -----------------------------------------------------

  lemma GoneStaysGoneStep(s: State, step: Step, c: nat, sub: string, sess: nat)
    requires c < |s.conns| && sess < s.nextSess && !Holds(s.conns[c], sub, sess)
    ensures var s' := Next(s, step); c < |s'.conns| && sess < s'.nextSess && !Holds(s'.conns[c], sub, sess)
  {
    if step.On? && step.c == c {
      var m := Section(s.conns[c], step.act, s.active < s.max);
      assert forall k :: k in m.k.sessions ==> k in s.conns[c].sessions && m.k.sessions[k] == s.conns[c].sessions[k];
    }
  }

  /** Once a session is gone its timer and its failing message are no-ops on sessions and counter, for ever. */
  lemma {:induction false} StaleNeverTouchesNewer(s: State, steps: seq<Step>, c: nat, sub: string, sess: nat)
    requires c < |s.conns| && sess < s.nextSess && !Holds(s.conns[c], sub, sess)
    ensures var t := Run(Next, s, steps); c < |t.conns| && Next(t, On(c, IdleFire(sub, sess))) == t
    ensures var t := Run(Next, s, steps);
      t.conns[c].pc == MsgGot(sub, sess) ==>
      Next(t, On(c, MsgFail)) == t.(conns := t.conns[c := t.conns[c].(pc := Idle)])
    decreases |steps|
  {
    if steps == [] {
      assert NegSessions.RemovedIf(s.conns[c].sessions, sub, sess) == s.conns[c].sessions;
      assert s.conns[c := s.conns[c]] == s.conns;
    } else {
      GoneStaysGoneStep(s, steps[0], c, sub, sess);
      StaleNeverTouchesNewer(Next(s, steps[0]), steps[1..], c, sub, sess);
    }
  }
}
