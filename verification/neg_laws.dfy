/**
 What becomes of one NIP-77 session: what opens it, what ends it, and what that does to the counter
 (internal/relay/nip77.go, internal/relay/neg_sessions.go, the teardown of internal/relay/relay.go).
 */
module NegLaws {
  import opened Base
  import opened Runs
  import opened NegAccounting

  // ---- the end of a session -------------------------------------------------------------------------

  /** The section ends the session of sub, if there is one: NEG-CLOSE, a finished or failed sync, a new open, the timer. */
  predicate Ending(k: Conn, act: Act, sub: string) {
    match act
    case CloseMsg(x) => k.pc == Idle && x == sub
    case MsgDone => k.pc.MsgGot? && k.pc.sub == sub
    case MsgFail => k.pc.MsgGot? && k.pc.sub == sub && Holds(k, sub, k.pc.sess)
    case OpenClose => k.pc == OpenChecked(sub)
    case IdleFire(x, sess) => x == sub && Holds(k, sub, sess)
    case _ => false
  }

  /** The step that gives its slot back. */
  function GivesBack(c: nat, act: Act): Step {
    match act
    case IdleFire(_, _) => IdleRelease
    case OpenClose => On(c, OpenRelease)
    case _ => On(c, Release)
  }

  /** Of connection c's sessions only that of sub may differ, and nothing about other connections does. */
  ghost predicate OnlyAt(s: State, t: State, c: nat, sub: string) {
    && c < |s.conns| == |t.conns| && (forall d: nat :: d < |s.conns| && d != c ==> t.conns[d] == s.conns[d])
    && (forall x :: x != sub ==> (x in t.conns[c].sessions <==> x in s.conns[c].sessions))
    && (forall x :: x != sub && x in s.conns[c].sessions ==> t.conns[c].sessions[x] == s.conns[c].sessions[x])
    && t.queue == s.queue && t.running == s.running && t.max == s.max
  }

  /** The session of sub is gone with its slot, and the read loop, or the timer, goes on. */
  ghost predicate GivenBack(s: State, u: State, c: nat, act: Act, sub: string) {
    && OnlyAt(s, u, c, sub) && sub !in u.conns[c].sessions && u.idleOwes == s.idleOwes
    && u.active == s.active - (if sub in s.conns[c].sessions then 1 else 0)
    && u.conns[c].pc == if act.IdleFire? then s.conns[c].pc else if act.OpenClose? then OpenReady(sub) else Idle
  }

  lemma TimerGivesBack(s: State, c: nat, act: Act, sub: string)
    requires c < |s.conns| && Ending(s.conns[c], act, sub) && act.IdleFire?
    ensures GivenBack(s, Next(Next(s, On(c, act)), IdleRelease), c, act, sub)
  {}

  lemma OpenGivesBack(s: State, c: nat, sub: string)
    requires c < |s.conns| && Ending(s.conns[c], OpenClose, sub)
    ensures GivenBack(s, Next(Next(s, On(c, OpenClose)), On(c, OpenRelease)), c, OpenClose, sub)
  {}

  lemma MessageGivesBack(s: State, c: nat, act: Act, sub: string)
    requires c < |s.conns| && Ending(s.conns[c], act, sub) && !act.IdleFire? && !act.OpenClose?
    ensures GivenBack(s, Next(Next(s, On(c, act)), On(c, Release)), c, act, sub)
  {}

  /**
   Whatever ends a session, it is gone at once and every other is as it was; the step after that gives back one slot
   exactly if there was a session.
   */
  lemma EndingEndsSession(s: State, c: nat, act: Act, sub: string)
    requires c < |s.conns| && Ending(s.conns[c], act, sub)
    ensures var t := Next(s, On(c, act));
      OnlyAt(s, t, c, sub) && sub !in t.conns[c].sessions && t.active == s.active
    ensures GivenBack(s, Next(Next(s, On(c, act)), GivesBack(c, act)), c, act, sub)
  {
    match act {
      case IdleFire(_, _) => TimerGivesBack(s, c, act, sub);
      case OpenClose => OpenGivesBack(s, c, sub);
      case _ => MessageGivesBack(s, c, act, sub);
    }
  }

  /** A message that neither ends nor fails its sync, or fails on a session gone meanwhile, changes no session. */
  lemma OtherMessagesChangeNothing(s: State, c: nat, act: Act)
    requires c < |s.conns| && s.conns[c].pc.MsgGot?
    requires act.MsgContinue? || (act.MsgFail? && !Holds(s.conns[c], s.conns[c].pc.sub, s.conns[c].pc.sess))
    ensures Next(s, On(c, act)) == s.(conns := s.conns[c := s.conns[c].(pc := Idle)])
  {}

  /** Any step but the worker storing a session of sub on connection c. */
  function NoStoreOf(c: nat, sub: string): (State, Step) -> bool {
    (s: State, step: Step) => !(step == JobStore && s.running == Some(Job(c, sub)))
  }

  lemma AbsentStep(s: State, step: Step, c: nat, sub: string)
    requires c < |s.conns| && sub !in s.conns[c].sessions && NoStoreOf(c, sub)(s, step)
    ensures c < |Next(s, step).conns| && sub !in Next(s, step).conns[c].sessions
  {}

  /** Once ended, there is no session of sub on the connection until a later open of it is stored. */
  lemma {:induction false} NoSessionUntilStored(s: State, c: nat, sub: string, steps: seq<Step>)
    requires c < |s.conns| && sub !in s.conns[c].sessions && Obeys(Next, s, steps, NoStoreOf(c, sub))
    ensures var t := Run(Next, s, steps); c < |t.conns| && sub !in t.conns[c].sessions
    decreases |steps|
  {
    if steps != [] {
      AbsentStep(s, steps[0], c, sub);
      NoSessionUntilStored(Next(s, steps[0]), c, sub, steps[1..]);
    }
  }

  // ---- teardown -------------------------------------------------------------------------------------

  /** A teardown nobody disturbs drops every session and gives back as many slots. */
  lemma TeardownGivesBackAll(s: State, c: nat)
    requires c < |s.conns| && s.conns[c].pc == Idle
    ensures var u := Next(Next(Next(s, On(c, TearCount)), On(c, TearClear)), On(c, TearRelease));
      u == s.(conns := s.conns[c := Conn(Gone, map[])], active := s.active - |s.conns[c].sessions|)
  {}

  // ---- a session from its open on -------------------------------------------------------------------

  ghost predicate Leads(s: State, t: State) { exists steps: seq<Step> :: Run(Next, s, steps) == t }

  lemma Goes(s: State, t: State, step: Step) returns (u: State)
    requires Leads(s, t)
    ensures Leads(s, u) && u == Next(t, step)
  {
    var steps: seq<Step> :| Run(Next, s, steps) == t;
    RunThen(Next, s, steps, step);
    u := Next(t, step);
  }

  lemma LeadsSelf(s: State)
    ensures Leads(s, s)
  {
    var none: seq<Step> := [];
    assert Run(Next, s, none) == s;
  }

  /** The worker stores or gives up every job before this one, and takes it. */
  lemma Reached(s: State, t: State, j: Job) returns (u: State)
    requires Leads(s, t) && j in t.queue
    ensures Leads(s, u) && u.running == Some(j) && u.conns == t.conns && u.nextSess == t.nextSess
    ensures t.queue == [j] && t.running.None? ==> u.active == t.active
    decreases |t.queue|
  {
    u := t;
    if t.running.Some? { u := Goes(s, u, JobRelease); }
    assert j in u.queue[1..] || j == u.queue[0];
    u := Goes(s, u, JobTake);
    if u.running != Some(j) { u := Reached(s, u, j); }
  }

  /** An open of sub, from the check to the reservation; an old session of sub ends on the way. */
  lemma Reserves(s: State, c: nat, sub: string) returns (t: State)
    requires c < |s.conns| && s.conns[c].pc == Idle && s.active < s.max
    ensures Leads(s, t) && t.queue == s.queue && t.running == s.running && t.nextSess == s.nextSess
    ensures t.active == s.active + 1 - (if sub in s.conns[c].sessions then 1 else 0)
    ensures t.conns == s.conns[c := Conn(OpenReserved(sub), s.conns[c].sessions - {sub})]
  {
    LeadsSelf(s);
    t := Goes(s, s, On(c, OpenCheck(sub)));
    t := Goes(s, t, On(c, OpenClose));
    t := Goes(s, t, On(c, OpenRelease));
    t := Goes(s, t, On(c, OpenReserve));
    assert sub !in s.conns[c].sessions ==> s.conns[c].sessions - {sub} == s.conns[c].sessions;
  }

  /** With room for it in counter and queue, an open becomes a session of its own, and the read loop is free again. */
  lemma OpenBecomesSession(s: State, c: nat, sub: string) returns (t: State, sess: nat)
    requires c < |s.conns| && s.conns[c].pc == Idle && s.active < s.max && |s.queue| < 64
    ensures Leads(s, t) && t.conns == s.conns[c := Conn(Idle, s.conns[c].sessions[sub := sess])] && sess >= s.nextSess
    ensures s.queue == [] && s.running.None? ==>
      t.active == s.active + 1 - (if sub in s.conns[c].sessions then 1 else 0)
  {
    t := Reserves(s, c, sub);
    t := Goes(s, t, Enqueue(c));
    assert t.queue[|s.queue|] == Job(c, sub);
    t := Reached(s, t, Job(c, sub));
    sess := t.nextSess;
    t := Goes(s, t, JobStore);
    assert t.conns[c].sessions == (s.conns[c].sessions - {sub})[sub := sess] == s.conns[c].sessions[sub := sess];
  }

  /** With the queue full the open is refused, and its slot given back. */
  lemma FullQueueGivesBack(s: State, c: nat)
    requires c < |s.conns| && s.conns[c].pc.OpenReserved? && |s.queue| >= 64
    ensures var t := Next(Next(s, Enqueue(c)), On(c, Release));
      t == s.(conns := s.conns[c := s.conns[c].(pc := Idle)], active := s.active - 1)
  {}

  /** So does a job that fails. */
  lemma FailedJobGivesBack(s: State)
    requires s.running.Some?
    ensures Next(s, JobRelease) == s.(running := None, active := s.active - 1)
  {}

  /** Jobs are taken in the order they were queued. */
  lemma JobsInOrder(s: State)
    requires s.running.None? && s.queue != []
    ensures Next(s, JobTake) == s.(queue := s.queue[1..], running := Some(s.queue[0]))
  {}

  /** At the maximum no open passes. */
  lemma FullRelayRefuses(s: State, c: nat, sub: string)
    requires s.active >= s.max
    ensures Next(s, On(c, OpenCheck(sub))) == s
  {
    if c < |s.conns| { assert s.conns[c := s.conns[c]] == s.conns; }
  }
}
