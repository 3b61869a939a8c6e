/**
 The rules of the session counter of NIP-77 are exact: in every state reached under them, a step keeps the counter
 exact, or above its holders, or above zero, exactly when the rule allows it (internal/relay/nip77.go,
 internal/relay/neg_sessions.go, internal/relay/negqueue.go, the teardown of internal/relay/relay.go).
 */
module NegExact {
  import opened Base
  import opened Runs
  import opened NegAccounting
  import opened NegRuns

  // ---- what is known of a state reached under the rules ---------------------------------------------

  lemma {:induction false} TidyRun(s: State, steps: seq<Step>)
    requires Accounted(s) && Tidy(s) && Obeys(Next, s, steps, TidyRule)
    ensures Accounted(Run(Next, s, steps)) && Tidy(Run(Next, s, steps))
    decreases |steps|
  {
    if steps != [] {
      AccountedStep(s, steps[0]);
      TidyStep(s, steps[0]);
      TidyRun(Next(s, steps[0]), steps[1..]);
    }
  }

  lemma ReachedTidy(max: nat, s: State)
    requires Reaches(Next, Init(max), s, TidyRule)
    ensures Accounted(s) && Tidy(s) && NotUndercounted(s)
  {
    var steps: seq<Step> :| Obeys(Next, Init(max), steps, TidyRule) && Run(Next, Init(max), steps) == s;
    FreshRelay(max);
    TidyRun(Init(max), steps);
    assert forall c: nat :: c < |s.conns| ==> Fine(s.conns[c], c, Jobs(s));
  }

  lemma {:induction false} TimedRun(s: State, steps: seq<Step>)
    requires Accounted(s) && NotUndercounted(s) && Obeys(Next, s, steps, TimerRule)
    ensures Accounted(Run(Next, s, steps)) && NotUndercounted(Run(Next, s, steps))
    decreases |steps|
  {
    if steps != [] {
      AccountedStep(s, steps[0]);
      NotUndercountedStep(s, steps[0]);
      TimedRun(Next(s, steps[0]), steps[1..]);
    }
  }

  lemma ReachedTimed(max: nat, s: State)
    requires Reaches(Next, Init(max), s, TimerRule)
    ensures Accounted(s) && NotUndercounted(s)
  {
    var steps: seq<Step> :| Obeys(Next, Init(max), steps, TimerRule) && Run(Next, Init(max), steps) == s;
    FreshRelay(max);
    TimedRun(Init(max), steps);
  }

  lemma {:induction false} TidyIsTimed(s: State, steps: seq<Step>)
    requires Obeys(Next, s, steps, TidyRule)
    ensures Obeys(Next, s, steps, TimerRule)
    decreases |steps|
  {
    if steps != [] { TidyIsTimed(Next(s, steps[0]), steps[1..]); }
  }

  // ---- runs that fail: from s, under the tidy rule, to a leak -----------------------------------------

  ghost predicate Leads(s: State, t: State) { Reaches(Next, s, t, TidyRule) }

  /** The steps no rule restricts. */
  predicate Free(step: Step) { step != JobStore && !(step.On? && (step.act.OpenCheck? || step.act.IdleFire?)) }

  lemma Goes(s: State, t: State, step: Step) returns (u: State)
    requires Leads(s, t) && (Free(step) || TidyRule(t, step))
    ensures Leads(s, u) && u == Next(t, step)
  {
    ReachesThen(Next, s, t, TidyRule, step);
    u := Next(t, step);
  }

  /** A connection's section that moves nothing but its own connection and the counter. */
  lemma Moves(s: State, t: State, c: nat, act: Act, k: Conn) returns (u: State)
    requires Leads(s, t) && c < |t.conns| && Free(On(c, act))
    requires var m := Section(t.conns[c], act, t.active < t.max); m.k == k && m.idleOwes == m.tornGap == 0
    ensures Leads(s, u) && u == t.(conns := t.conns[c := k], active := u.active)
  {
    u := Goes(s, t, On(c, act));
  }

  /** The worker releases job after job until it comes to this one. */
  lemma Worked(s: State, t: State, j: Job) returns (u: State)
    requires Leads(s, t) && (j in t.queue || t.running == Some(j))
    ensures Leads(s, u) && u == t.(queue := u.queue, running := Some(j), active := u.active)
    decreases |t.queue|
  {
    u := t;
    if t.running != Some(j) {
      if t.running.Some? { u := Goes(s, u, JobRelease); }
      assert j in u.queue[1..] || j == u.queue[0];
      u := Goes(s, u, JobTake);
      u := Worked(s, u, j);
    }
  }

  /** It releases every job. */
  lemma Emptied(s: State, t: State) returns (u: State)
    requires Leads(s, t)
    ensures Leads(s, u) && u == t.(queue := [], running := None, active := u.active)
    decreases |t.queue|
  {
    u := t;
    if t.running.Some? { u := Goes(s, u, JobRelease); }
    if t.queue != [] {
      u := Goes(s, u, JobTake);
      u := Emptied(s, u);
    }
  }

  ghost predicate AlwaysExact(s: State) {
    forall steps :: Obeys(Next, s, steps, TidyRule) ==> Run(Next, s, steps).active == Holders(Run(Next, s, steps))
  }

  lemma LeakShows(s: State, t: State)
    requires Accounted(s) && Leads(s, t) && t.replaced + t.tornGap != 0
    ensures !AlwaysExact(s)
  {
    var steps: seq<Step> :| Obeys(Next, s, steps, TidyRule) && Run(Next, s, steps) == t;
    CounterIsAccounted(s, steps);
  }

  // ---- a sub id reopened while its own open is pending -------------------------------------------------

  /** Its second open, past the check, goes on to its reservation. */
  lemma ReopenReserves(s: State, c: nat, sub: string) returns (t: State)
    requires c < |s.conns| && s.conns[c].pc == OpenChecked(sub) && sub !in s.conns[c].sessions
    ensures Leads(s, t)
    ensures t == s.(conns := s.conns[c := Conn(OpenReserved(sub), s.conns[c].sessions)], active := t.active)
  {
    ReachesSelf(Next, s, TidyRule);
    t := Moves(s, s, c, OpenClose, Conn(OpenReady(sub), s.conns[c].sessions));
    t := Moves(s, t, c, OpenReserve, Conn(OpenReserved(sub), s.conns[c].sessions));
  }

  /** The first is stored. */
  lemma FirstStored(s: State, t: State, j: Job) returns (u: State)
    requires Leads(s, t) && (j in t.queue || t.running == Some(j)) && j.conn < |t.conns|
    requires !t.conns[j.conn].pc.Counted? && j.sub !in t.conns[j.conn].sessions
    ensures Leads(s, u) && |u.conns| == |t.conns| && u.replaced == t.replaced && u.tornGap == t.tornGap
    ensures u.conns[j.conn].pc == t.conns[j.conn].pc && j.sub in u.conns[j.conn].sessions && u.running.None?
  {
    u := Worked(s, t, j);
    u := Goes(s, u, JobStore);
  }

  /** And the second, queued at last, is stored over it. */
  lemma SecondStored(s: State, t: State, c: nat, sub: string) returns (u: State)
    requires Leads(s, t) && c < |t.conns| && t.conns[c].pc == OpenReserved(sub) && sub in t.conns[c].sessions
    ensures Leads(s, u) && u.replaced == t.replaced + 1 && u.tornGap == t.tornGap
  {
    u := Emptied(s, t);
    u := Goes(s, u, Enqueue(c));
    assert u.queue == [Job(c, sub)];
    u := Goes(s, u, JobTake);
    u := Goes(s, u, JobStore);
  }

  lemma ReopenedLeaks(s: State, c: nat, sub: string)
    requires Accounted(s) && c < |s.conns| && s.conns[c].pc == OpenChecked(sub) && sub !in s.conns[c].sessions
    requires Job(c, sub) in s.queue || s.running == Some(Job(c, sub))
    requires s.replaced == s.tornGap == 0
    ensures !AlwaysExact(s)
  {
    var t := ReopenReserves(s, c, sub);
    t := FirstStored(s, t, Job(c, sub));
    t := SecondStored(s, t, c, sub);
    LeakShows(s, t);
  }

  // ---- between a teardown's count and its clear ---------------------------------------------------------

  /** The clear drops another number of sessions than the teardown will release. */
  lemma MiscountLeaks(s: State, c: nat)
    requires Accounted(s) && c < |s.conns| && s.conns[c].pc.Counted? && s.conns[c].pc.n != |s.conns[c].sessions|
    requires s.replaced == s.tornGap == 0
    ensures !AlwaysExact(s)
  {
    ReachesSelf(Next, s, TidyRule);
    var t := Goes(s, s, On(c, TearClear));
    LeakShows(s, t);
  }

  lemma StoreMiscounts(s: State)
    requires Accounted(s) && Tidy(s) && !TidyRule(s, JobStore)
    ensures !AlwaysExact(Next(s, JobStore))
  {
    var j := s.running.value;
    assert Fine(s.conns[j.conn], j.conn, Jobs(s)) && j in Jobs(s);
    CardPut(s.conns[j.conn].sessions, j.sub, s.nextSess);
    AccountedStep(s, JobStore);
    MiscountLeaks(Next(s, JobStore), j.conn);
  }

  lemma TimerMiscounts(s: State, step: Step)
    requires Accounted(s) && Tidy(s) && !TimerRule(s, step)
    ensures !AlwaysExact(Next(s, step))
  {
    assert Fine(s.conns[step.c], step.c, Jobs(s));
    DropSameCard(s.conns[step.c], step.act.sub, step.act.sess, s.conns[step.c].pc, s.conns[step.c].pc);
    AccountedStep(s, step);
    MiscountLeaks(Next(s, step), step.c);
  }

  lemma ReopenLeaks(s: State, c: nat, sub: string)
    requires Accounted(s) && Tidy(s) && Job(c, sub) in Jobs(s) && Next(s, On(c, OpenCheck(sub))) != s
    ensures !AlwaysExact(Next(s, On(c, OpenCheck(sub))))
  {
    assert c < |s.conns| && Fine(s.conns[c], c, Jobs(s));
    var k, t := s.conns[c], Next(s, On(c, OpenCheck(sub)));
    assert s.conns[c := k] == s.conns;
    assert k.pc == Idle && s.active < s.max;
    AccountedStep(s, On(c, OpenCheck(sub)));
    ReopenedLeaks(t, c, sub);
  }

  lemma UntidyLeaks(s: State, step: Step)
    requires Accounted(s) && Tidy(s) && !TidyRule(s, step) && Next(s, step) != s
    ensures !AlwaysExact(Next(s, step))
  {
    if step == JobStore {
      StoreMiscounts(s);
    } else if !TimerRule(s, step) {
      TimerMiscounts(s, step);
    } else {
      ReopenLeaks(s, step.c, step.act.sub);
    }
  }

  /** The tidy rule is exact: a step keeps the counter equal to its holders exactly when the rule allows it. */
  lemma CounterStaysExactIff(max: nat, s: State, step: Step)
    requires Reaches(Next, Init(max), s, TidyRule)
    ensures AlwaysExact(Next(s, step)) <==> TidyRule(s, step) || Next(s, step) == s
  {
    ReachedTidy(max, s);
    if TidyRule(s, step) || Next(s, step) == s {
      AccountedStep(s, step);
      if TidyRule(s, step) { TidyStep(s, step); }
      forall steps | Obeys(Next, Next(s, step), steps, TidyRule)
        ensures Run(Next, Next(s, step), steps).active == Holders(Run(Next, Next(s, step), steps))
      {
        CounterIsExact(Next(s, step), steps);
      }
    } else {
      UntidyLeaks(s, step);
    }
  }

  // ---- the counter below what is held ---------------------------------------------------------------------

  ghost predicate AlwaysCovered(s: State) {
    forall steps :: Obeys(Next, s, steps, TimerRule) ==> Run(Next, s, steps).active >= Holders(Run(Next, s, steps))
  }

  /** A timer takes one of the sessions a teardown has counted, and nothing that leaked makes up for it. */
  predicate Undercounts(s: State, step: Step) {
    !TimerRule(s, step) && s.conns[step.c].pc.n == |s.conns[step.c].sessions| && s.active == Holders(s)
  }

  /** What leaked makes up for what connection c's teardown will release too much. */
  ghost predicate MadeUp(s: State, c: nat) {
    && s.replaced + s.tornGap >= 0
    && (forall d: nat :: d < |s.conns| && d != c && s.conns[d].pc.Counted? ==> s.conns[d].pc.n <= |s.conns[d].sessions|)
    && (c < |s.conns| && s.conns[c].pc.Counted? ==> s.conns[c].pc.n <= s.replaced + s.tornGap + |s.conns[c].sessions|)
  }

  lemma StoreMadeUp(s: State, c: nat)
    requires MadeUp(s, c) && c < |s.conns|
    ensures MadeUp(Next(s, JobStore), c)
  {
    if s.running.Some? && s.running.value.conn < |s.conns| {
      CardPut(s.conns[s.running.value.conn].sessions, s.running.value.sub, s.nextSess);
    }
  }

  /** A section that leaves its connection counted leaves its sessions alone; the clear settles the count. */
  lemma SectionMadeUp(k: Conn, act: Act, room: bool)
    requires act.IdleFire? && k.pc.Counted? ==> !Holds(k, act.sub, act.sess)
    ensures var m := Section(k, act, room);
      && (m.k.pc.Counted? ==> m.tornGap == 0 && (m.k == k || m.k.pc.n == |m.k.sessions|))
      && (m.tornGap != 0 ==> k.pc.Counted? && m.tornGap == |k.sessions| - k.pc.n)
  {}

  lemma OnMadeUp(s: State, d: nat, act: Act, c: nat)
    requires MadeUp(s, c) && c < |s.conns| && TimerRule(s, On(d, act))
    ensures MadeUp(Next(s, On(d, act)), c)
  {
    if d < |s.conns| { SectionMadeUp(s.conns[d], act, s.active < s.max); }
  }

  lemma MadeUpStep(s: State, step: Step, c: nat)
    requires MadeUp(s, c) && c < |s.conns| && TimerRule(s, step)
    ensures MadeUp(Next(s, step), c) && c < |Next(s, step).conns|
  {
    match step {
      case JobStore => StoreMadeUp(s, c);
      case On(d, act) => OnMadeUp(s, d, act, c);
      case _ =>
    }
  }

  lemma {:induction false} MadeUpRun(s: State, steps: seq<Step>, c: nat)
    requires Accounted(s) && MadeUp(s, c) && c < |s.conns| && Obeys(Next, s, steps, TimerRule)
    ensures Run(Next, s, steps).active >= Holders(Run(Next, s, steps))
    decreases |steps|
  {
    if steps != [] {
      AccountedStep(s, steps[0]);
      MadeUpStep(s, steps[0], c);
      MadeUpRun(Next(s, steps[0]), steps[1..], c);
    }
  }

  lemma TimerMadeUp(s: State, step: Step)
    requires Accounted(s) && NotUndercounted(s) && !TimerRule(s, step) && !Undercounts(s, step)
    ensures MadeUp(Next(s, step), step.c)
  {
    DropSameCard(s.conns[step.c], step.act.sub, step.act.sess, s.conns[step.c].pc, s.conns[step.c].pc);
  }

  lemma UndercountShows(s: State, step: Step)
    requires Accounted(s) && Undercounts(s, step)
    ensures !AlwaysCovered(Next(s, step))
  {
    var c, t := step.c, Next(s, step);
    DropSameCard(s.conns[c], step.act.sub, step.act.sess, s.conns[c].pc, s.conns[c].pc);
    AccountedStep(s, step);
    AccountedStep(t, On(c, TearClear));
    ReachesSelf(Next, t, TimerRule);
    ReachesThen(Next, t, t, TimerRule, On(c, TearClear));
  }

  /** A step keeps the counter at or above its holders exactly unless a timer undercounts. */
  lemma CounterStaysCoveringIff(max: nat, s: State, step: Step)
    requires Reaches(Next, Init(max), s, TimerRule)
    ensures AlwaysCovered(Next(s, step)) <==> !Undercounts(s, step)
  {
    ReachedTimed(max, s);
    if Undercounts(s, step) {
      UndercountShows(s, step);
    } else {
      AccountedStep(s, step);
      if TimerRule(s, step) { NotUndercountedStep(s, step); } else { TimerMadeUp(s, step); }
      forall steps | Obeys(Next, Next(s, step), steps, TimerRule)
        ensures Run(Next, Next(s, step), steps).active >= Holders(Run(Next, Next(s, step), steps))
      {
        if TimerRule(s, step) {
          CounterCoversHolders(Next(s, step), steps);
        } else {
          MadeUpRun(Next(s, step), steps, step.c);
        }
      }
    }
  }

  // ---- the counter below zero -------------------------------------------------------------------------------

  ghost predicate NeverNegative(s: State) {
    forall steps :: Obeys(Next, s, steps, TidyRule) ==> Run(Next, s, steps).active >= 0
  }

  /** Only connection c moves, and nothing leaks. */
  ghost predicate OnlyAt(t: State, u: State, c: nat) {
    && |u.conns| == |t.conns| && u.replaced == t.replaced && u.tornGap == t.tornGap
    && forall d: nat :: d < |t.conns| && d != c ==> u.conns[d] == t.conns[d]
  }

  /** The timers of all its sessions fire. */
  lemma TimersFire(s: State, t: State, c: nat) returns (u: State)
    requires Leads(s, t) && c < |t.conns| && !t.conns[c].pc.Counted?
    ensures Leads(s, u) && OnlyAt(t, u, c) && u.conns[c] == Conn(t.conns[c].pc, map[])
    decreases |t.conns[c].sessions|
  {
    u := t;
    if t.conns[c].sessions != map[] {
      var sub :| sub in t.conns[c].sessions;
      CardRemove(t.conns[c].sessions, sub);
      u := Goes(s, t, On(c, IdleFire(sub, t.conns[c].sessions[sub])));
      u := TimersFire(s, u, c);
    }
  }

  /** Its read loop gives up the slot it holds. */
  lemma LetsGo(s: State, t: State, c: nat) returns (u: State)
    requires Leads(s, t) && c < |t.conns| && !t.conns[c].pc.Counted? && t.conns[c].sessions == map[]
    ensures Leads(s, u) && OnlyAt(t, u, c) && Own(u.conns[c]) == 0
  {
    u := t;
    match t.conns[c].pc {
      case OpenClosed(_) => u := Goes(s, t, On(c, OpenRelease));
      case OpenReserved(_) =>
        u := Goes(s, t, Enqueue(c));
        if u.conns[c].pc == Owes { u := Goes(s, u, On(c, Release)); }
      case Owes => u := Goes(s, t, On(c, Release));
      case ClearedAll(_) => u := Goes(s, t, On(c, TearRelease));
      case _ =>
    }
  }

  lemma Frees(s: State, t: State, c: nat) returns (u: State)
    requires Leads(s, t) && c < |t.conns| && (t.conns[c].pc.Counted? ==> t.conns[c].pc.n == |t.conns[c].sessions|)
    ensures Leads(s, u) && OnlyAt(t, u, c) && Own(u.conns[c]) == 0
  {
    u := t;
    if t.conns[c].pc.Counted? { u := Goes(s, t, On(c, TearClear)); }
    u := TimersFire(s, u, c);
    u := LetsGo(s, u, c);
  }

  lemma AllFree(s: State, t: State, c: nat) returns (u: State)
    requires Leads(s, t) && c <= |t.conns| && (forall d: nat :: d < c ==> Own(t.conns[d]) == 0)
    requires forall d: nat :: c <= d < |t.conns| && t.conns[d].pc.Counted? ==> t.conns[d].pc.n == |t.conns[d].sessions|
    ensures Leads(s, u) && u.replaced == t.replaced && u.tornGap == t.tornGap
    ensures forall d: nat :: d < |u.conns| ==> Own(u.conns[d]) == 0
    decreases |t.conns| - c
  {
    u := t;
    if c < |t.conns| {
      u := Frees(s, t, c);
      u := AllFree(s, u, c + 1);
    }
  }

  lemma OwesPaid(s: State, t: State) returns (u: State)
    requires Leads(s, t)
    ensures Leads(s, u) && u == t.(idleOwes := 0, active := u.active)
    decreases t.idleOwes
  {
    u := t;
    if t.idleOwes > 0 {
      u := Goes(s, t, IdleRelease);
      u := OwesPaid(s, u);
    }
  }

  lemma {:induction false} NothingOwned(conns: seq<Conn>)
    requires forall d: nat :: d < |conns| ==> Own(conns[d]) == 0
    ensures Sum(conns, Own) == 0
  {
    if conns != [] {
      assert Own(conns[0]) == 0;
      assert forall d: nat :: d < |conns[1..]| ==> conns[1..][d] == conns[d + 1];
      NothingOwned(conns[1..]);
    }
  }

  /** Once everything is given up, what was released too much is left. */
  lemma AllGivenUp(s: State, t: State)
    requires Accounted(s) && Leads(s, t) && t.replaced + t.tornGap < 0
    requires forall d: nat :: d < |t.conns| && t.conns[d].pc.Counted? ==> t.conns[d].pc.n == |t.conns[d].sessions|
    ensures !NeverNegative(s)
  {
    var u := AllFree(s, t, 0);
    u := Emptied(s, u);
    u := OwesPaid(s, u);
    NothingOwned(u.conns);
    var steps: seq<Step> :| Obeys(Next, s, steps, TidyRule) && Run(Next, s, steps) == u;
    CounterIsAccounted(s, steps);
  }

  /** Such a timer, and then the clear. */
  lemma TimerThenClear(s: State, step: Step)
    requires !TimerRule(s, step) && s.conns[step.c].pc.n == |s.conns[step.c].sessions|
    ensures var u := Next(Next(s, step), On(step.c, TearClear));
      && u.replaced == s.replaced && u.tornGap == s.tornGap - 1
      && u.conns == s.conns[step.c := Conn(ClearedAll(s.conns[step.c].pc.n), map[])]
  {
    DropSameCard(s.conns[step.c], step.act.sub, step.act.sess, s.conns[step.c].pc, s.conns[step.c].pc);
  }

  lemma TidyCounts(s: State, c: nat)
    requires Tidy(s) && c < |s.conns| && s.conns[c].pc.Counted?
    ensures s.conns[c].pc.n == |s.conns[c].sessions|
  {
    assert Fine(s.conns[c], c, Jobs(s));
  }

  lemma TimerGoesNegative(s: State, step: Step)
    requires Accounted(s) && Tidy(s) && !TimerRule(s, step)
    ensures !NeverNegative(Next(s, step))
  {
    forall d: nat | d < |s.conns| && s.conns[d].pc.Counted? ensures s.conns[d].pc.n == |s.conns[d].sessions| {
      TidyCounts(s, d);
    }
    TimerThenClear(s, step);
    AccountedStep(s, step);
    ReachesSelf(Next, Next(s, step), TidyRule);
    var u := Goes(Next(s, step), Next(s, step), On(step.c, TearClear));
    AllGivenUp(Next(s, step), u);
  }

  /**
   In runs that are tidy but for this step, the counter can go below zero exactly when the step is an idle timer
   that removes a session between its teardown's count and its clear.
   */
  lemma CounterStaysNonnegativeIff(max: nat, s: State, step: Step)
    requires Reaches(Next, Init(max), s, TidyRule)
    ensures NeverNegative(Next(s, step)) <==> TimerRule(s, step)
  {
    ReachedTidy(max, s);
    if TimerRule(s, step) {
      AccountedStep(s, step);
      NotUndercountedStep(s, step);
      forall steps | Obeys(Next, Next(s, step), steps, TidyRule) ensures Run(Next, Next(s, step), steps).active >= 0 {
        TidyIsTimed(Next(s, step), steps);
        CounterCoversHolders(Next(s, step), steps);
      }
    } else {
      TimerGoesNegative(s, step);
    }
  }
}
