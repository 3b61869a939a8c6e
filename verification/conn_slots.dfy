/**
 Open-connection slots: the per-IP tracker and the global counter, from accept to teardown
 (internal/relay/ip_conn_tracker.go, internal/relay/relay.go).
 */
module ConnSlots {
  import opened Base
  import opened Runs

  type Counts = map<string, nat>

  function CountOf(counts: Counts, ip: string): nat { if ip in counts then counts[ip] else 0 }

  function Acquired(counts: Counts, ip: string): Counts { counts[ip := CountOf(counts, ip) + 1] }

  function Released(counts: Counts, ip: string): Counts {
    if CountOf(counts, ip) <= 1 then counts - {ip} else counts[ip := CountOf(counts, ip) - 1]
  }

  class IpConnTracker {
    var counts: Counts

    constructor ()
      ensures counts == map[]
    {
      counts := map[];
    }

    /** A maximum that is not positive does not limit. */
    method TryAcquire(ip: string, max: int) returns (openForIp: nat, ok: bool)
      modifies this
      ensures ok <==> max <= 0 || CountOf(old(counts), ip) < max
      ensures counts == if ok then Acquired(old(counts), ip) else old(counts)
      ensures openForIp == CountOf(counts, ip)
    {
      var n := if ip in counts then counts[ip] else 0;
      if max > 0 && n >= max { return n, false; }
      n := n + 1;
      counts := counts[ip := n];
      return n, true;
    }

    method Release(ip: string)
      modifies this
      ensures counts == Released(old(counts), ip)
      ensures CountOf(counts, ip) == if CountOf(old(counts), ip) == 0 then 0 else CountOf(old(counts), ip) - 1
    {
      var n := if ip in counts then counts[ip] else 0;
      if n <= 1 {
        counts := counts - {ip};
        return;
      }
      counts := counts[ip := n - 1];
    }

    method OpenCount(ip: string) returns (n: nat)
      ensures n == CountOf(counts, ip)
    {
      n := if ip in counts then counts[ip] else 0;
    }
  }

  // ---- every interleaving of accepts and teardowns --------------------------------------------------

  /** Checked: below the global limit, not yet through the rate limit and the per-IP slot. */
  datatype Stage = Checked | Upgrading | Serving | Closing | Gone

  datatype Slot = Slot(ip: string, stage: Stage)

  /** open is the global counter; slots holds every connection that passed its check. */
  datatype State = State(maxOpen: int, maxPerIp: int, counts: Counts, open: int, slots: seq<Slot>)

  datatype Step =
    | Check(ip: string)      // the global counter is below the limit
    | Refuse(i: nat)         // by the rate limit on new connections
    | Acquire(i: nat)        // the per-IP slot, or refused for want of one
    | UpgradeFailed(i: nat)
    | Upgraded(i: nat)
    | LetGo(i: nat)          // teardown: the per-IP slot first
    | CountDown(i: nat)      // and then the global counter

  predicate AtStage(s: State, i: nat, stage: Stage) { i < |s.slots| && s.slots[i].stage == stage }

  function Moved(s: State, i: nat, stage: Stage): seq<Slot>
    requires i < |s.slots|
  {
    s.slots[i := s.slots[i].(stage := stage)]
  }

  /** A step that is not enabled changes nothing. */
  function Next(s: State, step: Step): State {
    match step
    case Check(ip) => if s.open >= s.maxOpen then s else s.(slots := s.slots + [Slot(ip, Checked)])
    case Refuse(i) => if AtStage(s, i, Checked) then s.(slots := Moved(s, i, Gone)) else s
    case Acquire(i) =>
      if !AtStage(s, i, Checked) then s
      else
        var ip := s.slots[i].ip;
        if s.maxPerIp > 0 && CountOf(s.counts, ip) >= s.maxPerIp then s.(slots := Moved(s, i, Gone))
        else s.(slots := Moved(s, i, Upgrading), counts := Acquired(s.counts, ip))
    case UpgradeFailed(i) =>
      if AtStage(s, i, Upgrading)
      then s.(slots := Moved(s, i, Gone), counts := Released(s.counts, s.slots[i].ip)) else s
    case Upgraded(i) =>
      if AtStage(s, i, Upgrading) then s.(slots := Moved(s, i, Serving), open := s.open + 1) else s
    case LetGo(i) =>
      if AtStage(s, i, Serving)
      then s.(slots := Moved(s, i, Closing), counts := Released(s.counts, s.slots[i].ip)) else s
    case CountDown(i) =>
      if AtStage(s, i, Closing) then s.(slots := Moved(s, i, Gone), open := s.open - 1) else s
  }

  function Tally(slots: seq<Slot>, p: Slot -> bool): nat {
    if slots == [] then 0 else (if p(slots[0]) then 1 else 0) + Tally(slots[1..], p)
  }

  function HoldsIp(ip: string): Slot -> bool { (x: Slot) => x.ip == ip && x.stage in {Upgrading, Serving} }

  predicate IsCounted(x: Slot) { x.stage in {Serving, Closing} }

  /** Past the global check, and not yet counted. */
  predicate IsOpening(x: Slot) { x.stage in {Checked, Upgrading} }

  lemma {:induction false} TallyUpdate(slots: seq<Slot>, i: nat, x: Slot, p: Slot -> bool)
    requires i < |slots|
    ensures Tally(slots[i := x], p) == Tally(slots, p) - (if p(slots[i]) then 1 else 0) + (if p(x) then 1 else 0)
  {
    if i == 0 {
      assert slots[0 := x][1..] == slots[1..];
    } else {
      assert slots[i := x][1..] == slots[1..][i - 1 := x];
      TallyUpdate(slots[1..], i - 1, x, p);
    }
  }

  lemma {:induction false} TallyAppend(slots: seq<Slot>, x: Slot, p: Slot -> bool)
    ensures Tally(slots + [x], p) == Tally(slots, p) + if p(x) then 1 else 0
  {
    if slots == [] {
      assert [x][1..] == [];
    } else {
      assert (slots + [x])[1..] == slots[1..] + [x];
      TallyAppend(slots[1..], x, p);
    }
  }

  function Openings(s: State): nat { Tally(s.slots, IsOpening) }

  ghost predicate IpExact(s: State, ip: string) {
    CountOf(s.counts, ip) == Tally(s.slots, HoldsIp(ip)) && (s.maxPerIp > 0 ==> CountOf(s.counts, ip) <= s.maxPerIp)
  }

  ghost predicate Exact(s: State) {
    (forall ip :: IpExact(s, ip)) && s.open == Tally(s.slots, IsCounted)
  }

  /** Moving one connection to another stage moves every tally by that connection alone. */
  lemma MoveTallies(s: State, i: nat, stage: Stage, ip: string)
    requires i < |s.slots|
    ensures var x := s.slots[i].(stage := stage);
      Tally(Moved(s, i, stage), HoldsIp(ip)) ==
      Tally(s.slots, HoldsIp(ip)) - (if HoldsIp(ip)(s.slots[i]) then 1 else 0) + (if HoldsIp(ip)(x) then 1 else 0)
    ensures var x := s.slots[i].(stage := stage);
      Tally(Moved(s, i, stage), IsCounted) ==
      Tally(s.slots, IsCounted) - (if IsCounted(s.slots[i]) then 1 else 0) + (if IsCounted(x) then 1 else 0)
    ensures var x := s.slots[i].(stage := stage);
      Tally(Moved(s, i, stage), IsOpening) ==
      Tally(s.slots, IsOpening) - (if IsOpening(s.slots[i]) then 1 else 0) + (if IsOpening(x) then 1 else 0)
  {
    var x := s.slots[i].(stage := stage);
    TallyUpdate(s.slots, i, x, HoldsIp(ip));
    TallyUpdate(s.slots, i, x, IsCounted);
    TallyUpdate(s.slots, i, x, IsOpening);
  }

  lemma CheckExact(s: State, ip: string)
    requires Exact(s)
    ensures Exact(Next(s, Check(ip)))
  {
    TallyAppend(s.slots, Slot(ip, Checked), IsCounted);
    forall a ensures IpExact(Next(s, Check(ip)), a) {
      assert IpExact(s, a);
      TallyAppend(s.slots, Slot(ip, Checked), HoldsIp(a));
    }
  }

  /** A step on one connection changes that slot's stage, and at most its own address's count. */
  lemma MovesOne(s: State, step: Step)
    requires !step.Check? && step.i < |s.slots|
    ensures var s', ip := Next(s, step), s.slots[step.i].ip;
      && |s'.slots| == |s.slots| && s'.slots == Moved(s, step.i, s'.slots[step.i].stage)
      && s'.maxPerIp == s.maxPerIp && s'.maxOpen == s.maxOpen
      && (forall a :: a != ip ==> CountOf(s'.counts, a) == CountOf(s.counts, a))
  {}

  /** The holders of every address but one are untouched. */
  lemma OthersExact(s: State, step: Step, a: string)
    requires !step.Check? && step.i < |s.slots| && IpExact(s, a) && a != s.slots[step.i].ip
    ensures IpExact(Next(s, step), a)
  {
    MovesOne(s, step);
    MoveTallies(s, step.i, Next(s, step).slots[step.i].stage, a);
  }

  lemma OwnExact(s: State, step: Step)
    requires !step.Check? && step.i < |s.slots| && IpExact(s, s.slots[step.i].ip)
    ensures IpExact(Next(s, step), s.slots[step.i].ip)
  {
    MovesOne(s, step);
    MoveTallies(s, step.i, Next(s, step).slots[step.i].stage, s.slots[step.i].ip);
  }

  lemma OpenExact(s: State, step: Step)
    requires !step.Check? && step.i < |s.slots| && s.open == Tally(s.slots, IsCounted)
    ensures Next(s, step).open == Tally(Next(s, step).slots, IsCounted)
  {
    MovesOne(s, step);
    MoveTallies(s, step.i, Next(s, step).slots[step.i].stage, "");
  }

  lemma MoveExact(s: State, step: Step)
    requires Exact(s) && !step.Check?
    ensures Exact(Next(s, step))
  {
    if step.i < |s.slots| {
      OpenExact(s, step);
      forall a ensures IpExact(Next(s, step), a) {
        assert IpExact(s, a);
        if a == s.slots[step.i].ip { OwnExact(s, step); } else { OthersExact(s, step, a); }
      }
    }
  }

  /** Each address counts exactly its holders, never more than the maximum; open counts the connections served. */
  lemma {:induction false} SlotsAreExact(s: State, steps: seq<Step>)
    requires Exact(s)
    ensures Exact(Run(Next, s, steps))
    decreases |steps|
  {
    if steps != [] {
      match steps[0] {
        case Check(ip) => CheckExact(s, ip);
        case _ => MoveExact(s, steps[0]);
      }
      SlotsAreExact(Next(s, steps[0]), steps[1..]);
    }
  }

  // ---- what a connection takes and gives back ---------------------------------------------------------

  /** The i-th connection moves from one stage to another; a slot of its address and its count move with it. */
  ghost predicate MovesOn(s: State, t: State, i: nat, stage: Stage) {
    && i < |s.slots| && t.slots == s.slots[i := Slot(s.slots[i].ip, stage)]
    && (forall a :: a != s.slots[i].ip ==> CountOf(t.counts, a) == CountOf(s.counts, a))
    && CountOf(t.counts, s.slots[i].ip) - CountOf(s.counts, s.slots[i].ip) ==
       (if stage in {Upgrading, Serving} then 1 else 0) - (if s.slots[i].stage in {Upgrading, Serving} then 1 else 0)
    && t.open - s.open ==
       (if stage in {Serving, Closing} then 1 else 0) - (if s.slots[i].stage in {Serving, Closing} then 1 else 0)
  }

  lemma HolderIsCounted(s: State, i: nat)
    requires Exact(s) && i < |s.slots| && s.slots[i].stage in {Upgrading, Serving}
    ensures CountOf(s.counts, s.slots[i].ip) > 0
  {
    assert IpExact(s, s.slots[i].ip);
    TallyUpdate(s.slots, i, Slot(s.slots[i].ip, Gone), HoldsIp(s.slots[i].ip));
  }

  /**
   From its check on a connection is refused, or takes its address's slot if there is one; from then on it fails and
   gives the slot back, or is served and counted; and a served one gives back the slot and then its count.
   */
  lemma ConnectionRuns(s: State, i: nat)
    requires Exact(s) && i < |s.slots|
    ensures s.slots[i].stage == Checked ==>
      var ip := s.slots[i].ip; var room := s.maxPerIp <= 0 || CountOf(s.counts, ip) < s.maxPerIp;
      MovesOn(s, Next(s, Refuse(i)), i, Gone) && MovesOn(s, Next(s, Acquire(i)), i, if room then Upgrading else Gone)
    ensures s.slots[i].stage == Upgrading ==>
      MovesOn(s, Next(s, UpgradeFailed(i)), i, Gone) && MovesOn(s, Next(s, Upgraded(i)), i, Serving)
    ensures s.slots[i].stage == Serving ==> MovesOn(s, Next(s, LetGo(i)), i, Closing)
    ensures s.slots[i].stage == Closing ==> MovesOn(s, Next(s, CountDown(i)), i, Gone)
  {
    if s.slots[i].stage in {Upgrading, Serving} { HolderIsCounted(s, i); }
  }

  // ---- the global limit -----------------------------------------------------------------------------

  /** The step leaves at most n connections between the global check and the counter. */
  function AtMostOpening(n: nat): (State, Step) -> bool {
    (s: State, step: Step) => Openings(Next(s, step)) <= n
  }

  lemma OpeningStep(s: State, step: Step)
    ensures var s' := Next(s, step);
      s'.maxOpen == s.maxOpen &&
      (s'.open + Openings(s') <= s.open + Openings(s) || (s'.open == s.open < s.maxOpen))
  {
    match step {
      case Check(ip) =>
      case _ =>
        if step.i < |s.slots| {
          MovesOne(s, step);
          MoveTallies(s, step.i, Next(s, step).slots[step.i].stage, "");
        }
    }
  }

  /** The global limit is checked long before the connection is counted: n at once can pass it by n - 1 at most. */
  lemma {:induction false} MaxOpenUpToOverlap(s: State, steps: seq<Step>, n: nat)
    requires n >= 1 && s.open + Openings(s) <= s.maxOpen + n - 1
    requires Obeys(Next, s, steps, AtMostOpening(n))
    ensures Run(Next, s, steps).open <= s.maxOpen + n - 1
    decreases |steps|
  {
    if steps != [] {
      OpeningStep(s, steps[0]);
      MaxOpenUpToOverlap(Next(s, steps[0]), steps[1..], n);
    }
  }

  function Start(maxOpen: int, maxPerIp: int): State { State(maxOpen, maxPerIp, map[], 0, []) }

  /** A different address for each connection. */
  function Address(i: nat): string { seq(i, _ => '1') }

  lemma AddressesDiffer(i: nat, j: nat)
    requires i != j
    ensures Address(i) != Address(j)
  {
    assert |Address(i)| != |Address(j)|;
  }

  /** served connections are served and checked ones have passed the check, each from its own address. */
  ghost predicate Lined(s: State, served: nat, checked: nat) {
    && |s.slots| == served + checked && s.open == served && Openings(s) == checked
    && (forall i :: 0 <= i < |s.slots| ==> s.slots[i] == Slot(Address(i), if i < served then Serving else Checked))
    && (forall i: nat :: i >= served ==> CountOf(s.counts, Address(i)) == 0)
  }

  lemma OneMoreChecked(start: State, s: State, served: nat, checked: nat, n: nat) returns (t: State)
    requires Reaches(Next, start, s, AtMostOpening(n)) && Lined(s, served, checked)
    requires s.open < s.maxOpen && checked < n
    ensures Reaches(Next, start, t, AtMostOpening(n)) && Lined(t, served, checked + 1)
    ensures t.maxOpen == s.maxOpen && t.maxPerIp == s.maxPerIp
  {
    var ip := Address(served + checked);
    TallyAppend(s.slots, Slot(ip, Checked), IsOpening);
    t := Next(s, Check(ip));
    ReachesThen(Next, start, s, AtMostOpening(n), Check(ip));
  }

  lemma OneMoreServed(start: State, s: State, served: nat, checked: nat, n: nat) returns (t: State)
    requires Reaches(Next, start, s, AtMostOpening(n)) && Lined(s, served, checked) && 1 <= checked <= n
    ensures Reaches(Next, start, t, AtMostOpening(n)) && Lined(t, served + 1, checked - 1)
    ensures t.maxOpen == s.maxOpen && t.maxPerIp == s.maxPerIp
  {
    MoveTallies(s, served, Upgrading, "");
    var u := Next(s, Acquire(served));
    assert AtStage(u, served, Upgrading) && u.slots == Moved(s, served, Upgrading);
    ReachesThen(Next, start, s, AtMostOpening(n), Acquire(served));
    MoveTallies(u, served, Serving, "");
    t := Next(u, Upgraded(served));
    ReachesThen(Next, start, u, AtMostOpening(n), Upgraded(served));
    forall i: nat | i >= served + 1 ensures CountOf(t.counts, Address(i)) == 0 { AddressesDiffer(i, served); }
  }

  lemma AllChecked(start: State, s: State, served: nat, checked: nat, n: nat) returns (t: State)
    requires Reaches(Next, start, s, AtMostOpening(n)) && Lined(s, served, checked)
    requires s.open < s.maxOpen && checked <= n
    ensures Reaches(Next, start, t, AtMostOpening(n)) && Lined(t, served, n) && t.maxOpen == s.maxOpen
    decreases n - checked
  {
    t := s;
    if checked < n {
      t := OneMoreChecked(start, s, served, checked, n);
      t := AllChecked(start, t, served, checked + 1, n);
    }
  }

  lemma AllServed(start: State, s: State, served: nat, checked: nat, n: nat) returns (t: State)
    requires Reaches(Next, start, s, AtMostOpening(n)) && Lined(s, served, checked) && checked <= n
    ensures Reaches(Next, start, t, AtMostOpening(n)) && Lined(t, served + checked, 0) && t.maxOpen == s.maxOpen
    decreases checked
  {
    t := s;
    if checked > 0 {
      t := OneMoreServed(start, s, served, checked, n);
      t := AllServed(start, t, served + 1, checked - 1, n);
    }
  }

  /** Connections that arrive one after the other fill the relay up. */
  lemma Filled(start: State, s: State, served: nat, goal: nat, n: nat) returns (t: State)
    requires Reaches(Next, start, s, AtMostOpening(n)) && Lined(s, served, 0)
    requires served <= goal < s.maxOpen && n >= 1
    ensures Reaches(Next, start, t, AtMostOpening(n)) && Lined(t, goal, 0) && t.maxOpen == s.maxOpen
    decreases goal - served
  {
    t := s;
    if served < goal {
      t := OneMoreChecked(start, s, served, 0, n);
      t := OneMoreServed(start, t, served, 1, n);
      t := Filled(start, t, served + 1, goal, n);
    }
  }

  /** And n at once do pass the limit by n - 1, whatever the limits are. */
  lemma MaxOpenIsPassed(maxOpen: int, maxPerIp: int, n: nat) returns (t: State)
    requires maxOpen >= 1 && n >= 1
    ensures Reaches(Next, Start(maxOpen, maxPerIp), t, AtMostOpening(n)) && t.open == maxOpen + n - 1
  {
    var start := Start(maxOpen, maxPerIp);
    ReachesSelf(Next, start, AtMostOpening(n));
    t := Filled(start, start, 0, maxOpen - 1, n);
    t := AllChecked(start, t, maxOpen - 1, 0, n);
    t := AllServed(start, t, maxOpen - 1, n, n);
  }

  /** The limit holds in all runs if and only if no two connections are ever between check and counter. */
  lemma MaxOpenHoldsIff(maxOpen: int, maxPerIp: int, n: nat)
    requires maxOpen >= 1 && n >= 1
    ensures n == 1 <==> forall t :: Reaches(Next, Start(maxOpen, maxPerIp), t, AtMostOpening(n)) ==> t.open <= maxOpen
  {
    var start := Start(maxOpen, maxPerIp);
    if n == 1 {
      forall t | Reaches(Next, start, t, AtMostOpening(n)) ensures t.open <= maxOpen {
        var steps: seq<Step> :| Obeys(Next, start, steps, AtMostOpening(n)) && Run(Next, start, steps) == t;
        MaxOpenUpToOverlap(start, steps, n);
      }
    } else {
      var t := MaxOpenIsPassed(maxOpen, maxPerIp, n);
    }
  }
}
