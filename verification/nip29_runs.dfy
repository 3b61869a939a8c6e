/**
 Join and leave requests on concurrent connections: judged, saved and followed up by the relay in separate
 steps (internal/relay/nip29.go, internal/relay/nip01.go).
 */
module Nip29Runs {
  import opened Base
  import opened Runs
  import opened Nostr
  import opened EventTables
  import opened Membership
  import opened Nip29

  /** Where the handling of a request stands. */
  datatype Stage = Idle | Judged(ev: Event) | Stored(ev: Event)

  /**
   stages holds one handling per number: a read loop works off one at a time, but a save that was answered with
   the deadline goes on in the writer, and its step comes when it ends. deeds is history: the saved requests, and
   the put-user and remove-user events saved by anyone else.
   */
  datatype World = World(relay: string, log: seq<Event>, stages: map<int, Stage>, deeds: seq<Event>)

  datatype Step =
    | Validate(c: int, ev: Event, fault: bool, md: Answer<Option<Event>>) // md: what the metadata lookup found
    | Store(c: int, saved: bool, ok: bool)                 // ok: the save was answered nil
    | Follow(c: int, follow: Event, saved: bool)           // the relay's own event; its answer is only logged
    | Other(ev: Event)                                     // any other event saved meanwhile

  function StageOf(w: World, c: int): Stage { if c in w.stages then w.stages[c] else Idle }

  function PairOf(relay: string, ev: Event): Pair { Pair(relay, GroupHTag(ev.tags), ev.pubkey) }

  predicate IsRequest(ev: Event) { ev.kind in {KIND_JOIN, KIND_LEAVE} }

  ghost predicate Accepted(w: World, ev: Event, fault: bool, md: Answer<Option<Event>>) {
    var member: Answer<bool> := if fault then Err(()) else Ok(Member(w.log, PairOf(w.relay, ev)));
    if ev.kind == KIND_JOIN then JudgeJoin(GroupHTag(ev.tags), true, member, md) == Accept
    else JudgeLeave(GroupHTag(ev.tags), true, member) == Accept
  }

  function At(w: World, c: int, stage: Stage): World { w.(stages := w.stages[c := stage]) }

  /** The event the relay signs for this request. */
  predicate FollowsUp(relay: string, ev: Event, follow: Event) {
    FollowUp(follow, relay, if ev.kind == KIND_JOIN then KIND_PUT_USER else KIND_REMOVE_USER,
             GroupHTag(ev.tags), ev.pubkey)
  }

  function LogAfter(log: seq<Event>, ev: Event): seq<Event> {
    if Saved(log, ev).Ok? then Saved(log, ev).value else log
  }

  ghost function Next(w: World, step: Step): World {
    match step
    case Validate(c, ev, fault, md) =>
      if StageOf(w, c) == Idle && IsRequest(ev) && Accepted(w, ev, fault, md) then At(w, c, Judged(ev)) else w
    case Store(c, saved, ok) =>
      if !StageOf(w, c).Judged? then w
      else
        var ev := StageOf(w, c).ev;
        if saved && Saved(w.log, ev).Ok?
        then At(w, c, if ok then Stored(ev) else Idle).(log := Saved(w.log, ev).value, deeds := w.deeds + [ev])
        else At(w, c, Idle)
    case Follow(c, follow, saved) =>
      if !StageOf(w, c).Stored? || !FollowsUp(w.relay, StageOf(w, c).ev, follow) then w
      else At(w, c, Idle).(log := if saved then LogAfter(w.log, follow) else w.log)
    case Other(ev) =>
      if IsRequest(ev) || Saved(w.log, ev).Err? then w
      else w.(log := Saved(w.log, ev).value, deeds := w.deeds + [ev])
  }

  /** What a deed means for q. */
  function MarkOf(q: Pair, ev: Event): seq<Mark> {
    if IsRequest(ev) then
      if PairOf(q.relay, ev) != q then [] else if ev.kind == KIND_JOIN then [Joined] else [Left]
    else if !Rules(q)(ev) then []
    else if ev.kind == KIND_PUT_USER then [Put] else [Removed]
  }

  function Marks(q: Pair, deeds: seq<Event>): seq<Mark> {
    if deeds == [] then [] else Marks(q, deeds[..|deeds| - 1]) + MarkOf(q, deeds[|deeds| - 1])
  }

  lemma MarksNext(q: Pair, deeds: seq<Event>, ev: Event)
    ensures Marks(q, deeds + [ev]) == Marks(q, deeds) + MarkOf(q, ev)
  {
    assert (deeds + [ev])[..|deeds|] == deeds;
  }

  // ---- the rule ------------------------------------------------------------------------------------

  /** The connection has a request of q that may still be saved, or is saved and not followed up. */
  predicate Pending(w: World, q: Pair, c: int) {
    match StageOf(w, c)
    case Idle => false
    case Judged(ev) => PairOf(q.relay, ev) == q && ev !in w.log
    case Stored(ev) => PairOf(q.relay, ev) == q
  }

  predicate Quiet(w: World, q: Pair) { forall c :: c in w.stages ==> !Pending(w, q, c) }

  /** Another connection has such a request, and not this very event. */
  predicate Clashes(w: World, q: Pair, ev: Event) {
    ev !in w.log && exists c :: c in w.stages && Pending(w, q, c) && StageOf(w, c) != Judged(ev)
  }

  /** The step saves a pending request of q, and answers its save with an error: it is never followed up. */
  predicate Forsakes(w: World, q: Pair, step: Step) {
    step.Store? && step.saved && !step.ok && Pending(w, q, step.c) && StageOf(w, step.c).Judged? &&
    Saved(w.log, StageOf(w, step.c).ev).Ok?
  }

  /** The step's event decides about q from now on. */
  ghost predicate Decisive(w: World, q: Pair, step: Step, kind: int) {
    Member(Next(w, step).log, q) <==> kind in {KIND_JOIN, KIND_PUT_USER}
  }

  /**
   No request of q is accepted while another is pending, and none is saved but answered with an error. A put-user
   or remove-user event of q, the relay's own or another's, takes effect; while a request is pending, another's
   leaves the user where the deeds say it is.
   */
  ghost function Rule(q: Pair, before: bool): (World, Step) -> bool {
    (w: World, step: Step) =>
      match step
      case Validate(c, ev, fault, md) =>
        StageOf(w, c) == Idle && IsRequest(ev) && PairOf(q.relay, ev) == q && Accepted(w, ev, fault, md) ==>
        !Clashes(w, q, ev)
      case Store(_, _, _) => !Forsakes(w, q, step)
      case Follow(c, follow, _) =>
        Next(w, step) != w && Pending(w, q, c) ==> Decisive(w, q, step, StageOf(w, c).ev.kind)
      case Other(ev) =>
        Next(w, step) != w && Rules(q)(ev) ==>
        if Quiet(w, q) then Decisive(w, q, step, ev.kind)
        else (ev.kind == KIND_PUT_USER <==> Inside(Marks(q, w.deeds), before))
  }

  // ---- the invariant --------------------------------------------------------------------------------

  /** What is known of a pending request; inside is what the deeds say. */
  ghost predicate StageFits(w: World, q: Pair, c: int, inside: bool) {
    match StageOf(w, c)
    case Idle => true
    case Judged(ev) => IsRequest(ev) && (Pending(w, q, c) ==>
      q.group != "" && (Member(w.log, q) <==> inside) && (inside <==> ev.kind == KIND_LEAVE))
    case Stored(ev) => IsRequest(ev) && (Pending(w, q, c) ==> q.group != "" && (inside <==> ev.kind == KIND_JOIN))
  }

  /** At most one of them, but for one event sent twice. */
  ghost predicate OneAtATime(w: World, q: Pair) {
    forall c, d :: c in w.stages && d in w.stages && c != d && Pending(w, q, c) && Pending(w, q, d) ==>
      StageOf(w, c).Judged? && StageOf(w, c) == StageOf(w, d)
  }

  predicate SomeStored(w: World, q: Pair) { exists c :: c in w.stages && Pending(w, q, c) && StageOf(w, c).Stored? }

  ghost predicate Inv(w: World, q: Pair, before: bool) {
    var inside := Inside(Marks(q, w.deeds), before);
    && w.relay == q.relay && WellKept(w.log) && Alternating(Marks(q, w.deeds), before)
    && (forall c :: c in w.stages ==> StageFits(w, q, c, inside))
    && OneAtATime(w, q) && (!SomeStored(w, q) ==> (Member(w.log, q) <==> inside))
  }

  // ---- every step under the rule keeps it -------------------------------------------------------------

  /** Saving never removes a request: only replaceable events give way. */
  lemma RequestsStay(log: seq<Event>, ev: Event, request: Event)
    requires Saved(log, ev).Ok? && IsRequest(request) && request in log
    ensures request in Saved(log, ev).value
  {
    assert OtherSlots(ev)(request);
  }

  lemma RequestIsNew(log: seq<Event>, ev: Event)
    requires IsRequest(ev) && Saved(log, ev).Ok?
    ensures ev !in log && Saved(log, ev).value == log + [ev]
  {
    FilterAll(log, OtherSlots(ev));
    assert ev in log ==> HasEvent(log, ev.id);
  }

  /** The log keeps every request. */
  ghost predicate KeepsRequests(log: seq<Event>, log': seq<Event>) {
    WellKept(log') && forall r :: IsRequest(r) && r in log ==> r in log'
  }

  ghost predicate Requests(w: World) {
    forall c :: c in w.stages ==> StageOf(w, c).Idle? || IsRequest(StageOf(w, c).ev)
  }

  /** What was pending stays as it was, or is settled; the user stays where it is. */
  lemma Settles(w: World, w': World, q: Pair, before: bool)
    requires Inv(w, q, before) && w'.relay == w.relay && WellKept(w'.log) && Requests(w')
    requires Alternating(Marks(q, w'.deeds), before)
    requires Inside(Marks(q, w'.deeds), before) == Inside(Marks(q, w.deeds), before)
    requires !SomeStored(w, q) ==> (Member(w'.log, q) <==> Member(w.log, q))
    requires forall c :: c in w'.stages && Pending(w', q, c) ==>
      c in w.stages && StageOf(w', c) == StageOf(w, c) && Pending(w, q, c)
    requires forall c :: c in w.stages && Pending(w, q, c) && StageOf(w, c).Stored? ==>
      c in w'.stages && Pending(w', q, c) && StageOf(w', c).Stored?
    ensures Inv(w', q, before)
  {}

  /** A saved request of another pair changes nothing about q; one of q leaves its mark. */
  lemma RequestSaved(w: World, w': World, q: Pair, ev: Event)
    requires WellKept(w.log) && IsRequest(ev) && Saved(w.log, ev).Ok?
    requires w'.log == Saved(w.log, ev).value && w'.deeds == w.deeds + [ev]
    ensures KeepsRequests(w.log, w'.log) && ev in w'.log && ev !in w.log
    ensures Member(w'.log, q) <==> Member(w.log, q)
    ensures Marks(q, w'.deeds) == Marks(q, w.deeds) + MarkOf(q, ev)
  {
    RequestIsNew(w.log, ev);
    MemberAfterSave(w.log, q, ev);
    MarksNext(q, w.deeds, ev);
  }

  lemma UnjudgedKeeps(w: World, q: Pair, before: bool, c: int, ev: Event)
    requires Inv(w, q, before) && StageOf(w, c) == Idle && IsRequest(ev) && (PairOf(q.relay, ev) != q || ev in w.log)
    ensures Inv(At(w, c, Judged(ev)), q, before)
  {
    var w' := At(w, c, Judged(ev));
    Settles(w, w', q, before);
  }

  lemma JudgedKeeps(w: World, q: Pair, before: bool, c: int, ev: Event)
    requires Inv(w, q, before) && StageOf(w, c) == Idle && IsRequest(ev) && PairOf(q.relay, ev) == q && ev !in w.log
    requires q.group != "" && (Member(w.log, q) <==> ev.kind == KIND_LEAVE) && !Clashes(w, q, ev)
    ensures Inv(At(w, c, Judged(ev)), q, before)
  {
    var w' := At(w, c, Judged(ev));
    assert forall d :: d in w.stages && Pending(w, q, d) ==> StageOf(w, d) == Judged(ev);
    assert forall d :: d in w'.stages && Pending(w', q, d) ==> StageOf(w', d) == Judged(ev);
    assert !SomeStored(w, q) && !SomeStored(w', q);
  }

  lemma ValidateKeeps(w: World, q: Pair, before: bool, step: Step)
    requires Inv(w, q, before) && step.Validate? && Rule(q, before)(w, step)
    ensures Inv(Next(w, step), q, before)
  {
    var ev := step.ev;
    if StageOf(w, step.c) == Idle && IsRequest(ev) && Accepted(w, ev, step.fault, step.md) {
      if PairOf(q.relay, ev) == q && ev !in w.log {
        JudgedKeeps(w, q, before, step.c, ev);
      } else {
        UnjudgedKeeps(w, q, before, step.c, ev);
      }
    }
  }

  /** A request that ends without being saved. */
  lemma DropKeeps(w: World, q: Pair, before: bool, c: int)
    requires Inv(w, q, before) && StageOf(w, c).Judged?
    ensures Inv(At(w, c, Idle), q, before)
  {
    var w' := At(w, c, Idle);
    Settles(w, w', q, before);
  }

  lemma StrangerStored(w: World, w': World, q: Pair, before: bool, c: int, ok: bool)
    requires Inv(w, q, before) && c in w.stages && StageOf(w, c).Judged? && PairOf(q.relay, StageOf(w, c).ev) != q
    requires w' == At(w, c, if ok then Stored(StageOf(w, c).ev) else Idle).(log := w'.log, deeds := w'.deeds)
    requires KeepsRequests(w.log, w'.log) && (Member(w'.log, q) <==> Member(w.log, q))
    requires Marks(q, w'.deeds) == Marks(q, w.deeds)
    ensures Inv(w', q, before)
  {
    assert StageFits(w, q, c, Inside(Marks(q, w.deeds), before));
    assert Requests(w');
    Settles(w, w', q, before);
  }

  lemma OneStored(w: World, q: Pair, before: bool, c: int)
    requires w.relay == q.relay && WellKept(w.log) && Requests(w) && Alternating(Marks(q, w.deeds), before)
    requires c in w.stages && Pending(w, q, c) && StageOf(w, c).Stored? && q.group != ""
    requires forall d :: d in w.stages && d != c ==> !Pending(w, q, d)
    requires Inside(Marks(q, w.deeds), before) <==> StageOf(w, c).ev.kind == KIND_JOIN
    ensures Inv(w, q, before)
  {}

  lemma OwnStored(w: World, w': World, q: Pair, before: bool, c: int)
    requires Inv(w, q, before) && c in w.stages && StageOf(w, c).Judged? && Pending(w, q, c)
    requires w' == At(w, c, Stored(StageOf(w, c).ev)).(log := w'.log, deeds := w'.deeds)
    requires KeepsRequests(w.log, w'.log) && StageOf(w, c).ev in w'.log && (Member(w'.log, q) <==> Member(w.log, q))
    requires Alternating(Marks(q, w'.deeds), before)
    requires Inside(Marks(q, w'.deeds), before) <==> StageOf(w, c).ev.kind == KIND_JOIN
    ensures Inv(w', q, before)
  {
    var ev := StageOf(w, c).ev;
    assert StageFits(w, q, c, Inside(Marks(q, w.deeds), before));
    assert forall d :: d in w.stages && Pending(w, q, d) ==> StageOf(w, d) == Judged(ev);
    assert forall d :: d in w'.stages && d != c ==> !Pending(w', q, d);
    OneStored(w', q, before, c);
  }

  /** The mark of a pending request alternates. */
  lemma OwnMark(w: World, q: Pair, before: bool, c: int)
    requires Inv(w, q, before) && c in w.stages && StageOf(w, c).Judged? && Pending(w, q, c)
    ensures var marks := Marks(q, w.deeds) + MarkOf(q, StageOf(w, c).ev);
      Alternating(marks, before) && (Inside(marks, before) <==> StageOf(w, c).ev.kind == KIND_JOIN)
  {
    assert Inside(Marks(q, w.deeds), before) <==> StageOf(w, c).ev.kind == KIND_LEAVE;
    MarkAlternates(Marks(q, w.deeds), MarkOf(q, StageOf(w, c).ev)[0], before);
  }

  lemma StoreKeeps(w: World, q: Pair, before: bool, c: int, saved: bool, ok: bool)
    requires Inv(w, q, before) && !Forsakes(w, q, Store(c, saved, ok))
    ensures Inv(Next(w, Store(c, saved, ok)), q, before)
  {
    if StageOf(w, c).Judged? {
      var ev, w' := StageOf(w, c).ev, Next(w, Store(c, saved, ok));
      assert StageFits(w, q, c, Inside(Marks(q, w.deeds), before));
      if !saved || Saved(w.log, ev).Err? {
        DropKeeps(w, q, before, c);
      } else {
        RequestSaved(w, w', q, ev);
        if PairOf(q.relay, ev) == q {
          OwnMark(w, q, before, c);
          OwnStored(w, w', q, before, c);
        } else {
          assert Marks(q, w.deeds) + [] == Marks(q, w.deeds);
          StrangerStored(w, w', q, before, c, ok);
        }
      }
    }
  }

  lemma LogAfterKeeps(log: seq<Event>, ev: Event, q: Pair)
    requires WellKept(log)
    ensures KeepsRequests(log, LogAfter(log, ev))
    ensures !Rules(q)(ev) ==> (Member(LogAfter(log, ev), q) <==> Member(log, q))
  {
    if Saved(log, ev).Ok? {
      SavedWellKept(log, ev);
      forall r | IsRequest(r) && r in log ensures r in LogAfter(log, ev) { RequestsStay(log, ev, r); }
      if !Rules(q)(ev) { MemberAfterSave(log, q, ev); }
    }
  }

  /** The follow-up of a request of another pair. */
  lemma StrangerFollowed(w: World, q: Pair, before: bool, c: int, log: seq<Event>)
    requires Inv(w, q, before) && StageOf(w, c).Stored? && PairOf(q.relay, StageOf(w, c).ev) != q
    requires KeepsRequests(w.log, log) && (Member(log, q) <==> Member(w.log, q))
    ensures Inv(At(w, c, Idle).(log := log), q, before)
  {
    Settles(w, At(w, c, Idle).(log := log), q, before);
  }

  lemma QuietInv(w: World, q: Pair, before: bool)
    requires w.relay == q.relay && WellKept(w.log) && Requests(w) && Quiet(w, q)
    requires Alternating(Marks(q, w.deeds), before) && (Member(w.log, q) <==> Inside(Marks(q, w.deeds), before))
    ensures Inv(w, q, before)
  {}

  lemma StoredAlone(w: World, q: Pair, before: bool, c: int)
    requires Inv(w, q, before) && StageOf(w, c).Stored? && PairOf(q.relay, StageOf(w, c).ev) == q
    ensures forall d :: d in w.stages && Pending(w, q, d) ==> d == c
    ensures Requests(w) && (Inside(Marks(q, w.deeds), before) <==> StageOf(w, c).ev.kind == KIND_JOIN)
  {
    assert c in w.stages && Pending(w, q, c);
  }

  lemma FollowedQuiet(w: World, q: Pair, before: bool, c: int, log: seq<Event>)
    requires Inv(w, q, before) && StageOf(w, c).Stored? && PairOf(q.relay, StageOf(w, c).ev) == q
    requires KeepsRequests(w.log, log)
    ensures Quiet(At(w, c, Idle).(log := log), q) && Requests(w)
  {
    StoredAlone(w, q, before, c);
  }

  /** The follow-up of the one pending request of q. */
  lemma OwnFollowed(w: World, q: Pair, before: bool, c: int, log: seq<Event>)
    requires Inv(w, q, before) && StageOf(w, c).Stored? && PairOf(q.relay, StageOf(w, c).ev) == q
    requires KeepsRequests(w.log, log) && (Member(log, q) <==> StageOf(w, c).ev.kind == KIND_JOIN)
    ensures Inv(At(w, c, Idle).(log := log), q, before)
  {
    StoredAlone(w, q, before, c);
    FollowedQuiet(w, q, before, c, log);
    QuietInv(At(w, c, Idle).(log := log), q, before);
  }

  lemma FollowKeeps(w: World, q: Pair, before: bool, step: Step)
    requires Inv(w, q, before) && step.Follow? && Rule(q, before)(w, step)
    ensures Inv(Next(w, step), q, before)
  {
    var c := step.c;
    if StageOf(w, c).Stored? && FollowsUp(w.relay, StageOf(w, c).ev, step.follow) {
      var ev, w' := StageOf(w, c).ev, Next(w, step);
      assert StageFits(w, q, c, Inside(Marks(q, w.deeds), before));
      assert StageOf(w', c) == Idle;
      LogAfterKeeps(w.log, step.follow, q);
      if PairOf(q.relay, ev) == q {
        assert Decisive(w, q, step, ev.kind);
        OwnFollowed(w, q, before, c, w'.log);
      } else {
        FollowUpRules(step.follow, w.relay, step.follow.kind, GroupHTag(ev.tags), ev.pubkey, q);
        StrangerFollowed(w, q, before, c, w'.log);
      }
    }
  }

  lemma StrangerSaved(w: World, w': World, q: Pair, before: bool)
    requires Inv(w, q, before) && w' == w.(log := w'.log, deeds := w'.deeds)
    requires KeepsRequests(w.log, w'.log) && (Member(w'.log, q) <==> Member(w.log, q))
    requires Marks(q, w'.deeds) == Marks(q, w.deeds)
    ensures Inv(w', q, before)
  {
    Settles(w, w', q, before);
  }

  lemma RulingSaved(w: World, w': World, q: Pair, before: bool)
    requires Inv(w, q, before) && w' == w.(log := w'.log, deeds := w'.deeds)
    requires KeepsRequests(w.log, w'.log) && Quiet(w, q) && Alternating(Marks(q, w'.deeds), before)
    requires Member(w'.log, q) <==> Inside(Marks(q, w'.deeds), before)
    ensures Inv(w', q, before)
  {
    assert forall d :: d in w'.stages ==> !Pending(w', q, d);
  }

  /** A put-user event keeps a member, and a remove-user event an outsider, wherever it comes in the order. */
  lemma MemberUnmoved(log: seq<Event>, q: Pair, ev: Event)
    requires WellKept(log) && Saved(log, ev).Ok? && Rules(q)(ev) && (ev.kind == KIND_PUT_USER <==> Member(log, q))
    ensures Member(Saved(log, ev).value, q) <==> Member(log, q)
  {
    FilterAll(log, OtherSlots(ev));
    SavedWellKept(log, ev);
    AppendMember(log, q, ev);
  }

  lemma RulingHarmless(w: World, w': World, q: Pair, before: bool)
    requires Inv(w, q, before) && w' == w.(log := w'.log, deeds := w'.deeds) && KeepsRequests(w.log, w'.log)
    requires Alternating(Marks(q, w'.deeds), before)
    requires Inside(Marks(q, w'.deeds), before) == Inside(Marks(q, w.deeds), before)
    requires !SomeStored(w, q) ==> (Member(w'.log, q) <==> Member(w.log, q))
    ensures Inv(w', q, before)
  {
    Settles(w, w', q, before);
  }

  lemma RulingMark(w: World, q: Pair, before: bool, ev: Event)
    requires Inv(w, q, before) && !IsRequest(ev) && Rules(q)(ev)
    ensures var marks := Marks(q, w.deeds + [ev]);
      Alternating(marks, before) && (Inside(marks, before) <==> ev.kind == KIND_PUT_USER)
  {
    MarksNext(q, w.deeds, ev);
    MarkAlternates(Marks(q, w.deeds), MarkOf(q, ev)[0], before);
    assert MarkOf(q, ev) == [MarkOf(q, ev)[0]];
  }

  /** What the rule says of such an event. */
  lemma RuledRuling(w: World, q: Pair, before: bool, ev: Event)
    requires Rule(q, before)(w, Other(ev)) && !IsRequest(ev) && Saved(w.log, ev).Ok? && Rules(q)(ev)
    ensures if Quiet(w, q) then Decisive(w, q, Other(ev), ev.kind)
            else (ev.kind == KIND_PUT_USER <==> Inside(Marks(q, w.deeds), before))
  {
    assert |Next(w, Other(ev)).deeds| > |w.deeds|;
  }

  lemma PendingRulingKeeps(w: World, w': World, q: Pair, before: bool, ev: Event)
    requires Inv(w, q, before) && Rules(q)(ev) && Saved(w.log, ev).Ok?
    requires ev.kind == KIND_PUT_USER <==> Inside(Marks(q, w.deeds), before)
    requires w' == w.(log := Saved(w.log, ev).value, deeds := w'.deeds) && KeepsRequests(w.log, w'.log)
    requires Alternating(Marks(q, w'.deeds), before)
    requires Inside(Marks(q, w'.deeds), before) == Inside(Marks(q, w.deeds), before)
    ensures Inv(w', q, before)
  {
    if !SomeStored(w, q) { MemberUnmoved(w.log, q, ev); }
    RulingHarmless(w, w', q, before);
  }

  lemma RulingKeeps(w: World, q: Pair, before: bool, ev: Event)
    requires Inv(w, q, before) && Rule(q, before)(w, Other(ev))
    requires !IsRequest(ev) && Saved(w.log, ev).Ok? && Rules(q)(ev)
    ensures Inv(Next(w, Other(ev)), q, before)
  {
    LogAfterKeeps(w.log, ev, q);
    RulingMark(w, q, before, ev);
    RuledRuling(w, q, before, ev);
    if Quiet(w, q) { QuietRulingKeeps(w, q, before, ev); } else { PendingRulingKeeps(w, Next(w, Other(ev)), q, before, ev); }
  }

  lemma QuietRulingKeeps(w: World, q: Pair, before: bool, ev: Event)
    requires Inv(w, q, before) && Quiet(w, q) && !IsRequest(ev) && Saved(w.log, ev).Ok?
    requires var w' := Next(w, Other(ev));
      && KeepsRequests(w.log, w'.log) && Alternating(Marks(q, w'.deeds), before) && Decisive(w, q, Other(ev), ev.kind)
      && (Inside(Marks(q, w'.deeds), before) <==> ev.kind == KIND_PUT_USER)
    ensures Inv(Next(w, Other(ev)), q, before)
  {
    RulingSaved(w, Next(w, Other(ev)), q, before);
  }

  lemma OtherKeeps(w: World, q: Pair, before: bool, ev: Event)
    requires Inv(w, q, before) && Rule(q, before)(w, Other(ev))
    ensures Inv(Next(w, Other(ev)), q, before)
  {
    if !IsRequest(ev) && Saved(w.log, ev).Ok? {
      if Rules(q)(ev) {
        RulingKeeps(w, q, before, ev);
      } else {
        LogAfterKeeps(w.log, ev, q);
        MarksNext(q, w.deeds, ev);
        assert Marks(q, w.deeds) + [] == Marks(q, w.deeds);
        StrangerSaved(w, Next(w, Other(ev)), q, before);
      }
    }
  }

  lemma StepKeeps(w: World, q: Pair, before: bool, step: Step)
    requires Inv(w, q, before) && Rule(q, before)(w, step)
    ensures Inv(Next(w, step), q, before)
  {
    match step {
      case Validate(_, _, _, _) => ValidateKeeps(w, q, before, step);
      case Store(c, saved, ok) => StoreKeeps(w, q, before, c, saved, ok);
      case Follow(_, _, _) => FollowKeeps(w, q, before, step);
      case Other(ev) => OtherKeeps(w, q, before, ev);
    }
  }

  lemma {:induction false} RunKeeps(w: World, q: Pair, before: bool, steps: seq<Step>)
    requires Inv(w, q, before) && Obeys(Next, w, steps, Rule(q, before))
    ensures Inv(Run(Next, w, steps), q, before)
    decreases |steps|
  {
    if steps != [] {
      StepKeeps(w, q, before, steps[0]);
      RunKeeps(Next(w, steps[0]), q, before, steps[1..]);
    }
  }

  function Start(relay: string, log: seq<Event>): World { World(relay, log, map[], []) }

  /**
   With each request of the pair followed up before another is judged: joins are accepted only from outside
   the group and leaves only from inside, and between requests membership is what the deeds say.
   */
  lemma JoinsAndLeavesAlternate(log: seq<Event>, q: Pair, steps: seq<Step>)
    requires WellKept(log) && Obeys(Next, Start(q.relay, log), steps, Rule(q, Member(log, q)))
    ensures var w := Run(Next, Start(q.relay, log), steps);
      && Alternating(Marks(q, w.deeds), Member(log, q))
      && (Quiet(w, q) ==> (Member(w.log, q) <==> Inside(Marks(q, w.deeds), Member(log, q))))
  {
    RunKeeps(Start(q.relay, log), q, Member(log, q), steps);
  }

  // ---- the rule is exact ------------------------------------------------------------------------------

  /** Whatever follows under the rule, joins and leaves of q alternate. */
  ghost predicate KeepsAlternating(w: World, q: Pair, before: bool) {
    forall steps :: Obeys(Next, w, steps, Rule(q, before)) ==> Alternating(Marks(q, Run(Next, w, steps).deeds), before)
  }

  ghost predicate Reachable(w: World, q: Pair, before: bool) {
    exists log :: WellKept(log) && before == Member(log, q) && Reaches(Next, Start(q.relay, log), w, Rule(q, before))
  }

  lemma ReachableInv(w: World, q: Pair, before: bool)
    requires Reachable(w, q, before)
    ensures Inv(w, q, before)
  {
    var log :| WellKept(log) && before == Member(log, q) && Reaches(Next, Start(q.relay, log), w, Rule(q, before));
    var start := Start(q.relay, log);
    var steps: seq<Step> :| Obeys(Next, start, steps, Rule(q, before)) && Run(Next, start, steps) == w;
    RunKeeps(start, q, before, steps);
  }

  lemma InvAlternates(w: World, q: Pair, before: bool)
    requires Inv(w, q, before)
    ensures KeepsAlternating(w, q, before)
  {
    forall steps | Obeys(Next, w, steps, Rule(q, before))
      ensures Alternating(Marks(q, Run(Next, w, steps).deeds), before)
    {
      RunKeeps(w, q, before, steps);
    }
  }

  /** The mark of a request when its user is already where it leads. */
  lemma RepeatedMark(marks: seq<Mark>, m: Mark, before: bool)
    requires m in {Joined, Left} && (Inside(marks, before) <==> m == Joined)
    ensures !Alternating(marks + [m], before)
  {
    var out := marks + [m];
    assert out[|marks|] == m && out[..|marks|] == marks;
  }

  lemma FreshIsSaved(log: seq<Event>, ev: Event)
    requires IsRequest(ev) && !HasEvent(log, ev.id)
    ensures Saved(log, ev) == Ok(log + [ev])
  {
    FilterAll(log, OtherSlots(ev));
  }

  lemma SecondRequestBreaks(s: World, w: World, q: Pair, before: bool, c: int)
    requires Reaches(Next, s, w, Rule(q, before)) && StageOf(w, c).Judged?
    requires var ev := StageOf(w, c).ev;
      IsRequest(ev) && PairOf(q.relay, ev) == q && !HasEvent(w.log, ev.id) &&
      (Inside(Marks(q, w.deeds), before) <==> ev.kind == KIND_JOIN)
    ensures !KeepsAlternating(s, q, before)
  {
    var ev := StageOf(w, c).ev;
    FreshIsSaved(w.log, ev);
    MarksNext(q, w.deeds, ev);
    RepeatedMark(Marks(q, w.deeds), MarkOf(q, ev)[0], before);
    assert MarkOf(q, ev) == [MarkOf(q, ev)[0]];
    assert !Forsakes(w, q, Store(c, true, true));
    ReachesThen(Next, s, w, Rule(q, before), Store(c, true, true));
    assert !Alternating(Marks(q, Next(w, Store(c, true, true)).deeds), before);
  }

  /** A deed about q decides where its user stands by the deeds. */
  lemma InsideAfter(q: Pair, deeds: seq<Event>, ev: Event, before: bool)
    requires MarkOf(q, ev) != []
    ensures Inside(Marks(q, deeds + [ev]), before) <==> ev.kind in {KIND_JOIN, KIND_PUT_USER}
  {
    MarksNext(q, deeds, ev);
    assert MarkOf(q, ev) == [MarkOf(q, ev)[0]];
  }

  lemma FirstStored(w: World, q: Pair, before: bool, c: int)
    requires StageOf(w, c).Judged?
    requires var a := StageOf(w, c).ev; IsRequest(a) && PairOf(q.relay, a) == q && !HasEvent(w.log, a.id)
    ensures var t := Next(w, Store(c, true, true));
      && t.log == w.log + [StageOf(w, c).ev] && t.stages == w.stages[c := Stored(StageOf(w, c).ev)]
      && (Inside(Marks(q, t.deeds), before) <==> StageOf(w, c).ev.kind == KIND_JOIN)
  {
    FreshIsSaved(w.log, StageOf(w, c).ev);
    InsideAfter(q, w.deeds, StageOf(w, c).ev, before);
  }

  lemma StillFresh(log: seq<Event>, a: Event, id: string)
    requires !HasEvent(log, id) && a.id != id
    ensures !HasEvent(log + [a], id)
  {}

  lemma TwoRequestsBreak(w: World, q: Pair, before: bool, c: int, d: int)
    requires c != d && StageOf(w, c).Judged? && StageOf(w, d).Judged?
    requires var a, b := StageOf(w, c).ev, StageOf(w, d).ev;
      IsRequest(a) && a.kind == b.kind && PairOf(q.relay, a) == PairOf(q.relay, b) == q && a.id != b.id &&
      !HasEvent(w.log, a.id) && !HasEvent(w.log, b.id)
    ensures !KeepsAlternating(w, q, before)
  {
    FirstStored(w, q, before, c);
    StillFresh(w.log, StageOf(w, c).ev, StageOf(w, d).ev.id);
    ReachesSelf(Next, w, Rule(q, before));
    assert !Forsakes(w, q, Store(c, true, true));
    ReachesThen(Next, w, w, Rule(q, before), Store(c, true, true));
    SecondRequestBreaks(w, Next(w, Store(c, true, true)), q, before, d);
  }

  /** An id is the hash of its event: no two events at hand share one. */
  ghost predicate Identified(w: World, ev: Event) {
    && (forall e :: e in w.log && e.id == ev.id ==> e == ev)
    && (forall c :: c in w.stages && !StageOf(w, c).Idle? ==>
      var x := StageOf(w, c).ev; (x.id == ev.id ==> x == ev) && forall e :: e in w.log && e.id == x.id ==> e == x)
  }

  /** An id longer than every stored one. */
  function LongId(log: seq<Event>): (id: string)
    ensures forall e :: e in log ==> |e.id| < |id|
  {
    if log == [] then "0"
    else
      var id := LongId(log[1..]);
      if |log[0].id| < |id| then id else log[0].id + "0"
  }

  function Request(q: Pair, kind: int, id: string): Event { Event(id, q.user, 0, kind, [["h", q.group]], "", "") }

  /** Once membership is not what the deeds say, the next request repeats the last. */
  lemma MismatchBreaks(w: World, q: Pair, before: bool, c: int)
    requires w.relay == q.relay && Quiet(w, q) && StageOf(w, c) == Idle && q.group != ""
    requires Member(w.log, q) != Inside(Marks(q, w.deeds), before)
    ensures !KeepsAlternating(w, q, before)
  {
    var ev := Request(q, if Member(w.log, q) then KIND_LEAVE else KIND_JOIN, LongId(w.log));
    assert GroupHTag(ev.tags) == q.group && !HasEvent(w.log, ev.id);
    RepeatBreaks(w, q, before, c, ev);
  }

  lemma RepeatBreaks(w: World, q: Pair, before: bool, c: int, ev: Event)
    requires w.relay == q.relay && Quiet(w, q) && StageOf(w, c) == Idle && q.group != ""
    requires IsRequest(ev) && PairOf(q.relay, ev) == q && !HasEvent(w.log, ev.id)
    requires (Member(w.log, q) <==> ev.kind == KIND_LEAVE) && Member(w.log, q) != Inside(Marks(q, w.deeds), before)
    ensures !KeepsAlternating(w, q, before)
  {
    var step := Validate(c, ev, false, Ok(None));
    assert Accepted(w, ev, false, Ok(None)) && !Clashes(w, q, ev);
    assert Next(w, step) == At(w, c, Judged(ev)) && Rule(q, before)(w, step);
    ReachesSelf(Next, w, Rule(q, before));
    ReachesThen(Next, w, w, Rule(q, before), step);
    SecondRequestBreaks(w, At(w, c, Judged(ev)), q, before, c);
  }

  /** What a forsaken request leaves: none is pending, and the log says nothing of it. */
  lemma ForsakenQuiet(w: World, q: Pair, before: bool, step: Step)
    requires Inv(w, q, before) && Forsakes(w, q, step)
    ensures var t := Next(w, step);
      && t.relay == w.relay && Quiet(t, q) && StageOf(t, step.c) == Idle && q.group != ""
      && Member(t.log, q) != Inside(Marks(q, t.deeds), before)
  {
    var c, ev := step.c, StageOf(w, step.c).ev;
    assert StageFits(w, q, c, Inside(Marks(q, w.deeds), before));
    assert forall d :: d in w.stages && Pending(w, q, d) ==> StageOf(w, d) == Judged(ev);
    RequestSaved(w, Next(w, step), q, ev);
    InsideAfter(q, w.deeds, ev, before);
  }

  /** A save keeps the alternation exactly unless it is a pending request's, answered with an error, and succeeds. */
  lemma StoreSafeIff(w: World, q: Pair, before: bool, step: Step)
    requires Reachable(w, q, before) && step.Store?
    ensures KeepsAlternating(Next(w, step), q, before) <==> !Forsakes(w, q, step)
  {
    ReachableInv(w, q, before);
    if Forsakes(w, q, step) {
      ForsakenQuiet(w, q, before, step);
      MismatchBreaks(Next(w, step), q, before, step.c);
    } else {
      StepKeeps(w, q, before, step);
      InvAlternates(Next(w, step), q, before);
    }
  }

  /** The relay's own event keeps the alternation exactly when it takes effect. */
  lemma FollowSafeIff(w: World, q: Pair, before: bool, step: Step)
    requires Reachable(w, q, before) && step.Follow? && StageOf(w, step.c).Stored?
    requires FollowsUp(w.relay, StageOf(w, step.c).ev, step.follow) && PairOf(q.relay, StageOf(w, step.c).ev) == q
    ensures KeepsAlternating(Next(w, step), q, before) <==> Decisive(w, q, step, StageOf(w, step.c).ev.kind)
  {
    ReachableInv(w, q, before);
    var c, t := step.c, Next(w, step);
    LogAfterKeeps(w.log, step.follow, q);
    StoredAlone(w, q, before, c);
    if Decisive(w, q, step, StageOf(w, c).ev.kind) {
      StepKeeps(w, q, before, step);
      InvAlternates(t, q, before);
    } else {
      StoredHasGroup(w, q, before, c);
      FollowedQuiet(w, q, before, c, t.log);
      MismatchBreaks(t, q, before, c);
    }
  }

  lemma StoredHasGroup(w: World, q: Pair, before: bool, c: int)
    requires Inv(w, q, before) && StageOf(w, c).Stored? && PairOf(q.relay, StageOf(w, c).ev) == q
    ensures q.group != "" && IsRequest(StageOf(w, c).ev)
  {
    assert StageFits(w, q, c, Inside(Marks(q, w.deeds), before));
  }

  // ---- events that take effect ----------------------------------------------------------------------

  /** The latest stamp in the log. */
  function Latest(log: seq<Event>): (r: Int64)
    ensures forall e :: e in log ==> e.createdAt <= r
    ensures log != [] ==> exists e :: e in log && e.createdAt == r
    ensures log == [] ==> r == MIN_INT64
  {
    if log == [] then MIN_INT64
    else
      var r := Latest(log[1..]);
      if log[0].createdAt > r || |log| == 1 then log[0].createdAt else r
  }

  /** The clock has n seconds left. */
  predicate StampsLeft(log: seq<Event>, n: nat) { forall e :: e in log ==> e.createdAt + n <= MAX_INT64 }

  /** What the relay signs for this request in a later second. */
  function Signed(log: seq<Event>, relay: string, ev: Event): Event
    requires StampsLeft(log, 1)
  {
    Event(LongId(log), relay, Latest(log) + 1, if ev.kind == KIND_JOIN then KIND_PUT_USER else KIND_REMOVE_USER,
          [["h", GroupHTag(ev.tags)], ["p", ev.pubkey]], "", "")
  }

  lemma SignedIsSaved(log: seq<Event>, q: Pair, ev: Event)
    requires WellKept(log) && StampsLeft(log, 1) && IsRequest(ev) && PairOf(q.relay, ev) == q
    ensures var f := Signed(log, q.relay, ev);
      && FollowsUp(q.relay, ev, f) && Saved(log, f) == Ok(log + [f]) && WellKept(log + [f])
      && (Member(log + [f], q) <==> ev.kind == KIND_JOIN)
  {
    var f := Signed(log, q.relay, ev);
    FilterAll(log, OtherSlots(f));
    assert !HasEvent(log, f.id);
    SavedWellKept(log, f);
    FollowUpRules(f, q.relay, f.kind, GroupHTag(ev.tags), ev.pubkey, q);
    AppendMember(log, q, f);
  }

  lemma StampSpent(log: seq<Event>, relay: string, ev: Event, n: nat)
    requires 1 <= n <= 2 && StampsLeft(log, n)
    ensures StampsLeft(log, 1) && StampsLeft(log + [Signed(log, relay, ev)], n - 1)
  {}

  /** A follow-up in a later second takes effect. */
  lemma FollowedLater(s: World, w: World, q: Pair, before: bool, c: int, n: nat) returns (t: World)
    requires Reaches(Next, s, w, Rule(q, before)) && w.relay == q.relay && WellKept(w.log)
    requires StageOf(w, c).Stored? && IsRequest(StageOf(w, c).ev) && PairOf(q.relay, StageOf(w, c).ev) == q
    requires 1 <= n <= 2 && StampsLeft(w.log, n)
    ensures Reaches(Next, s, t, Rule(q, before)) && t == At(w, c, Idle).(log := t.log)
    ensures WellKept(t.log) && StampsLeft(t.log, n - 1) && forall e :: e in w.log ==> e in t.log
    ensures Member(t.log, q) <==> StageOf(w, c).ev.kind == KIND_JOIN
  {
    var ev := StageOf(w, c).ev;
    StampSpent(w.log, q.relay, ev, n);
    SignedIsSaved(w.log, q, ev);
    var step := Follow(c, Signed(w.log, q.relay, ev), true);
    t := Next(w, step);
    assert Decisive(w, q, step, ev.kind);
    ReachesThen(Next, s, w, Rule(q, before), step);
  }

  lemma ReachBreaks(s: World, w: World, q: Pair, before: bool)
    requires Reaches(Next, s, w, Rule(q, before)) && !KeepsAlternating(w, q, before)
    ensures !KeepsAlternating(s, q, before)
  {
    var a: seq<Step> :| Obeys(Next, s, a, Rule(q, before)) && Run(Next, s, a) == w;
    var b: seq<Step> :| Obeys(Next, w, b, Rule(q, before)) && !Alternating(Marks(q, Run(Next, w, b).deeds), before);
    RunsJoin(Next, s, a, b, Rule(q, before));
  }

  // ---- a second request -------------------------------------------------------------------------------

  /** Besides c no request of q is pending, but perhaps at d. */
  predicate OnlyPending(w: World, q: Pair, c: int, d: int) {
    forall x :: x in w.stages && x != c && x != d ==> !Pending(w, q, x)
  }

  /** Two stored requests of opposite kinds, followed up in the reverse order of their saves. */
  lemma ReverseFollowsBreak(s: World, w: World, q: Pair, before: bool, c: int, d: int)
    requires Reaches(Next, s, w, Rule(q, before)) && w.relay == q.relay && WellKept(w.log) && StampsLeft(w.log, 2)
    requires c != d && StageOf(w, c).Stored? && StageOf(w, d).Stored? && OnlyPending(w, q, c, d) && q.group != ""
    requires IsRequest(StageOf(w, c).ev) && PairOf(q.relay, StageOf(w, c).ev) == q
    requires IsRequest(StageOf(w, d).ev) && PairOf(q.relay, StageOf(w, d).ev) == q
    requires StageOf(w, c).ev.kind != StageOf(w, d).ev.kind
    requires Inside(Marks(q, w.deeds), before) <==> StageOf(w, d).ev.kind == KIND_JOIN
    ensures !KeepsAlternating(s, q, before)
  {
    var t := FollowedLater(s, w, q, before, d, 2);
    var u := FollowedLater(s, t, q, before, c, 1);
    Settled(w, u, q, c, d);
    MismatchBreaks(u, q, before, c);
    ReachBreaks(s, u, q, before);
  }

  /** Once the two are followed up none is pending. */
  lemma Settled(w: World, u: World, q: Pair, c: int, d: int)
    requires OnlyPending(w, q, c, d) && forall e :: e in w.log ==> e in u.log
    requires u.stages == w.stages[d := Idle][c := Idle]
    ensures Quiet(u, q)
  {}

  lemma OppositeBreaks(w: World, q: Pair, before: bool, c: int, d: int)
    requires w.relay == q.relay && WellKept(w.log) && StampsLeft(w.log, 2) && OnlyPending(w, q, c, d) && q.group != ""
    requires c != d && StageOf(w, c).Stored? && StageOf(w, d).Judged? && StageOf(w, d).ev.createdAt <= MAX_INT64 - 2
    requires IsRequest(StageOf(w, c).ev) && PairOf(q.relay, StageOf(w, c).ev) == q
    requires IsRequest(StageOf(w, d).ev) && PairOf(q.relay, StageOf(w, d).ev) == q
    requires StageOf(w, c).ev.kind != StageOf(w, d).ev.kind && !HasEvent(w.log, StageOf(w, d).ev.id)
    ensures !KeepsAlternating(w, q, before)
  {
    var t := Next(w, Store(d, true, true));
    FirstStored(w, q, before, d);
    SavedWellKept(w.log, StageOf(w, d).ev);
    FreshIsSaved(w.log, StageOf(w, d).ev);
    ReachesSelf(Next, w, Rule(q, before));
    assert !Forsakes(w, q, Store(d, true, true));
    ReachesThen(Next, w, w, Rule(q, before), Store(d, true, true));
    assert forall x :: x in t.stages && x != c && x != d ==> t.stages[x] == w.stages[x];
    ReverseFollowsBreak(w, t, q, before, c, d);
  }

  lemma StoredClashBreaks(w: World, q: Pair, before: bool, step: Step, d: int)
    requires Inv(w, q, before) && step.Validate? && Identified(w, step.ev) && step.ev !in w.log
    requires StageOf(w, step.c) == Idle && IsRequest(step.ev) && Accepted(w, step.ev, step.fault, step.md)
    requires PairOf(q.relay, step.ev) == q && d in w.stages && Pending(w, q, d) && StageOf(w, d).Stored?
    requires StampsLeft(w.log, 2) && step.ev.createdAt <= MAX_INT64 - 2
    ensures !KeepsAlternating(Next(w, step), q, before)
  {
    var ev, t := step.ev, Next(w, step);
    StoredAlone(w, q, before, d);
    StoredHasGroup(w, q, before, d);
    assert StageOf(t, d) == StageOf(w, d) && StageOf(t, step.c) == Judged(ev) && !HasEvent(w.log, ev.id);
    if ev.kind == StageOf(w, d).ev.kind {
      ReachesSelf(Next, t, Rule(q, before));
      SecondRequestBreaks(t, t, q, before, step.c);
    } else {
      assert forall x :: x in t.stages && x != d && x != step.c ==> t.stages[x] == w.stages[x];
      OppositeBreaks(t, q, before, d, step.c);
    }
  }

  lemma ClashBreaks(w: World, q: Pair, before: bool, step: Step)
    requires Inv(w, q, before) && step.Validate? && Identified(w, step.ev) && Clashes(w, q, step.ev)
    requires StageOf(w, step.c) == Idle && IsRequest(step.ev) && Accepted(w, step.ev, step.fault, step.md)
    requires PairOf(q.relay, step.ev) == q && StampsLeft(w.log, 2) && step.ev.createdAt <= MAX_INT64 - 2
    ensures !KeepsAlternating(Next(w, step), q, before)
  {
    var ev, t := step.ev, Next(w, step);
    var d :| d in w.stages && Pending(w, q, d) && StageOf(w, d) != Judged(ev);
    assert StageFits(w, q, d, Inside(Marks(q, w.deeds), before));
    if StageOf(w, d).Judged? {
      assert StageOf(t, d) == StageOf(w, d) && StageOf(t, step.c) == Judged(ev) && !HasEvent(w.log, ev.id);
      TwoRequestsBreak(t, q, before, d, step.c);
    } else {
      StoredClashBreaks(w, q, before, step, d);
    }
  }

  /**
   Judging a request of q is safe for the alternation exactly when no other is pending: while one is, both are
   accepted. That it then fails takes ids that identify their events, and two more seconds on the clock.
   */
  lemma ValidationSafeIff(w: World, q: Pair, before: bool, step: Step)
    requires Reachable(w, q, before) && step.Validate? && PairOf(q.relay, step.ev) == q
    requires StageOf(w, step.c) == Idle && IsRequest(step.ev) && Accepted(w, step.ev, step.fault, step.md)
    ensures !Clashes(w, q, step.ev) ==> KeepsAlternating(Next(w, step), q, before)
    ensures Identified(w, step.ev) && StampsLeft(w.log + [step.ev], 2) ==>
      (KeepsAlternating(Next(w, step), q, before) <==> !Clashes(w, q, step.ev))
  {
    ReachableInv(w, q, before);
    if !Clashes(w, q, step.ev) {
      StepKeeps(w, q, before, step);
      InvAlternates(Next(w, step), q, before);
    } else if Identified(w, step.ev) && StampsLeft(w.log + [step.ev], 2) {
      StampsBefore(w.log, step.ev);
      ClashBreaks(w, q, before, step);
    }
  }

  lemma StampsBefore(log: seq<Event>, ev: Event)
    requires StampsLeft(log + [ev], 2)
    ensures StampsLeft(log, 2) && ev.createdAt <= MAX_INT64 - 2
  {
    assert (log + [ev])[|log|] == ev && forall e :: e in log ==> e in log + [ev];
  }

  // ---- a ruling by others -----------------------------------------------------------------------------

  lemma RulingIsSaved(log: seq<Event>, q: Pair, ev: Event)
    requires WellKept(log) && Rules(q)(ev) && Saved(log, ev).Ok?
    ensures Saved(log, ev).value == log + [ev] && WellKept(log + [ev]) && !IsRequest(ev)
  {
    FilterAll(log, OtherSlots(ev));
    SavedWellKept(log, ev);
  }

  /** Saving it changes no stage, and leaves no more requests pending than before. */
  lemma RulingFrame(w: World, q: Pair, before: bool, ev: Event)
    requires Inv(w, q, before) && Rules(q)(ev) && Saved(w.log, ev).Ok?
    ensures var t := Next(w, Other(ev));
      && t == w.(log := w.log + [ev], deeds := w.deeds + [ev]) && WellKept(t.log)
      && (forall c :: c in t.stages && Pending(t, q, c) ==> Pending(w, q, c))
      && (Inside(Marks(q, t.deeds), before) <==> ev.kind == KIND_PUT_USER)
  {
    RulingIsSaved(w.log, q, ev);
    InsideAfter(q, w.deeds, ev, before);
  }

  lemma QuietRulingBreaks(w: World, q: Pair, before: bool, ev: Event, c: int)
    requires Inv(w, q, before) && Rules(q)(ev) && Saved(w.log, ev).Ok? && Quiet(w, q)
    requires q.group != "" && StageOf(w, c) == Idle && !Decisive(w, q, Other(ev), ev.kind)
    ensures !KeepsAlternating(Next(w, Other(ev)), q, before)
  {
    RulingFrame(w, q, before, ev);
    MismatchBreaks(Next(w, Other(ev)), q, before, c);
  }

  /** It moves the user against a pending request. */
  lemma PendingRulingBreaks(w: World, q: Pair, before: bool, ev: Event, c: int)
    requires Inv(w, q, before) && Rules(q)(ev) && Saved(w.log, ev).Ok? && Identified(w, ev)
    requires c in w.stages && Pending(w, q, c) && (ev.kind == KIND_PUT_USER) != Inside(Marks(q, w.deeds), before)
    requires StampsLeft(w.log + [ev], 1)
    ensures !KeepsAlternating(Next(w, Other(ev)), q, before)
  {
    var t := Next(w, Other(ev));
    RulingFrame(w, q, before, ev);
    assert StageFits(w, q, c, Inside(Marks(q, w.deeds), before));
    if StageOf(w, c).Judged? {
      StillFresh(w.log, ev, StageOf(w, c).ev.id);
      ReachesSelf(Next, t, Rule(q, before));
      SecondRequestBreaks(t, t, q, before, c);
    } else {
      StoredAlone(w, q, before, c);
      StoredRulingBreaks(t, q, before, c);
    }
  }

  /** The user is not where the stored request leads, and its follow-up takes effect. */
  lemma StoredRulingBreaks(t: World, q: Pair, before: bool, c: int)
    requires t.relay == q.relay && WellKept(t.log) && StampsLeft(t.log, 1) && OnlyPending(t, q, c, c) && q.group != ""
    requires StageOf(t, c).Stored? && IsRequest(StageOf(t, c).ev) && PairOf(q.relay, StageOf(t, c).ev) == q
    requires Inside(Marks(q, t.deeds), before) != (StageOf(t, c).ev.kind == KIND_JOIN)
    ensures !KeepsAlternating(t, q, before)
  {
    ReachesSelf(Next, t, Rule(q, before));
    var u := FollowedLater(t, t, q, before, c, 1);
    Settled(t, u, q, c, c);
    MismatchBreaks(u, q, before, c);
    ReachBreaks(t, u, q, before);
  }

  /**
   A put-user or remove-user event saved by anyone else keeps the alternation exactly when the rule allows it:
   with no request pending it must take effect, and otherwise leave the user where the deeds say it is.
   */
  lemma RulingSafeIff(w: World, q: Pair, before: bool, ev: Event, c: int)
    requires Reachable(w, q, before) && Rules(q)(ev) && Saved(w.log, ev).Ok? && q.group != "" && StageOf(w, c) == Idle
    ensures Rule(q, before)(w, Other(ev)) ==> KeepsAlternating(Next(w, Other(ev)), q, before)
    ensures Identified(w, ev) && StampsLeft(w.log + [ev], 1) ==>
      (KeepsAlternating(Next(w, Other(ev)), q, before) <==> Rule(q, before)(w, Other(ev)))
  {
    ReachableInv(w, q, before);
    RulingFrame(w, q, before, ev);
    assert |Next(w, Other(ev)).deeds| > |w.deeds|;
    if Rule(q, before)(w, Other(ev)) {
      StepKeeps(w, q, before, Other(ev));
      InvAlternates(Next(w, Other(ev)), q, before);
    } else if Quiet(w, q) {
      QuietRulingBreaks(w, q, before, ev, c);
    } else if Identified(w, ev) && StampsLeft(w.log + [ev], 1) {
      var d :| d in w.stages && Pending(w, q, d);
      PendingRulingBreaks(w, q, before, ev, d);
    }
  }

  // ---- what is accepted -------------------------------------------------------------------------------

  /** The group's latest metadata says that it is closed. */
  ghost predicate Closed(log: seq<Event>, relay: string, group: string) { MetadataHas(log, relay, group, "closed") }

  lemma MetadataDecides(log: seq<Event>, relay: string, group: string, md: Option<Event>)
    requires IsMetadata(log, relay, group, md)
    ensures MetadataSays(md, "closed") <==> Closed(log, relay, group)
  {
    forall m: Event | md.Some? && Newer(m, md.value) ensures !Newer(md.value, m) { NewerIsAsymmetric(m, md.value); }
  }

  /** A store that answers lets exactly the outsiders of groups that are not closed in. */
  lemma JoinAcceptedIff(w: World, c: int, ev: Event, fault: bool, md: Answer<Option<Event>>)
    requires StageOf(w, c) == Idle && ev.kind == 9021
    requires md.Ok? ==> IsMetadata(w.log, w.relay, GroupHTag(ev.tags), md.value)
    ensures StageOf(Next(w, Validate(c, ev, fault, md)), c) == Judged(ev) <==>
      GroupHTag(ev.tags) != "" && !fault && md.Ok? && !Member(w.log, PairOf(w.relay, ev)) &&
      !Closed(w.log, w.relay, GroupHTag(ev.tags))
  {
    if md.Ok? { MetadataDecides(w.log, w.relay, GroupHTag(ev.tags), md.value); }
  }

  /** And exactly the members may leave. */
  lemma LeaveAcceptedIff(w: World, c: int, ev: Event, fault: bool, md: Answer<Option<Event>>)
    requires StageOf(w, c) == Idle && ev.kind == 9022
    ensures StageOf(Next(w, Validate(c, ev, fault, md)), c) == Judged(ev) <==>
      GroupHTag(ev.tags) != "" && !fault && Member(w.log, PairOf(w.relay, ev))
  {}

  lemma Judges(w: World, c: int, ev: Event)
    requires StageOf(w, c) == Idle && ev.kind == KIND_JOIN && GroupHTag(ev.tags) != ""
    requires !Member(w.log, PairOf(w.relay, ev))
    ensures Next(w, Validate(c, ev, false, Ok(None))) == At(w, c, Judged(ev))
  {}

  lemma Stores(w: World, c: int)
    requires StageOf(w, c).Judged? && IsRequest(StageOf(w, c).ev) && !HasEvent(w.log, StageOf(w, c).ev.id)
    ensures var ev := StageOf(w, c).ev;
      Next(w, Store(c, true, true)) == World(w.relay, w.log + [ev], w.stages[c := Stored(ev)], w.deeds + [ev])
  {
    FreshIsSaved(w.log, StageOf(w, c).ev);
  }

  /** Two connections of one user ask to join at the same time: both are accepted and saved, with no leave between. */
  lemma RacingJoinsBothAccepted(log: seq<Event>, a: Event, b: Event) returns (w: World)
    requires a.kind == b.kind == KIND_JOIN && a.id != b.id && a.tags == b.tags && a.pubkey == b.pubkey
    requires GroupHTag(a.tags) != "" && !HasEvent(log, a.id) && !HasEvent(log, b.id)
    requires WellKept(log) && !Member(log, PairOf("relay", a))
    ensures exists steps :: w == Run(Next, Start("relay", log), steps)
    ensures w.deeds == [a, b] && Marks(PairOf("relay", a), w.deeds) == [Joined, Joined]
  {
    var start, steps := Start("relay", log), [];
    Judges(start, 0, a);
    steps, w := Go(Next, start, steps, start, Validate(0, a, false, Ok(None)));
    Judges(w, 1, b);
    steps, w := Go(Next, start, steps, w, Validate(1, b, false, Ok(None)));
    Stores(w, 0);
    steps, w := Go(Next, start, steps, w, Store(0, true, true));
    StillFresh(log, a, b.id);
    Stores(w, 1);
    steps, w := Go(Next, start, steps, w, Store(1, true, true));
    TwoMarks(PairOf("relay", a), a, b);
  }

  lemma StoresUnanswered(w: World, c: int)
    requires StageOf(w, c).Judged? && StageOf(w, c).ev.kind == KIND_JOIN && WellKept(w.log)
    requires !HasEvent(w.log, StageOf(w, c).ev.id)
    ensures var ev, q := StageOf(w, c).ev, PairOf(w.relay, StageOf(w, c).ev);
      var t := Next(w, Store(c, true, false));
      t == World(w.relay, w.log + [ev], w.stages[c := Idle], w.deeds + [ev]) && (Member(t.log, q) <==> Member(w.log, q))
  {
    var ev := StageOf(w, c).ev;
    FreshIsSaved(w.log, ev);
    MemberAfterSave(w.log, PairOf(w.relay, ev), ev);
  }

  /** A join is saved after its deadline, and so without follow-up: the user asks again, and is let in twice. */
  lemma UnansweredJoinIsRepeated(log: seq<Event>, a: Event, b: Event) returns (w: World)
    requires a.kind == b.kind == KIND_JOIN && a.id != b.id && a.tags == b.tags && a.pubkey == b.pubkey
    requires GroupHTag(a.tags) != "" && !HasEvent(log, a.id) && !HasEvent(log, b.id)
    requires WellKept(log) && !Member(log, PairOf("relay", a))
    ensures exists steps :: w == Run(Next, Start("relay", log), steps)
    ensures w.deeds == [a, b] && Marks(PairOf("relay", a), w.deeds) == [Joined, Joined]
  {
    var start, steps := Start("relay", log), [];
    Judges(start, 0, a);
    steps, w := Go(Next, start, steps, start, Validate(0, a, false, Ok(None)));
    StoresUnanswered(w, 0);
    steps, w := Go(Next, start, steps, w, Store(0, true, false));
    Judges(w, 0, b);
    steps, w := Go(Next, start, steps, w, Validate(0, b, false, Ok(None)));
    StillFresh(log, a, b.id);
    Stores(w, 0);
    steps, w := Go(Next, start, steps, w, Store(0, true, true));
    TwoMarks(PairOf("relay", a), a, b);
  }

  lemma TwoMarks(q: Pair, a: Event, b: Event)
    ensures Marks(q, [a, b]) == MarkOf(q, a) + MarkOf(q, b)
  {
    MarksNext(q, [], a);
    MarksNext(q, [a], b);
    assert [] + [a] == [a] && [a] + [b] == [a, b];
  }

  // ---- a request to its end ---------------------------------------------------------------------------

  /** The save settles a judged request: it is followed up next only if it is in the store and was answered nil. */
  lemma StoreSettles(w: World, c: int, saved: bool, ok: bool)
    requires StageOf(w, c).Judged?
    ensures var t, ev := Next(w, Store(c, saved, ok)), StageOf(w, c).ev;
      && (forall d :: d != c ==> StageOf(t, d) == StageOf(w, d))
      && (if saved && Saved(w.log, ev).Ok?
          then t.log == Saved(w.log, ev).value && t.deeds == w.deeds + [ev] &&
               StageOf(t, c) == (if ok then Stored(ev) else Idle)
          else t.log == w.log && t.deeds == w.deeds && StageOf(t, c) == Idle)
  {}

  /** An accepted request, saved and followed up in effect, leaves its user where it asked to be. */
  lemma RequestTakesEffect(w: World, q: Pair, c: int, follow: Event)
    requires WellKept(w.log) && w.relay == q.relay && StageOf(w, c).Judged?
    requires var ev := StageOf(w, c).ev; IsRequest(ev) && PairOf(q.relay, ev) == q && !HasEvent(w.log, ev.id)
    requires var ev := StageOf(w, c).ev; FollowsUp(w.relay, ev, follow) && Beats(w.log + [ev], q, follow)
    requires Saved(w.log + [StageOf(w, c).ev], follow).Ok?
    ensures var t := Next(Next(w, Store(c, true, true)), Follow(c, follow, true));
      StageOf(t, c) == Idle && (Member(t.log, q) <==> StageOf(w, c).ev.kind == 9021)
  {
    var ev := StageOf(w, c).ev;
    FreshIsSaved(w.log, ev);
    SavedWellKept(w.log, ev);
    FollowUpRules(follow, w.relay, follow.kind, GroupHTag(ev.tags), ev.pubkey, q);
    MemberAfterSave(w.log + [ev], q, follow);
  }
}
