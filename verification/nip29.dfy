/**
 NIP-29 on the relay: how join and leave requests are judged, and what a saved event does to membership
 (internal/relay/nip29.go).
 */
module Nip29 {
  import opened Base
  import opened Nostr
  import opened EventTables
  import opened Membership

  // ---- join and leave -----------------------------------------------------------------------------

  /** What a store query or its caller answered: Err is a database failure. */
  type Answer<T> = Result<T, ()>

  /** The latest kind-39000 event of the relay for the group. */
  ghost predicate IsMetadata(log: seq<Event>, relay: string, group: string, md: Option<Event>) {
    match md
    case None => forall e :: e in log ==> !MetadataRow(e, relay, group)
    case Some(m) => m in log && MetadataRow(m, relay, group) && NewestMetadata(log, relay, group, m)
  }

  ghost predicate NewestMetadata(log: seq<Event>, relay: string, group: string, m: Event) {
    forall e :: e in log && MetadataRow(e, relay, group) && e != m ==> Newer(m, e)
  }

  predicate MetadataRow(e: Event, relay: string, group: string) {
    e.pubkey == relay && e.kind == KIND_GROUP_METADATA && ExtractDTag(e.tags) == group
  }

  /** The group's latest metadata has a tag of this name. */
  ghost predicate MetadataHas(log: seq<Event>, relay: string, group: string, name: string) {
    exists m :: m in log && MetadataRow(m, relay, group) && NewestMetadata(log, relay, group, m) && HasBareTag(m.tags, name)
  }

  /** One row of metadata at most: kind 39000 is addressable. */
  lemma OneMetadata(log: seq<Event>, relay: string, group: string, m: Event, name: string)
    requires WellKept(log) && m in log && MetadataRow(m, relay, group)
    ensures IsMetadata(log, relay, group, Some(m))
    ensures MetadataHas(log, relay, group, name) <==> HasBareTag(m.tags, name)
  {
    forall e | e in log && MetadataRow(e, relay, group) ensures e == m {
      var i :| 0 <= i < |log| && log[i] == e;
      var j :| 0 <= j < |log| && log[j] == m;
      assert SlotOf(e) == SlotOf(m) && SlotOf(e).Some?;
      assert SameSlot(log[i], log[j]) && SameSlot(log[j], log[i]);
      assert i == j;
    }
  }

  /** Some event of kind 39000, signed by the relay, with the group as its first "d" value, has a tag of this name. */
  ghost predicate Flagged(log: seq<Event>, relay: string, group: string, name: string) {
    exists m, i :: m in log && m.pubkey == relay && m.kind == 39000 && FirstD(m.tags, group) &&
      0 <= i < |m.tags| && NamedTag(m.tags[i], name)
  }

  lemma FlagIsTag(m: Event, relay: string, group: string, name: string)
    requires name != ""
    ensures MetadataRow(m, relay, group) <==> m.pubkey == relay && m.kind == 39000 && FirstD(m.tags, group)
    ensures HasBareTag(m.tags, name) <==> exists i :: 0 <= i < |m.tags| && NamedTag(m.tags[i], name)
  {
    ExtractedIsFirstD(m.tags, group);
    if HasBareTag(m.tags, name) {
      var i :| 0 <= i < |m.tags| && |m.tags[i]| > 0 && m.tags[i][0] == name;
      assert NamedTag(m.tags[i], name);
    }
  }

  /** In a well kept store the flags of a group, private or closed, are the tags of its one metadata event. */
  lemma MetadataIsFlagged(log: seq<Event>, relay: string, group: string, name: string)
    requires WellKept(log) && name != ""
    ensures MetadataHas(log, relay, group, name) <==> Flagged(log, relay, group, name)
  {
    if MetadataHas(log, relay, group, name) {
      var m :| m in log && MetadataRow(m, relay, group) && NewestMetadata(log, relay, group, m) && HasBareTag(m.tags, name);
      FlagIsTag(m, relay, group, name);
    }
    if m, i :| m in log && m.pubkey == relay && m.kind == 39000 && FirstD(m.tags, group) &&
               0 <= i < |m.tags| && NamedTag(m.tags[i], name) {
      FlagIsTag(m, relay, group, name);
      OneMetadata(log, relay, group, m, name);
    }
  }

  datatype Reason =
    | NoGroup | NoIdentity | MemberLookupFailed | AlreadyMember | MetadataLookupFailed | GroupClosed | NotMember

  datatype Verdict = Accept | Reject(reason: Reason)

  /** nip29ValidateModerationAndJoinLeave on its join and leave branches. */
  function JudgeJoin(group: string, hasIdentity: bool, member: Answer<bool>, md: Answer<Option<Event>>): Verdict {
    if group == "" then Reject(NoGroup)
    else if !hasIdentity then Reject(NoIdentity)
    else if member.Err? then Reject(MemberLookupFailed)
    else if member.value then Reject(AlreadyMember)
    else if md.Err? then Reject(MetadataLookupFailed)
    else if MetadataSays(md.value, "closed") then Reject(GroupClosed)
    else Accept
  }

  function JudgeLeave(group: string, hasIdentity: bool, member: Answer<bool>): Verdict {
    if group == "" then Reject(NoGroup)
    else if !hasIdentity then Reject(NoIdentity)
    else if member.Err? then Reject(MemberLookupFailed)
    else if !member.value then Reject(NotMember)
    else Accept
  }

  /** A refusal gives its true reason, and a failed lookup never lets a request pass. */
  lemma RefusalSaysWhy(group: string, hasIdentity: bool, member: Answer<bool>, md: Answer<Option<Event>>)
    ensures var v := JudgeJoin(group, hasIdentity, member, md);
      && (v == Reject(NoGroup) <==> group == "") && (v == Reject(NoIdentity) <==> group != "" && !hasIdentity)
      && (v == Reject(AlreadyMember) <==> group != "" && hasIdentity && member == Ok(true))
      && (v == Reject(GroupClosed) ==> md.Ok? && md.value.Some? && MetadataSays(md.value, "closed"))
      && (member.Err? || (member == Ok(false) && md.Err?) ==> v.Reject?) && v != Reject(NotMember)
    ensures var v := JudgeLeave(group, hasIdentity, member);
      && (v == Reject(NoGroup) <==> group == "") && (v == Reject(NoIdentity) <==> group != "" && !hasIdentity)
      && (v == Reject(NotMember) <==> group != "" && hasIdentity && member == Ok(false))
      && (member.Err? ==> v.Reject?) && v != Reject(AlreadyMember)
  {}

  /** The event the relay signs after an accepted join or leave. */
  predicate FollowUp(ev: Event, relay: string, kind: int, group: string, user: string) {
    ev.pubkey == relay && ev.kind == kind && ev.tags == [["h", group], ["p", user]]
  }

  /** What a saved event means for one group and user. */
  datatype Mark = Joined | Left | Put | Removed

  /** Inside the group after these marks. */
  predicate Inside(marks: seq<Mark>, before: bool) {
    if marks == [] then before else marks[|marks| - 1] in {Joined, Put}
  }

  /** Every accepted join comes from outside the group and every accepted leave from inside. */
  predicate Alternating(marks: seq<Mark>, before: bool) {
    forall i :: 0 <= i < |marks| ==>
      (marks[i] == Joined ==> !Inside(marks[..i], before)) && (marks[i] == Left ==> Inside(marks[..i], before))
  }

  // ---- what saves do to membership ----------------------------------------------------------------

  /** Only the events that decide matter. */
  lemma MemberOfRules(a: seq<Event>, b: seq<Event>, q: Pair)
    requires Filter(a, Rules(q)) == Filter(b, Rules(q))
    ensures Member(a, q) <==> Member(b, q)
  {
    forall e ensures e in a && Rules(q)(e) <==> e in b && Rules(q)(e) {
      assert e in Filter(a, Rules(q)) <==> e in Filter(b, Rules(q));
    }
    assert forall e :: Decides(a, q, e) <==> Decides(b, q, e);
  }

  lemma MemberAfterSave(log: seq<Event>, q: Pair, ev: Event)
    requires WellKept(log) && Saved(log, ev).Ok? && (Rules(q)(ev) ==> Beats(log, q, ev))
    ensures WellKept(Saved(log, ev).value)
    ensures Member(Saved(log, ev).value, q) <==> if Rules(q)(ev) then ev.kind == KIND_PUT_USER else Member(log, q)
  {
    SavedWellKept(log, ev);
    if Rules(q)(ev) {
      FilterAll(log, OtherSlots(ev));
      AppendMember(log, q, ev);
    } else {
      SaveKeepsRules(log, q, ev);
      MemberOfRules(Saved(log, ev).value, log, q);
    }
  }

  lemma FollowUpRules(ev: Event, relay: string, kind: int, group: string, user: string, q: Pair)
    requires FollowUp(ev, relay, kind, group, user) && kind in {KIND_PUT_USER, KIND_REMOVE_USER}
    ensures Rules(q)(ev) <==> q == Pair(relay, group, user)
  {
    assert RowIs(ToTagRow(ev.id, 0, ev.tags[0]), "h", group);
    assert RowIs(ToTagRow(ev.id, 1, ev.tags[1]), "p", user);
  }

  lemma MarkAlternates(marks: seq<Mark>, m: Mark, before: bool)
    requires Alternating(marks, before)
    requires (m == Joined ==> !Inside(marks, before)) && (m == Left ==> Inside(marks, before))
    ensures Alternating(marks + [m], before) && (Inside(marks + [m], before) <==> m in {Joined, Put})
  {
    var out := marks + [m];
    forall i | 0 <= i < |out| ensures
        (out[i] == Joined ==> !Inside(out[..i], before)) && (out[i] == Left ==> Inside(out[..i], before)) {
      assert out[..i] == marks[..i];
      assert marks[..|marks|] == marks;
    }
  }

  /** Without other put or remove events, joins and leaves strictly alternate. */
  lemma {:induction false} StrictAlternation(marks: seq<Mark>, before: bool, i: nat)
    requires Alternating(marks, before) && i < |marks|
    requires forall j :: 0 <= j < |marks| ==> marks[j] in {Joined, Left}
    ensures marks[i] == if before == (i % 2 == 0) then Left else Joined
  {
    if i > 0 {
      StrictAlternation(marks, before, i - 1);
      assert marks[..i][|marks[..i]| - 1] == marks[i - 1];
    }
  }
}
