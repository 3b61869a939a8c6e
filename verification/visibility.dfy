/**
 Which events a connection may read: private NIP-29 groups are for authenticated members
 (internal/relay/nip29.go, internal/relay/nip42.go, internal/storage/sqlevent/store.go).
 */
module Visibility {
  import opened Base
  import opened Nostr
  import opened EventTables
  import opened Membership
  import opened Nip29
  import EventHistory

  const KIND_GIFT_WRAP := 1059

  /** nip17, nip29: the standards enabled; identity: the relay has a key of its own, relay. */
  datatype Policy = Policy(nip17: bool, nip29: bool, identity: bool, relay: string)

  /** The connection's authenticated pubkeys only ever grow. */
  class AuthState {
    var pubkeys: set<string>

    constructor ()
      ensures pubkeys == {}
    {
      pubkeys := {};
    }

    method AddPubkey(pk: string)
      modifies this
      ensures pubkeys == old(pubkeys) + {pk}
    {
      pubkeys := pubkeys + {pk};
    }

    /** nip42AuthedPubkeys: each once, in no particular order. */
    method AuthedPubkeys() returns (out: seq<string>)
      ensures forall pk :: pk in out <==> pk in pubkeys
      ensures |out| == |pubkeys|
    {
      out := [];
      var left := pubkeys;
      while left != {}
        invariant left <= pubkeys && |out| == |pubkeys| - |left|
        invariant forall pk :: pk in out <==> pk in pubkeys && pk !in left
        decreases left
      {
        var pk :| pk in left;
        left, out := left - {pk}, out + [pk];
      }
    }
  }

  /** The group's latest metadata says it is private. */
  ghost predicate Private(log: seq<Event>, relay: string, group: string) { MetadataHas(log, relay, group, "private") }

  ghost predicate SomeMember(log: seq<Event>, relay: string, group: string, authed: set<string>) {
    exists pk :: pk in authed && Member(log, Pair(relay, group, pk))
  }

  /** What a connection's reads depend on: the store's log, and the pubkeys it has authenticated. */
  datatype Moment = Moment(log: seq<Event>, connected: bool, authed: set<string>)

  /** The rule for groups: in a private group, only with an authenticated pubkey that is a member. */
  ghost predicate MayRead(p: Policy, w: Moment, ev: Event) {
    var h := GroupHTag(ev.tags);
    p.nip29 && p.identity && h != "" && Private(w.log, p.relay, h) ==> SomeMember(w.log, p.relay, h, w.authed)
  }

  predicate HexPubkey(s: string) {
    |s| == 64 && forall i :: 0 <= i < 64 ==> '0' <= s[i] <= '9' || 'a' <= s[i] <= 'f' || 'A' <= s[i] <= 'F'
  }

  /** A "p" tag that names a recipient of a gift wrap. */
  predicate RecipientTag(t: Tag) { |t| >= 2 && t[0] == "p" && HexPubkey(TrimSpace(t[1])) }

  /** The key, in lower case, of some recipient. */
  predicate RecipientKey(ev: Event, key: string) {
    exists i :: 0 <= i < |ev.tags| && RecipientTag(ev.tags[i]) && Lower(TrimSpace(ev.tags[i][1])) == key
  }

  /** The rule for gift wraps: one of the recipients is authenticated, whatever the case of the letters. */
  predicate ToRecipient(authed: set<string>, ev: Event) { exists pk :: pk in authed && RecipientKey(ev, Lower(pk)) }

  predicate IsGiftWrap(p: Policy, ev: Event) { p.nip17 && ev.kind == KIND_GIFT_WRAP }

  /** What EventVisibleToSubscription decides when no lookup fails and nothing changes meanwhile. */
  ghost predicate Sees(p: Policy, w: Moment, ev: Event) {
    if IsGiftWrap(p, ev) then w.connected && ToRecipient(w.authed, ev)
    else MayRead(p, w, ev) && (w.connected || !PrivateFor(p, w.log, ev))
  }

  /** The event belongs to a group that is private by this log. */
  ghost predicate PrivateFor(p: Policy, log: seq<Event>, ev: Event) {
    p.nip29 && p.identity && GroupHTag(ev.tags) != "" && Private(log, p.relay, GroupHTag(ev.tags))
  }

  predicate RowFor(r: EventRow, relay: string, group: string) {
    r.pubkey == relay && r.kind == KIND_GROUP_METADATA && r.dTag == group
  }

  /** GetLatestGroupMetadata39000; fault is a database failure. */
  method LatestMetadata(t: Tables, relay: string, group: string, fault: bool, ghost log: seq<Event>)
    returns (r: Result<Option<Event>, ()>)
    requires t == Image(log) && WellKept(log)
    ensures r.Err? <==> fault
    ensures r.Ok? ==> IsMetadata(log, relay, group, r.value)
    ensures r.Ok? ==> (Private(log, relay, group) <==> MetadataSays(r.value, "private"))
  {
    if fault { return Err(()); }
    if log != [] { RowsAt(log, 0); }
    for i := 0 to |t.events|
      invariant |t.events| == |log|
      invariant forall j :: 0 <= j < i ==> !MetadataRow(log[j], relay, group)
    {
      RowsAt(log, i);
      if RowFor(t.events[i], relay, group) {
        RebuildIsOwn(log, log[i]);
        OneMetadata(log, relay, group, log[i], "private");
        return Ok(Some(EventHistory.Rebuild(t, t.events[i])));
      }
    }
    return Ok(None);
  }

  lemma RebuildIsOwn(log: seq<Event>, e: Event)
    requires DistinctIds(log) && e in log
    ensures EventHistory.Rebuild(Image(log), ToRow(e)) == e
  {
    EventHistory.RebuildIsIdentity(log, e);
  }

  predicate KeyIn(out: seq<string>, key: string) { exists i :: 0 <= i < |out| && Lower(out[i]) == key }

  predicate DistinctKeys(out: seq<string>) { forall i, j :: 0 <= i < j < |out| ==> Lower(out[i]) != Lower(out[j]) }

  lemma KeysNext(out: seq<string>, pk: string, seen: set<string>)
    requires (forall key :: KeyIn(out, key) <==> key in seen) && DistinctKeys(out) && Lower(pk) !in seen
    ensures (forall key :: KeyIn(out + [pk], key) <==> key in seen + {Lower(pk)}) && DistinctKeys(out + [pk])
  {
    var more := out + [pk];
    forall key ensures KeyIn(more, key) <==> key in seen + {Lower(pk)} {
      if KeyIn(out, key) {
        var i :| 0 <= i < |out| && Lower(out[i]) == key;
        assert more[i] == out[i];
      }
      assert more[|out|] == pk;
    }
    forall i | 0 <= i < |out| ensures Lower(more[i]) != Lower(pk) {
      assert KeyIn(out, Lower(out[i]));
    }
  }

  predicate TagKeyIn(t: Tag, seen: set<string>) { RecipientTag(t) ==> Lower(TrimSpace(t[1])) in seen }

  /** nip17GiftWrapRecipientPubkeys: each recipient once, up to the case of its letters. */
  method Recipients(ev: Event) returns (out: seq<string>)
    ensures forall key :: KeyIn(out, key) <==> RecipientKey(ev, key)
    ensures DistinctKeys(out)
  {
    out := [];
    var seen: set<string> := {};
    for i := 0 to |ev.tags|
      invariant (forall key :: KeyIn(out, key) <==> key in seen) && DistinctKeys(out)
      invariant forall key :: key in seen ==> RecipientKey(ev, key)
      invariant forall j :: 0 <= j < i ==> TagKeyIn(ev.tags[j], seen)
    {
      var t := ev.tags[i];
      if |t| < 2 || t[0] != "p" { continue; }
      var pk := TrimSpace(t[1]);
      if !HexPubkey(pk) { continue; }
      if Lower(pk) in seen { continue; }
      KeysNext(out, pk, seen);
      seen, out := seen + {Lower(pk)}, out + [pk];
    }
  }

  method AmongKeys(recipients: seq<string>, pk: string) returns (hit: bool)
    ensures hit <==> KeyIn(recipients, Lower(pk))
  {
    for j := 0 to |recipients|
      invariant forall k :: 0 <= k < j ==> Lower(recipients[k]) != Lower(pk)
    {
      if Lower(pk) == Lower(recipients[j]) { return true; }
    }
    return false;
  }

  /** nip17GiftWrapVisibleToSubscription. */
  method GiftWrapVisible(connected: bool, auth: AuthState, ev: Event) returns (visible: bool)
    ensures visible <==> connected && ToRecipient(auth.pubkeys, ev)
  {
    var recipients := Recipients(ev);
    if |recipients| == 0 {
      assert forall key :: !KeyIn(recipients, key);
      return false;
    }
    if !connected { return false; }
    var authed := auth.AuthedPubkeys();
    for i := 0 to |authed|
      invariant forall k :: 0 <= k < i ==> !KeyIn(recipients, Lower(authed[k]))
    {
      var hit := AmongKeys(recipients, authed[i]);
      if hit {
        assert authed[i] in auth.pubkeys;
        return true;
      }
    }
    return false;
  }

  /** The moments of one check, in order: the store and the connection may change between its lookups. */
  ghost predicate InOrder(world: nat -> Moment) {
    && (forall i :: WellKept(world(i).log))
    && (forall i, j :: i <= j ==> world(i).authed <= world(j).authed)
  }

  /** By moment n the metadata said private, and no authenticated pubkey was found to be a member. */
  ghost predicate Refused(p: Policy, world: nat -> Moment, n: nat, ev: Event) {
    exists a: nat, b: nat :: a <= b <= n && PrivateFor(p, world(a).log, ev) &&
      (!world(b).connected ||
       forall pk :: pk in world(b).authed ==> NotMemberWithin(p, world, b, n, GroupHTag(ev.tags), pk))
  }

  ghost predicate NotMemberWithin(p: Policy, world: nat -> Moment, b: nat, n: nat, group: string, pk: string) {
    exists k: nat :: b <= k <= n && !Member(world(k).log, Pair(p.relay, group, pk))
  }

  lemma RefusedHere(p: Policy, world: nat -> Moment, a: nat, b: nat, n: nat, ev: Event)
    requires a <= b <= n && PrivateFor(p, world(a).log, ev)
    requires !world(b).connected ||
      forall pk :: pk in world(b).authed ==> NotMemberWithin(p, world, b, n, GroupHTag(ev.tags), pk)
    ensures Refused(p, world, n, ev)
  {}

  ghost predicate NoneOf(p: Policy, world: nat -> Moment, b: nat, n: nat, group: string, pks: seq<string>) {
    forall j :: 0 <= j < |pks| ==> NotMemberWithin(p, world, b, n, group, pks[j])
  }

  lemma NoneNext(p: Policy, world: nat -> Moment, b: nat, n: nat, group: string, pks: seq<string>, pk: string)
    requires NoneOf(p, world, b, n, group, pks) && b <= n + 1 && !Member(world(n + 1).log, Pair(p.relay, group, pk))
    ensures NoneOf(p, world, b, n + 1, group, pks + [pk])
  {
    forall j | 0 <= j < |pks| ensures NotMemberWithin(p, world, b, n + 1, group, pks[j]) {
      assert NotMemberWithin(p, world, b, n, group, pks[j]);
      var k: nat :| b <= k <= n && !Member(world(k).log, Pair(p.relay, group, pks[j]));
    }
  }

  method LookUp(p: Policy, w: Moment, group: string, pk: string, fault: bool) returns (member: bool)
    requires WellKept(w.log)
    ensures member <==> !fault && Member(w.log, Pair(p.relay, group, pk))
  {
    if fault { return false; }
    member := IsGroupMember(Image(w.log), Pair(p.relay, group, pk), w.log);
  }

  /** The members of a private group among the authenticated pubkeys, one lookup after the other. */
  method AnyMember(p: Policy, world: nat -> Moment, b: nat, group: string, auth: AuthState, faults: set<nat>)
    returns (found: bool, failed: bool, n: nat)
    requires InOrder(world) && auth.pubkeys == world(b).authed
    ensures n >= b && (faults == {} ==> !failed)
    ensures found ==> SomeMember(world(n).log, p.relay, group, world(n).authed)
    ensures !found && !failed ==> forall pk :: pk in world(b).authed ==> NotMemberWithin(p, world, b, n, group, pk)
  {
    found, failed, n := false, false, b;
    var pks := auth.AuthedPubkeys();
    for i := 0 to |pks|
      invariant n >= b && !found && (faults == {} ==> !failed)
      invariant !failed ==> NoneOf(p, world, b, n, group, pks[..i])
    {
      var fault := i + 1 in faults;
      var member := LookUp(p, world(n + 1), group, pks[i], fault);
      if member {
        assert pks[i] in world(n + 1).authed;
        return true, failed, n + 1;
      }
      if !failed && !fault {
        NoneNext(p, world, b, n, group, pks[..i], pks[i]);
        assert pks[..i + 1] == pks[..i] + [pks[i]];
      }
      failed, n := failed || fault, n + 1;
    }
    assert pks[..|pks|] == pks;
    if !failed {
      forall pk | pk in world(b).authed ensures NotMemberWithin(p, world, b, n, group, pk) { assert pk in pks; }
    }
  }

  /**
   EventVisibleToSubscription, each lookup at a moment of its own. What it shows, the rule allowed at some
   moment of the check; what it hides without a failed lookup, the group's privacy and the memberships it
   found forbade. faults: the lookups that fail, that of the metadata first.
   */
  method EventVisible(p: Policy, world: nat -> Moment, auth: AuthState, ev: Event, faults: set<nat>)
    returns (visible: bool, failed: bool, n: nat)
    requires InOrder(world) && auth.pubkeys == world(1).authed
    ensures faults == {} ==> !failed
    ensures visible && !IsGiftWrap(p, ev) ==> exists k: nat :: k <= n && MayRead(p, world(k), ev)
    ensures visible && IsGiftWrap(p, ev) ==> Sees(p, world(1), ev)
    ensures !visible && !failed && !IsGiftWrap(p, ev) ==> Refused(p, world, n, ev)
    ensures !visible && IsGiftWrap(p, ev) ==> !Sees(p, world(1), ev)
    ensures p.nip17 && ev.kind == 1059 ==> (visible <==> world(1).connected && ToRecipient(auth.pubkeys, ev))
  {
    failed, n := false, 1;
    if p.nip17 && ev.kind == KIND_GIFT_WRAP {
      visible := GiftWrapVisible(world(1).connected, auth, ev);
      return;
    }
    visible := true;
    assert MayRead(p, world(0), ev) <== !PrivateFor(p, world(0).log, ev);
    if !p.nip29 || !p.identity { return; }
    var h := GroupHTag(ev.tags);
    if h == "" { return; }
    var md := LatestMetadata(Image(world(0).log), p.relay, h, 0 in faults, world(0).log);
    if md.Err? { return false, true, n; }
    if !MetadataSays(md.value, "private") { return; }
    if !world(1).connected {
      RefusedHere(p, world, 0, 1, n, ev);
      return false, failed, n;
    }
    visible, failed, n := AnyMember(p, world, 1, h, auth, faults);
    if !visible && !failed { RefusedHere(p, world, 0, 1, n, ev); }
  }

  /** When nothing changes during a check and no lookup fails, it decides exactly the rule. */
  lemma StillWorldDecides(p: Policy, world: nat -> Moment, n: nat, ev: Event)
    requires (forall i :: world(i) == world(0)) && !IsGiftWrap(p, ev)
    ensures (exists k: nat :: k <= n && MayRead(p, world(k), ev)) ==> MayRead(p, world(0), ev)
    ensures Refused(p, world, n, ev) ==> !Sees(p, world(0), ev)
  {
    if Refused(p, world, n, ev) { RefusedForbids(p, world, n, ev); }
  }

  lemma RefusedForbids(p: Policy, world: nat -> Moment, n: nat, ev: Event)
    requires (forall i :: world(i) == world(0)) && !IsGiftWrap(p, ev) && Refused(p, world, n, ev)
    ensures !Sees(p, world(0), ev)
  {
    var w, h := world(0), GroupHTag(ev.tags);
    var a: nat, b: nat :| a <= b <= n && PrivateFor(p, world(a).log, ev) &&
      (!world(b).connected || forall pk :: pk in world(b).authed ==> NotMemberWithin(p, world, b, n, h, pk));
    assert world(a) == w && world(b) == w;
    if w.connected {
      forall pk | pk in w.authed ensures !Member(w.log, Pair(p.relay, h, pk)) {
        assert NotMemberWithin(p, world, b, n, h, pk);
        var k: nat :| b <= k <= n && !Member(world(k).log, Pair(p.relay, h, pk));
        assert world(k) == w;
      }
    }
  }

  /** What was readable stays readable when the connection authenticates another pubkey. */
  lemma MoreAuthReadsMore(p: Policy, fewer: Moment, more: Moment, ev: Event)
    requires fewer.log == more.log && fewer.connected == more.connected && fewer.authed <= more.authed
    requires Sees(p, fewer, ev)
    ensures Sees(p, more, ev)
  {
    if SomeMember(fewer.log, p.relay, GroupHTag(ev.tags), fewer.authed) {
      var pk :| pk in fewer.authed && Member(fewer.log, Pair(p.relay, GroupHTag(ev.tags), pk));
      assert pk in more.authed;
    }
  }
}
