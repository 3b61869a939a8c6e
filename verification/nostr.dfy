/**
 NIP-01 events, kinds and filters, and the tag helpers of NIP-29
 (internal/nostr: event.go, kinds.go, filter.go, nip29.go).
 */
module Nostr {
  import opened Base

  const MIN_INT64: int := -0x8000_0000_0000_0000
  const MAX_INT64: int := 0x7fff_ffff_ffff_ffff

  /** Go's int64, the type of created_at, since and until. */
  type Int64 = x: int | MIN_INT64 <= x <= MAX_INT64

  /** Two's complement subtraction of one: the only int64 arithmetic that can wrap here. */
  function Pred64(x: Int64): (r: Int64) {
    if x == MIN_INT64 then MAX_INT64 else x - 1
  }

  type Tag = seq<string>

  datatype Event = Event(
    id: string,
    pubkey: string,
    createdAt: Int64,
    kind: int,
    tags: seq<Tag>,
    content: string,
    sig: string)

  // ---- kinds.go -----------------------------------------------------------------

  datatype KindClass = Regular | Replaceable | Ephemeral | Addressable

  function ClassifyKind(kind: int): KindClass {
    if 20000 <= kind < 30000 then Ephemeral
    else if 30000 <= kind < 40000 then Addressable
    else if kind == 0 || kind == 3 || 10000 <= kind < 20000 then Replaceable
    else Regular
  }

  predicate IsEphemeral(kind: int) { ClassifyKind(kind) == Ephemeral }

  /** The second element of the first "d" tag, or the empty string. */
  function ExtractDTag(tags: seq<Tag>): string {
    if tags == [] then ""
    else if |tags[0]| > 0 && tags[0][0] == "d" then
      if |tags[0]| > 1 then tags[0][1] else ""
    else ExtractDTag(tags[1..])
  }

  /** What identifies the row an event replaces: (pubkey, kind) or (pubkey, kind, d). */
  datatype Slot = Slot(pubkey: string, kind: int, d: string)

  function SlotOf(e: Event): Option<Slot> {
    match ClassifyKind(e.kind)
    case Replaceable => Some(Slot(e.pubkey, e.kind, ""))
    case Addressable => Some(Slot(e.pubkey, e.kind, ExtractDTag(e.tags)))
    case _ => None
  }

  predicate NamedTag(t: Tag, name: string) { |t| > 0 && t[0] == name }

  /** v is the second element of the first "d" tag: empty when that has none, and when there is no such tag. */
  ghost predicate FirstD(tags: seq<Tag>, v: string) {
    || (v == "" && forall i :: 0 <= i < |tags| ==> !NamedTag(tags[i], "d"))
    || (exists i :: 0 <= i < |tags| && NamedTag(tags[i], "d") && v == (if |tags[i]| > 1 then tags[i][1] else "") &&
          forall j :: 0 <= j < i ==> !NamedTag(tags[j], "d"))
  }

  lemma {:induction false} ExtractedIsFirstD(tags: seq<Tag>, v: string)
    ensures FirstD(tags, v) <==> v == ExtractDTag(tags)
  {
    if tags != [] && !NamedTag(tags[0], "d") {
      ExtractedIsFirstD(tags[1..], v);
      if i :| 0 <= i < |tags| && NamedTag(tags[i], "d") && v == (if |tags[i]| > 1 then tags[i][1] else "") &&
              forall j :: 0 <= j < i ==> !NamedTag(tags[j], "d") {
        assert NamedTag(tags[1..][i - 1], "d");
      }
      if i :| 0 <= i < |tags[1..]| && NamedTag(tags[1..][i], "d") &&
              v == (if |tags[1..][i]| > 1 then tags[1..][i][1] else "") &&
              forall j :: 0 <= j < i ==> !NamedTag(tags[1..][j], "d") {
        assert NamedTag(tags[i + 1], "d");
        assert forall j :: 0 < j < i + 1 ==> tags[j] == tags[1..][j - 1];
      }
    }
  }

  // ---- orders used by the queries ------------------------------------------------

  /** ORDER BY created_at DESC, id ASC. */
  predicate Newer(a: Event, b: Event) {
    a.createdAt > b.createdAt || (a.createdAt == b.createdAt && StrLess(a.id, b.id))
  }

  /** ORDER BY created_at ASC, id ASC. */
  predicate Older(a: Event, b: Event) {
    a.createdAt < b.createdAt || (a.createdAt == b.createdAt && StrLess(a.id, b.id))
  }

  /** Later second first, and within a second the bytewise smaller id. */
  lemma NewerByNumbers(a: Event, b: Event)
    ensures Newer(a, b) <==> a.createdAt > b.createdAt || (a.createdAt == b.createdAt && BytesBefore(a.id, b.id))
    ensures Older(a, b) <==> a.createdAt < b.createdAt || (a.createdAt == b.createdAt && BytesBefore(a.id, b.id))
  {
    StrLessIsBytewise(a.id, b.id);
  }

  ghost predicate DistinctIds(evs: seq<Event>) {
    forall i, j :: 0 <= i < j < |evs| ==> evs[i].id != evs[j].id
  }

  function Ids(evs: seq<Event>): set<string> { set e | e in evs :: e.id }

  lemma OrdersAreStrict()
    ensures StrictOrder(Newer) && StrictOrder(Older)
  {
    forall a: string ensures !StrLess(a, a) { StrLessIrreflexive(a); }
    forall a: string, b: string, c: string | StrLess(a, b) && StrLess(b, c) ensures StrLess(a, c) {
      StrLessTransitive(a, b, c);
    }
  }

  lemma NewerIsAsymmetric(a: Event, b: Event)
    requires Newer(a, b)
    ensures !Newer(b, a)
  {
    OrdersAreStrict();
    assert Newer(b, a) ==> Newer(a, a);
  }

  lemma DistinctIdsComparable(evs: seq<Event>)
    requires DistinctIds(evs)
    ensures Comparable(evs, Newer) && Comparable(evs, Older)
  {
    forall i, j | 0 <= i < j < |evs| ensures StrLess(evs[i].id, evs[j].id) || StrLess(evs[j].id, evs[i].id) {
      StrLessTotal(evs[i].id, evs[j].id);
    }
  }

  lemma FilterDistinctIds(evs: seq<Event>, p: Event -> bool)
    requires DistinctIds(evs)
    ensures DistinctIds(Filter(evs, p))
  {
    var key := (e: Event) => e.id;
    assert Distinct(evs, key);
    FilterDistinct(evs, p, key);
    assert Distinct(Filter(evs, p), key);
    var r := Filter(evs, p);
    forall i, j | 0 <= i < j < |r| ensures r[i].id != r[j].id {
      assert key(r[i]) != key(r[j]);
    }
  }

  /** Same id, same event: what makes an id an identity. */
  lemma SameIdSameEvent(evs: seq<Event>, a: Event, b: Event)
    requires DistinctIds(evs) && a in evs && b in evs && a.id == b.id
    ensures a == b
  {
    var i :| 0 <= i < |evs| && evs[i] == a;
    var j :| 0 <= j < |evs| && evs[j] == b;
    assert i == j;
  }

  lemma IdTells(evs: seq<Event>, a: Event, b: Event)
    requires DistinctIds(evs) && a in evs && b in evs
    ensures a.id == b.id ==> a == b
  {
    if a.id == b.id { SameIdSameEvent(evs, a, b); }
  }

  // ---- filter.go -----------------------------------------------------------------

  datatype NFilter = NFilter(
    ids: seq<string>,
    authors: seq<string>,
    kinds: seq<int>,
    since: Option<Int64>,
    until: Option<Int64>,
    limit: Option<int>,
    search: Option<string>,
    tag: map<string, seq<string>>)

  /** unicode.IsSpace, the class strings.TrimSpace removes. */
  predicate IsSpace(c: char) {
    || c in {'\t', '\n', '\U{0B}', '\U{0C}', '\r', ' ', '\U{85}', '\U{A0}', '\U{1680}'}
    || '\U{2000}' <= c <= '\U{200A}'
    || c in {'\U{2028}', '\U{2029}', '\U{202F}', '\U{205F}', '\U{3000}'}
  }

  function TrimLeft(s: string): (r: string)
    ensures |r| <= |s| && (r == "" || !IsSpace(r[0]))
  {
    if s != "" && IsSpace(s[0]) then TrimLeft(s[1..]) else s
  }

  function TrimRight(s: string): (r: string)
    ensures |r| <= |s| && r <= s && (r == "" || !IsSpace(r[|r| - 1]))
  {
    if s != "" && IsSpace(s[|s| - 1]) then TrimRight(s[..|s| - 1]) else s
  }

  function TrimSpace(s: string): string { TrimRight(TrimLeft(s)) }

  lemma {:induction false} TrimLeftSkips(s: string) returns (i: nat)
    ensures i <= |s| && TrimLeft(s) == s[i..] && (forall k :: 0 <= k < i ==> IsSpace(s[k])) && (i < |s| ==> !IsSpace(s[i]))
  {
    if s != "" && IsSpace(s[0]) {
      i := TrimLeftSkips(s[1..]);
      assert s[1..][i..] == s[i + 1..];
      forall k | 0 <= k < i + 1 ensures IsSpace(s[k]) { assert k > 0 ==> s[1..][k - 1] == s[k]; }
      i := i + 1;
    } else {
      i := 0;
    }
  }

  lemma {:induction false} TrimRightDrops(s: string)
    ensures var n := |TrimRight(s)|;
      TrimRight(s) == s[..n] && (forall k :: n <= k < |s| ==> IsSpace(s[k])) && (n > 0 ==> !IsSpace(s[n - 1]))
  {
    if s != "" && IsSpace(s[|s| - 1]) { TrimRightDrops(s[..|s| - 1]); }
  }

  /** What is cut off at either end is space; what is left begins and ends with something else, or is empty. */
  lemma TrimSpaceCutsSpaces(s: string) returns (i: nat, j: nat)
    ensures i <= j <= |s| && TrimSpace(s) == s[i..j]
    ensures (forall k :: 0 <= k < i || j <= k < |s| ==> IsSpace(s[k])) && (i < j ==> !IsSpace(s[i]) && !IsSpace(s[j - 1]))
  {
    i := TrimLeftSkips(s);
    TrimRightDrops(s[i..]);
    j := i + |TrimRight(s[i..])|;
    assert s[i..][..j - i] == s[i..j];
    forall k | j <= k < |s| ensures IsSpace(s[k]) { assert s[i..][k - i] == s[k]; }
  }

  lemma TrimSpaceIdempotent(s: string)
    ensures TrimSpace(TrimSpace(s)) == TrimSpace(s)
  {
    var t := TrimSpace(s);
    if t != "" {
      assert t[0] == TrimLeft(s)[0];
    }
  }

  function SearchText(f: NFilter): string {
    TrimSpace(if f.search.Some? then f.search.value else "")
  }

  predicate HasSearch(f: NFilter) { SearchText(f) != "" }

  function WithoutSearch(f: NFilter): NFilter { f.(search := None) }

  /** The keys UnmarshalJSON accepts: '#' and one further character. */
  predicate Parsed(tag: map<string, seq<string>>) { forall k :: k in tag ==> |k| == 2 && k[0] == '#' }

  /** What the SQL translation demands: it takes a character off each key with values, and panics on an empty one. */
  predicate Readable(f: NFilter) { "" in f.tag ==> f.tag[""] == [] }

  predicate TagHit(t: Tag, name: string, want: seq<string>) {
    |t| >= 2 && t[0] == name && t[1] in want
  }

  function TrimHash(key: string): string {
    if key != "" && key[0] == '#' then key[1..] else key
  }

  /** NIP-01: the event meets every condition the filter sets. */
  predicate Accepts(f: NFilter, e: Event) {
    && !HasSearch(f)
    && (f.ids == [] || e.id in f.ids)
    && (f.authors == [] || e.pubkey in f.authors)
    && (f.kinds == [] || e.kind in f.kinds)
    && (f.since.Some? ==> f.since.value <= e.createdAt)
    && (f.until.Some? ==> e.createdAt <= f.until.value)
    && (forall k :: k in f.tag ==> exists i :: 0 <= i < |e.tags| && TagHit(e.tags[i], TrimHash(k), f.tag[k]))
  }

  /** Filters no event can meet, for want of a value or of a moment. */
  predicate Impossible(f: NFilter) {
    || (exists k :: k in f.tag && f.tag[k] == [])
    || (f.since.Some? && f.until.Some? && f.since.value > f.until.value)
  }

  /** One tag for each of these keys, in some order. */
  ghost function Chosen(pick: map<string, Tag>, keys: set<string>): seq<Tag>
    requires keys <= pick.Keys
    decreases keys
  {
    if keys == {} then []
    else
      var k :| k in keys;
      [pick[k]] + Chosen(pick, keys - {k})
  }

  lemma {:induction false} ChosenFor(pick: map<string, Tag>, keys: set<string>, k: string) returns (i: nat)
    requires keys <= pick.Keys && k in keys
    ensures i < |Chosen(pick, keys)| && Chosen(pick, keys)[i] == pick[k]
    decreases keys
  {
    var first :| first in keys && Chosen(pick, keys) == [pick[first]] + Chosen(pick, keys - {first});
    if k == first {
      i := 0;
    } else {
      i := ChosenFor(pick, keys - {first}, k);
      i := i + 1;
    }
  }

  lemma {:induction false} ChosenFrom(pick: map<string, Tag>, keys: set<string>, i: nat) returns (k: string)
    requires keys <= pick.Keys && i < |Chosen(pick, keys)|
    ensures k in keys && Chosen(pick, keys)[i] == pick[k]
    decreases keys
  {
    var first :| first in keys && Chosen(pick, keys) == [pick[first]] + Chosen(pick, keys - {first});
    if i == 0 {
      k := first;
    } else {
      k := ChosenFrom(pick, keys - {first}, i - 1);
    }
  }

  /** An event that meets all conditions of the filter but those on tags. */
  function Sample(f: NFilter, kind: int, tags: seq<Tag>): Event {
    Event(
      if f.ids == [] then "" else f.ids[0],
      if f.authors == [] then "" else f.authors[0],
      if f.since.Some? then f.since.value else if f.until.Some? then f.until.value else 0,
      kind, tags, "", "")
  }

  /** The tag a key asks for, with its first value. */
  function Wanted(f: NFilter): map<string, Tag>
    requires !Impossible(f)
  {
    map k | k in f.tag :: [TrimHash(k), f.tag[k][0]]
  }

  /** Every other filter has an event of each of its kinds. */
  lemma PossibleIsMet(f: NFilter, kind: int) returns (e: Event)
    requires !HasSearch(f) && !Impossible(f) && (f.kinds == [] || kind in f.kinds)
    ensures Accepts(f, e) && e.kind == kind
  {
    e := Sample(f, kind, Chosen(Wanted(f), f.tag.Keys));
    forall k | k in f.tag ensures exists i :: 0 <= i < |e.tags| && TagHit(e.tags[i], TrimHash(k), f.tag[k]) {
      var i := ChosenFor(Wanted(f), f.tag.Keys, k);
      assert TagHit(e.tags[i], TrimHash(k), f.tag[k]);
    }
  }

  method EventTagMatches(tags: seq<Tag>, name: string, wantVals: seq<string>) returns (r: bool)
    ensures r <==> exists i :: 0 <= i < |tags| && TagHit(tags[i], name, wantVals)
  {
    var want: set<string> := {};
    for i := 0 to |wantVals|
      invariant forall v :: v in want <==> v in wantVals[..i]
    {
      want := want + {wantVals[i]};
    }
    assert wantVals[..|wantVals|] == wantVals;
    for i := 0 to |tags|
      invariant forall j :: 0 <= j < i ==> !TagHit(tags[j], name, wantVals)
    {
      var t := tags[i];
      if |t| == 0 { continue; }
      if t[0] != name { continue; }
      if |t| < 2 { continue; }
      if t[1] in want { return true; }
    }
    return false;
  }

  method Contains<T(==)>(s: seq<T>, x: T) returns (ok: bool)
    ensures ok <==> x in s
  {
    ok := false;
    for i := 0 to |s|
      invariant x !in s[..i]
    {
      if s[i] == x { return true; }
    }
    assert s[..|s|] == s;
  }

  /** Filter.Matches: the map of tag conditions is visited in no particular order. */
  method Matches(f: NFilter, e: Event) returns (r: bool)
    ensures r <==> Accepts(f, e)
  {
    if HasSearch(f) { return false; }
    if |f.ids| > 0 {
      var ok := Contains(f.ids, e.id);
      if !ok { return false; }
    }
    if |f.authors| > 0 {
      var ok := Contains(f.authors, e.pubkey);
      if !ok { return false; }
    }
    if |f.kinds| > 0 {
      var ok := Contains(f.kinds, e.kind);
      if !ok { return false; }
    }
    if f.since.Some? && e.createdAt < f.since.value { return false; }
    if f.until.Some? && e.createdAt > f.until.value { return false; }
    var keys := f.tag.Keys;
    while keys != {}
      invariant keys <= f.tag.Keys
      invariant forall k :: k in f.tag && k !in keys ==>
        exists i :: 0 <= i < |e.tags| && TagHit(e.tags[i], TrimHash(k), f.tag[k])
      decreases keys
    {
      var key :| key in keys;
      if |f.tag[key]| == 0 { return false; }
      var hit := EventTagMatches(e.tags, TrimHash(key), f.tag[key]);
      if !hit { return false; }
      keys := keys - {key};
    }
    return true;
  }

  /** filtersMatch: a list of filters is a disjunction. */
  predicate AcceptsAny(fs: seq<NFilter>, e: Event) {
    exists i :: 0 <= i < |fs| && Accepts(fs[i], e)
  }

  // ---- nip29.go ------------------------------------------------------------------

  const KIND_PUT_USER := 9000
  const KIND_REMOVE_USER := 9001
  const KIND_JOIN := 9021
  const KIND_LEAVE := 9022
  const KIND_GROUP_METADATA := 39000

  /** The first "h" tag with a non-empty value, or the empty string. */
  function GroupHTag(tags: seq<Tag>): string {
    if tags == [] then ""
    else if |tags[0]| >= 2 && tags[0][0] == "h" && tags[0][1] != "" then tags[0][1]
    else GroupHTag(tags[1..])
  }

  /** v is the second element of the first "h" tag in which that is not empty; empty when there is no such tag. */
  ghost predicate FirstH(tags: seq<Tag>, v: string) {
    || (v == "" && forall i :: 0 <= i < |tags| ==> !NamesGroup(tags[i]))
    || (exists i :: 0 <= i < |tags| && NamesGroup(tags[i]) && v == tags[i][1] &&
          forall j :: 0 <= j < i ==> !NamesGroup(tags[j]))
  }

  predicate NamesGroup(t: Tag) { |t| >= 2 && t[0] == "h" && t[1] != "" }

  lemma {:induction false} GroupIsFirstH(tags: seq<Tag>, v: string)
    ensures FirstH(tags, v) <==> v == GroupHTag(tags)
  {
    if tags != [] && !NamesGroup(tags[0]) {
      GroupIsFirstH(tags[1..], v);
      if i :| 0 <= i < |tags| && NamesGroup(tags[i]) && v == tags[i][1] && forall j :: 0 <= j < i ==> !NamesGroup(tags[j]) {
        assert NamesGroup(tags[1..][i - 1]);
      }
      if i :| 0 <= i < |tags[1..]| && NamesGroup(tags[1..][i]) && v == tags[1..][i][1] &&
              forall j :: 0 <= j < i ==> !NamesGroup(tags[1..][j]) {
        assert NamesGroup(tags[i + 1]);
        assert forall j :: 0 < j < i + 1 ==> tags[j] == tags[1..][j - 1];
      }
    }
  }

  predicate HasBareTag(tags: seq<Tag>, name: string) {
    name != "" && exists i :: 0 <= i < |tags| && |tags[i]| > 0 && tags[i][0] == name
  }

  predicate MetadataSays(md: Option<Event>, flag: string) {
    md.Some? && md.value.kind == KIND_GROUP_METADATA && HasBareTag(md.value.tags, flag)
  }
}
