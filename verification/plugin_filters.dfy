/**
 Filters across the plugin boundary: relay form, SDK form, wire form and back (internal/plugin/convert.go,
 internal/plugin/instance.go, sdk/plugin/wire.go). Maps are visited in no particular order.
 */
module PluginFilters {
  import opened Base
  import opened Nostr

  datatype SdkFilter = SdkFilter(
    ids: seq<string>, authors: seq<string>, kinds: seq<int>, since: Option<Int64>, until: Option<Int64>,
    limit: Option<int>, search: string, tags: map<string, seq<string>>)

  datatype TagFilter = TagFilter(name: string, values: seq<string>)

  /** The protobuf message; its kinds and limit are 32 bits wide. */
  datatype WireFilter = WireFilter(
    ids: seq<string>, authors: seq<string>, kinds: seq<int>, since: Option<Int64>, until: Option<Int64>,
    limit: Option<int>, search: string, tagFilters: seq<TagFilter>)

  const TWO_32 := 0x1_0000_0000

  /** Go's int32 conversion: the low 32 bits, signed. */
  function Int32(x: int): (r: int)
    ensures -0x8000_0000 <= r < 0x8000_0000
    ensures (x - r) % TWO_32 == 0
    ensures r == x <==> FitsInt32(x)
  {
    var low := x % TWO_32;
    if low < 0x8000_0000 then low else low - TWO_32
  }

  predicate FitsInt32(x: int) { -0x8000_0000 <= x < 0x8000_0000 }

  function Int32s(s: seq<int>): (r: seq<int>)
    ensures |r| == |s| && forall i :: 0 <= i < |r| ==> r[i] == Int32(s[i])
  {
    seq(|s|, i requires 0 <= i < |s| => Int32(s[i]))
  }

  function Limit32(limit: Option<int>): Option<int> { if limit.Some? then Some(Int32(limit.value)) else None }

  /** stringsTrimHash. */
  function BareName(key: string): string { if |key| == 2 && key[0] == '#' then key[1..] else key }

  /** The key sdkFilterToNostr gives a name. */
  function HashedKey(name: string): string { if |name| == 1 then "#" + name else name }

  /** On the keys a parsed filter has, the two are inverse to each other. */
  lemma KeysRoundTrip(key: string)
    requires |key| == 2 && key[0] == '#'
    ensures |BareName(key)| == 1 && HashedKey(BareName(key)) == key
  {
    assert key == "#" + key[1..];
  }

  // ---- the relay's form and the SDK's form --------------------------------------------------------

  /** Same conditions under bare names. */
  predicate SameTags(tag: map<string, seq<string>>, tags: map<string, seq<string>>) {
    && (forall k :: k in tag ==> BareName(k) in tags && tags[BareName(k)] == tag[k])
    && (forall n :: n in tags ==> HashedKey(n) in tag && tag[HashedKey(n)] == tags[n])
  }

  method NostrFilterToSdk(f: NFilter) returns (s: SdkFilter)
    ensures s.(tags := map[]) == SdkFilter(f.ids, f.authors, f.kinds, f.since, f.until, f.limit, SearchText(f), map[])
    ensures Parsed(f.tag) ==> SameTags(f.tag, s.tags)
  {
    var tags, left := map[], f.tag.Keys;
    while left != {}
      invariant left <= f.tag.Keys
      invariant Parsed(f.tag) ==> SameTags(f.tag - left, tags)
      decreases left
    {
      var k :| k in left;
      if Parsed(f.tag) { AddSameTag(f.tag, left, tags, k); }
      left, tags := left - {k}, tags[BareName(k) := f.tag[k]];
    }
    assert f.tag - {} == f.tag;
    s := SdkFilter(f.ids, f.authors, f.kinds, f.since, f.until, f.limit, SearchText(f), tags);
  }

  lemma AddSameTag(tag: map<string, seq<string>>, left: set<string>, tags: map<string, seq<string>>, k: string)
    requires k in left && left <= tag.Keys && SameTags(tag - left, tags)
    requires Parsed(tag)
    ensures SameTags(tag - (left - {k}), tags[BareName(k) := tag[k]])
  {
    forall j | j in tag ensures HashedKey(BareName(j)) == j { KeysRoundTrip(j); }
    KeysRoundTrip(k);
  }

  /** Part of a tag map, holding at least the keys of the names not in left. */
  predicate Restored(out: map<string, seq<string>>, tag: map<string, seq<string>>, names: set<string>,
                     left: set<string>, key: string -> string) {
    && (forall k :: k in out ==> k in tag && out[k] == tag[k])
    && (forall n :: n in names && n !in left ==> key(n) in out)
  }

  lemma RestoredNext(out: map<string, seq<string>>, tag: map<string, seq<string>>, tags: map<string, seq<string>>,
                     left: set<string>, n: string, key: string -> string)
    requires n in left && n in tags && key(n) in tag && tag[key(n)] == tags[n]
    requires Restored(out, tag, tags.Keys, left, key)
    ensures Restored(out[key(n) := tags[n]], tag, tags.Keys, left - {n}, key)
  {}

  lemma RestoredAll(out: map<string, seq<string>>, tag: map<string, seq<string>>, names: set<string>,
                    key: string -> string)
    requires Restored(out, tag, names, {}, key) && forall k :: k in tag ==> exists n :: n in names && key(n) == k
    ensures out == tag
  {
    forall k | k in tag ensures k in out {
      var n :| n in names && key(n) == k;
    }
  }

  lemma NamesReachKeys(tag: map<string, seq<string>>, tags: map<string, seq<string>>)
    requires Parsed(tag) && SameTags(tag, tags)
    ensures forall k :: k in tag ==> exists n :: n in tags.Keys && HashedKey(n) == k
  {
    forall k | k in tag ensures exists n :: n in tags.Keys && HashedKey(n) == k {
      KeysRoundTrip(k);
      assert BareName(k) in tags.Keys;
    }
  }

  method HashKeys(tags: map<string, seq<string>>, ghost tag: map<string, seq<string>>)
    returns (out: map<string, seq<string>>)
    ensures Parsed(tag) && SameTags(tag, tags) ==> out == tag
  {
    out := map[];
    var left := tags.Keys;
    ghost var meant := Parsed(tag) && SameTags(tag, tags);
    while left != {}
      invariant left <= tags.Keys && (meant ==> Restored(out, tag, tags.Keys, left, HashedKey))
      decreases left
    {
      var n :| n in left;
      if meant { RestoredNext(out, tag, tags, left, n, HashedKey); }
      left, out := left - {n}, out[HashedKey(n) := tags[n]];
    }
    if meant {
      NamesReachKeys(tag, tags);
      RestoredAll(out, tag, tags.Keys, HashedKey);
    }
  }

  /** When the names are those of a parsed filter's tag map, that map comes back. */
  method SdkFilterToNostr(s: SdkFilter, ghost tag: map<string, seq<string>>) returns (f: NFilter)
    ensures f.(tag := map[]) ==
      NFilter(s.ids, s.authors, s.kinds, s.since, s.until, s.limit, if s.search != "" then Some(s.search) else None, map[])
    ensures Parsed(tag) && SameTags(tag, s.tags) ==> f.tag == tag
  {
    var out := HashKeys(s.tags, tag);
    f := NFilter(s.ids, s.authors, s.kinds, s.since, s.until, s.limit,
                 if s.search != "" then Some(s.search) else None, out);
  }

  // ---- the wire -------------------------------------------------------------------------------------

  predicate Named(tfs: seq<TagFilter>, n: string) { exists i :: 0 <= i < |tfs| && tfs[i].name == n }

  /** One entry per name, in some order. */
  predicate Lists(tfs: seq<TagFilter>, tags: map<string, seq<string>>) {
    && (forall i :: 0 <= i < |tfs| ==> tfs[i].name in tags && tags[tfs[i].name] == tfs[i].values)
    && (forall n :: n in tags ==> Named(tfs, n))
  }

  lemma ListNext(tfs: seq<TagFilter>, tags: map<string, seq<string>>, left: set<string>, n: string)
    requires n in left && left <= tags.Keys && Lists(tfs, tags - left)
    ensures Lists(tfs + [TagFilter(n, tags[n])], tags - (left - {n}))
  {
    var more := tfs + [TagFilter(n, tags[n])];
    assert more[|tfs|].name == n;
    forall m | m in tags - (left - {n}) ensures Named(more, m) {
      if m != n {
        assert m in tags - left && Named(tfs, m);
        var i :| 0 <= i < |tfs| && tfs[i].name == m;
        assert more[i].name == m;
      }
    }
  }

  /** filterToV1 on the relay and filterToProto in the SDK: the same mapping. */
  method FilterToWire(s: SdkFilter) returns (w: WireFilter)
    ensures w.(tagFilters := []) ==
      WireFilter(s.ids, s.authors, Int32s(s.kinds), s.since, s.until, Limit32(s.limit), s.search, [])
    ensures Lists(w.tagFilters, s.tags)
  {
    var kinds := [];
    for i := 0 to |s.kinds|
      invariant |kinds| == i && forall j :: 0 <= j < i ==> kinds[j] == Int32(s.kinds[j])
    {
      kinds := kinds + [Int32(s.kinds[i])];
    }
    var tfs: seq<TagFilter> := [];
    var left := s.tags.Keys;
    while left != {}
      invariant left <= s.tags.Keys && Lists(tfs, s.tags - left)
      decreases left
    {
      var n :| n in left;
      ListNext(tfs, s.tags, left, n);
      tfs, left := tfs + [TagFilter(n, s.tags[n])], left - {n};
    }
    assert s.tags - {} == s.tags;
    w := WireFilter(s.ids, s.authors, kinds, s.since, s.until, Limit32(s.limit), s.search, tfs);
  }

  /** filtersFromV1 on the relay, and filterFromProto in the SDK, which skips empty names. */
  method FilterFromWire(w: WireFilter, skipEmptyNames: bool, ghost tags: map<string, seq<string>>)
    returns (s: SdkFilter)
    ensures s.(tags := map[]) == SdkFilter(w.ids, w.authors, w.kinds, w.since, w.until, w.limit, w.search, map[])
    ensures Lists(w.tagFilters, tags) && !(skipEmptyNames && "" in tags) ==> s.tags == tags
  {
    var out: map<string, seq<string>> := map[];
    ghost var meant := Lists(w.tagFilters, tags) && !(skipEmptyNames && "" in tags);
    for i := 0 to |w.tagFilters|
      invariant meant ==> forall n :: n in out ==> n in tags && out[n] == tags[n]
      invariant meant ==> forall j :: 0 <= j < i ==> w.tagFilters[j].name in out
    {
      var tf := w.tagFilters[i];
      if skipEmptyNames && tf.name == "" { continue; }
      out := out[tf.name := tf.values];
    }
    if meant {
      forall n | n in tags ensures n in out { assert Named(w.tagFilters, n); }
    }
    s := SdkFilter(w.ids, w.authors, w.kinds, w.since, w.until, w.limit, w.search, out);
  }

  // ---- there and back -------------------------------------------------------------------------------

  /** What comes back: the search trimmed or dropped, kinds and limit cut to 32 bits, everything else as it was. */
  function Returned(f: NFilter): NFilter {
    f.(kinds := Int32s(f.kinds), limit := Limit32(f.limit), search := TrimmedSearch(f))
  }

  function TrimmedSearch(f: NFilter): Option<string> { if HasSearch(f) then Some(SearchText(f)) else None }

  method ToPlugin(f: NFilter) returns (seen: SdkFilter)
    ensures Parsed(f.tag) ==>
      seen.(tags := map[]) ==
        SdkFilter(f.ids, f.authors, Int32s(f.kinds), f.since, f.until, Limit32(f.limit), SearchText(f), map[])
    ensures Parsed(f.tag) ==> SameTags(f.tag, seen.tags)
  {
    var sent := NostrFilterToSdk(f);
    var wire := FilterToWire(sent);
    seen := FilterFromWire(wire, true, sent.tags);
    if Parsed(f.tag) { NoEmptyName(f.tag, sent.tags); }
  }

  lemma NoEmptyName(tag: map<string, seq<string>>, tags: map<string, seq<string>>)
    requires Parsed(tag) && SameTags(tag, tags)
    ensures "" !in tags
  {
    assert HashedKey("") == "";
  }

  /** Relay to plugin and, unchanged by the plugin, back. */
  method ThroughPlugin(f: NFilter) returns (g: NFilter)
    ensures Parsed(f.tag) ==> g == Returned(f)
  {
    var seen := ToPlugin(f);
    var wire := FilterToWire(seen);
    var got := FilterFromWire(wire, false, seen.tags);
    g := SdkFilterToNostr(got, f.tag);
    Int32sTwice(f.kinds);
  }

  lemma Int32sTwice(s: seq<int>)
    ensures Int32s(Int32s(s)) == Int32s(s)
  {}

  /** cloneFilters: only the search text is normalised. */
  method CloneFilters(fs: seq<NFilter>) returns (out: seq<NFilter>)
    ensures |out| == |fs|
    ensures forall i :: 0 <= i < |fs| && Parsed(fs[i].tag) ==> out[i] == fs[i].(search := TrimmedSearch(fs[i]))
  {
    out := [];
    for i := 0 to |fs|
      invariant |out| == i
      invariant forall j :: 0 <= j < i && Parsed(fs[j].tag) ==> out[j] == fs[j].(search := TrimmedSearch(fs[j]))
    {
      var s := NostrFilterToSdk(fs[i]);
      var f := SdkFilterToNostr(s, fs[i].tag);
      out := out + [f];
    }
  }

  predicate KindsFit(f: NFilter) { forall k :: k in f.kinds ==> FitsInt32(k) }

  lemma FittingKindsReturn(f: NFilter)
    ensures KindsFit(f) <==> Int32s(f.kinds) == f.kinds
  {
    if Int32s(f.kinds) == f.kinds {
      forall i | 0 <= i < |f.kinds| ensures FitsInt32(f.kinds[i]) { assert Int32s(f.kinds)[i] == f.kinds[i]; }
    }
  }

  /** The search, and a limit that fits, are the same afterwards. */
  lemma SearchAndLimitSurvive(f: NFilter)
    ensures HasSearch(Returned(f)) == HasSearch(f) && SearchText(Returned(f)) == SearchText(f)
    ensures f.limit.Some? ==> (Returned(f).limit == f.limit <==> FitsInt32(f.limit.value))
  {
    TrimSpaceIdempotent(if f.search.Some? then f.search.value else "");
  }

  /** It accepts the same events before and after. */
  ghost predicate SameMeaning(f: NFilter) { forall e :: Accepts(Returned(f), e) <==> Accepts(f, e) }

  lemma FittingKindsMeanTheSame(f: NFilter)
    requires KindsFit(f)
    ensures SameMeaning(f)
  {
    FittingKindsReturn(f);
    SearchAndLimitSurvive(f);
  }

  lemma ImpossibleMeansTheSame(f: NFilter)
    requires HasSearch(f) || Impossible(f)
    ensures SameMeaning(f)
  {
    SearchAndLimitSurvive(f);
    forall e ensures !Accepts(f, e) && !Accepts(Returned(f), e) {
      if k :| k in f.tag && f.tag[k] == [] {
        assert forall i :: 0 <= i < |e.tags| ==> !TagHit(e.tags[i], TrimHash(k), f.tag[k]);
      }
    }
  }

  /** No returned filter asks for a kind beyond 32 bits, so an event of such a kind is accepted before and not after. */
  lemma WideKindIsLost(f: NFilter)
    requires !KindsFit(f) && !HasSearch(f) && !Impossible(f)
    ensures !SameMeaning(f)
  {
    var wide :| wide in f.kinds && !FitsInt32(wide);
    var e := PossibleIsMet(f, wide);
    forall k | k in Int32s(f.kinds) ensures k != wide {
      var i :| 0 <= i < |f.kinds| && Int32s(f.kinds)[i] == k;
    }
    assert |Int32s(f.kinds)| > 0 && !Accepts(Returned(f), e);
  }

  /** A filter means the same to every event after the trip exactly when its kinds fit, or it accepts none. */
  lemma MeaningSurvivesIff(f: NFilter)
    ensures SameMeaning(f) <==> KindsFit(f) || HasSearch(f) || Impossible(f)
  {
    if KindsFit(f) {
      FittingKindsMeanTheSame(f);
    } else if HasSearch(f) || Impossible(f) {
      ImpossibleMeansTheSame(f);
    } else {
      WideKindIsLost(f);
    }
  }

  /** A kind beyond 32 bits comes back as another kind, and the filter accepts events it did not. */
  lemma WideKindChangesMeaning(f: NFilter, e: Event)
    requires f.kinds == [e.kind + TWO_32] && FitsInt32(e.kind) && Accepts(f.(kinds := []), e)
    ensures !Accepts(f, e) && Accepts(Returned(f), e)
  {
    assert Int32(e.kind + TWO_32) == e.kind;
    assert Returned(f).kinds == [e.kind];
  }
}
