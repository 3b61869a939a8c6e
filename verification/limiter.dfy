/**
 Sliding-window rate limits (internal/relay/limiter.go). Times are readings of Go's monotonic clock
 taken under the window's lock, so they never decrease.
 */
module Limiter {
  import opened Base

  /** One accepted request: when, and how much it weighs. */
  datatype Entry = Entry(t: int, n: int)

  /** What was accepted in the closed interval from lo to hi. */
  function Weight(h: seq<Entry>, lo: int, hi: int): int {
    if h == [] then 0
    else Weight(h[..|h| - 1], lo, hi) + if lo <= h[|h| - 1].t <= hi then h[|h| - 1].n else 0
  }

  /** The request fits: with it, the window that ends now holds at most max. */
  predicate Fits(h: seq<Entry>, window: int, max: int, e: Entry) {
    Weight(h, e.t - window, e.t) + e.n <= max
  }

  predicate Until(h: seq<Entry>, t: int) { h == [] || h[|h| - 1].t <= t }

  /** A history in which each request was accepted because it fitted. */
  predicate Fair(h: seq<Entry>, window: int, max: int) {
    h == [] ||
    var p, last := h[..|h| - 1], h[|h| - 1];
    Fair(p, window, max) && Until(p, last.t) && last.n > 0 && Fits(p, window, max, last)
  }

  lemma FairNext(h: seq<Entry>, window: int, max: int, e: Entry)
    requires Fair(h, window, max) && Until(h, e.t) && e.n > 0 && Fits(h, window, max, e)
    ensures Fair(h + [e], window, max) && Until(h + [e], e.t)
  {
    assert (h + [e])[..|h|] == h;
  }

  lemma {:induction false} EarlierIsLighter(h: seq<Entry>, window: int, max: int, lo: int, hi: int, lo': int, hi': int)
    requires Fair(h, window, max) && Until(h, hi) && lo <= lo'
    ensures Weight(h, lo', hi') <= Weight(h, lo, hi)
  {
    if h != [] { EarlierIsLighter(h[..|h| - 1], window, max, lo, hi, lo', hi'); }
  }

  /** Wherever a closed interval of the window's length is laid, it holds at most max. */
  lemma {:induction false} EveryWindowHolds(h: seq<Entry>, window: int, max: int, a: int)
    requires Fair(h, window, max) && max >= 0
    ensures Weight(h, a, a + window) <= max
  {
    if h != [] {
      var p, last := h[..|h| - 1], h[|h| - 1];
      if a <= last.t <= a + window {
        EarlierIsLighter(p, window, max, last.t - window, last.t, a, a + window);
      } else {
        EveryWindowHolds(p, window, max, a);
      }
    }
  }

  // ---- what a window remembers --------------------------------------------------------------------

  function Since(lo: int): Entry -> bool { (e: Entry) => e.t >= lo }

  function Recent(h: seq<Entry>, lo: int): seq<Entry> { Filter(h, Since(lo)) }

  function Total(h: seq<Entry>): int {
    if h == [] then 0 else Total(h[..|h| - 1]) + h[|h| - 1].n
  }

  predicate NotLater(a: Entry, b: Entry) { a.t <= b.t }

  lemma {:induction false} FairSorted(h: seq<Entry>, window: int, max: int)
    requires Fair(h, window, max)
    ensures Sorted(h, NotLater)
  {
    if h != [] {
      var n := |h| - 1;
      FairSorted(h[..n], window, max);
      forall i | 0 <= i < n ensures h[i].t <= h[n].t {
        assert h[..n][i].t <= h[..n][n - 1].t || i == n - 1;
      }
      forall i, j | 0 <= i < j < |h| ensures NotLater(h[i], h[j]) {
        if j < n { assert NotLater(h[..n][i], h[..n][j]); }
      }
    }
  }

  /** Dropping the entries older than the later bound from the front leaves exactly the recent ones. */
  lemma FrontIsOld(h: seq<Entry>, window: int, max: int, lo: int, lo': int, i: nat)
    requires Fair(h, window, max) && lo <= lo' && i <= |Recent(h, lo)|
    requires forall j :: 0 <= j < i ==> Recent(h, lo)[j].t < lo'
    requires i < |Recent(h, lo)| ==> Recent(h, lo)[i].t >= lo'
    ensures Recent(h, lo)[i..] == Recent(h, lo')
  {
    var k := Recent(h, lo);
    FairSorted(h, window, max);
    FilterSorted(h, Since(lo), NotLater);
    forall j | i <= j < |k| ensures Since(lo')(k[j]) {
      assert j == i || NotLater(k[i], k[j]);
    }
    FilterSplit(k, Since(lo'), i);
    FilterAbsorb(h, Since(lo), Since(lo'));
  }

  lemma TotalNext(h: seq<Entry>, e: Entry)
    ensures Total(h + [e]) == Total(h) + e.n
  {
    assert (h + [e])[..|h|] == h;
  }

  lemma RecentNext(h: seq<Entry>, e: Entry, lo: int)
    ensures Recent(h + [e], lo) == Recent(h, lo) + if e.t >= lo then [e] else []
  {
    FilterAppend(h, [e], Since(lo));
  }

  /** The window weighs what it remembers. */
  lemma {:induction false} WindowIsRecent(h: seq<Entry>, window: int, max: int, lo: int, hi: int)
    requires Fair(h, window, max) && Until(h, hi)
    ensures Weight(h, lo, hi) == Total(Recent(h, lo))
  {
    if h != [] {
      var p, last := h[..|h| - 1], h[|h| - 1];
      WindowIsRecent(p, window, max, lo, hi);
      assert h == p + [last];
      RecentNext(p, last, lo);
      if last.t >= lo {
        TotalNext(Recent(p, lo), last);
      } else {
        assert Recent(p, lo) + [] == Recent(p, lo);
      }
    }
  }

  function Ones(stamps: seq<int>): (r: seq<Entry>)
    ensures |r| == |stamps| && forall i :: 0 <= i < |r| ==> r[i] == Entry(stamps[i], 1)
  {
    seq(|stamps|, i requires 0 <= i < |stamps| => Entry(stamps[i], 1))
  }

  lemma {:induction false} TotalOfOnes(stamps: seq<int>)
    ensures Total(Ones(stamps)) == |stamps|
  {
    if stamps != [] {
      var n := |stamps| - 1;
      assert Ones(stamps)[..n] == Ones(stamps[..n]);
      TotalOfOnes(stamps[..n]);
    }
  }

  // ---- the two windows ------------------------------------------------------------------------------

  lemma RoomIff(stamps: seq<int>, accepted: seq<Entry>, window: int, max: int, t: int)
    requires Fair(accepted, window, max) && Until(accepted, t) && Ones(stamps) == Recent(accepted, t - window)
    ensures Fits(accepted, window, max, Entry(t, 1)) <==> |stamps| < max
  {
    WindowIsRecent(accepted, window, max, t - window, t);
    TotalOfOnes(stamps);
  }

  lemma OneMore(stamps: seq<int>, accepted: seq<Entry>, t: int, lo: int)
    requires Ones(stamps) == Recent(accepted, lo) && t >= lo
    ensures Ones(stamps + [t]) == Recent(accepted + [Entry(t, 1)], lo)
  {
    RecentNext(accepted, Entry(t, 1), lo);
    assert Ones(stamps + [t]) == Ones(stamps) + [Entry(t, 1)];
  }

  class SlidingEvents {
    const window: int
    const max: int
    var stamps: seq<int>
    ghost var accepted: seq<Entry>
    ghost var now: int

    ghost predicate Valid()
      reads this
    {
      && window >= 0 && Fair(accepted, window, max) && Until(accepted, now)
      && Ones(stamps) == Recent(accepted, now - window)
    }

    constructor (window: int, max: int, ghost start: int)
      requires window >= 0
      ensures Valid() && this.window == window && this.max == max && accepted == [] && now == start
    {
      this.window, this.max, stamps, accepted, now := window, max, [], [], start;
    }

    /** Drops the stamps that have left the window ending at t. */
    method Prune(t: int)
      requires Valid() && t >= now
      modifies this`stamps, this`now
      ensures Valid() && now == t
    {
      var i := 0;
      while i < |stamps| && stamps[i] < t - window
        invariant 0 <= i <= |stamps|
        invariant forall j :: 0 <= j < i ==> Ones(stamps)[j].t < t - window
      {
        i := i + 1;
      }
      FrontIsOld(accepted, window, max, now - window, t - window, i);
      assert Ones(stamps)[i..] == Ones(stamps[i..]);
      now, stamps := t, stamps[i..];
    }

    /** Accepted exactly when the closed window that ends now has room for one more. */
    method Allow(t: int) returns (ok: bool)
      requires Valid() && t >= now
      modifies this
      ensures Valid() && now == t
      ensures ok <==> Fits(old(accepted), window, max, Entry(t, 1))
      ensures accepted == if ok then old(accepted) + [Entry(t, 1)] else old(accepted)
    {
      Prune(t);
      RoomIff(stamps, accepted, window, max, t);
      if |stamps| >= max { return false; }
      FairNext(accepted, window, max, Entry(t, 1));
      OneMore(stamps, accepted, t, t - window);
      stamps, accepted := stamps + [t], accepted + [Entry(t, 1)];
      return true;
    }
  }

  class ByteWindow {
    const window: int
    const maxBytes: int
    var entries: seq<Entry>
    ghost var accepted: seq<Entry>
    ghost var now: int

    ghost predicate Valid()
      reads this
    {
      && window >= 0 && Fair(accepted, window, maxBytes) && Until(accepted, now)
      && entries == Recent(accepted, now - window)
    }

    constructor (window: int, maxBytes: int, ghost start: int)
      requires window >= 0
      ensures Valid() && this.window == window && this.maxBytes == maxBytes && accepted == [] && now == start
    {
      this.window, this.maxBytes, entries, accepted, now := window, maxBytes, [], [], start;
    }

    method Prune(t: int)
      requires Valid() && t >= now
      modifies this`entries, this`now
      ensures Valid() && now == t
    {
      var i := 0;
      while i < |entries| && entries[i].t < t - window
        invariant 0 <= i <= |entries|
        invariant forall j :: 0 <= j < i ==> entries[j].t < t - window
      {
        i := i + 1;
      }
      FrontIsOld(accepted, window, maxBytes, now - window, t - window, i);
      now, entries := t, entries[i..];
    }

    /** A message without bytes passes and is not remembered; any other exactly when its bytes fit. */
    method Allow(n: int, t: int) returns (ok: bool)
      requires Valid() && t >= now
      modifies this
      ensures Valid()
      ensures n <= 0 ==> ok && accepted == old(accepted)
      ensures n > 0 ==> (ok <==> Fits(old(accepted), window, maxBytes, Entry(t, n))) && now == t
      ensures n > 0 ==> accepted == if ok then old(accepted) + [Entry(t, n)] else old(accepted)
    {
      if n <= 0 { return true; }
      Prune(t);
      WindowIsRecent(accepted, window, maxBytes, t - window, t);
      var sum := SumAll(entries);
      if sum + n > maxBytes { return false; }
      FairNext(accepted, window, maxBytes, Entry(t, n));
      RecentNext(accepted, Entry(t, n), t - window);
      entries, accepted := entries + [Entry(t, n)], accepted + [Entry(t, n)];
      return true;
    }
  }

  method SumAll(entries: seq<Entry>) returns (sum: int)
    ensures sum == Total(entries)
  {
    sum := 0;
    for i := 0 to |entries|
      invariant sum == Total(entries[..i])
    {
      assert entries[..i + 1] == entries[..i] + [entries[i]];
      TotalNext(entries[..i], entries[i]);
      sum := sum + entries[i].n;
    }
    assert entries[..|entries|] == entries;
  }
}
