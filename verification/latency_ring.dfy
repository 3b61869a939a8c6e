/** The ring of recent REQ query latencies (internal/relay/metrics.go). */
module LatencyRing {

  datatype Sample = Sample(unixMs: int, ms: int)

  /** The newest n samples, oldest first. */
  function Newest(all: seq<Sample>, n: nat): (r: seq<Sample>)
    ensures |r| == if n < |all| then n else |all|
    ensures forall i :: 0 <= i < |r| ==> r[i] == all[|all| - |r| + i]
  {
    if n < |all| then all[|all| - n..] else all
  }

  /** The slot of the j-th oldest sample: j places on from head, around the end. */
  function Slot(head: nat, j: nat, cap: nat): (i: nat)
    requires head < cap && j <= cap
    ensures i < cap
  {
    if head + j < cap then head + j else head + j - cap
  }

  /** The source's remainder is that slot. */
  method SlotOf(head: nat, j: nat, cap: nat) returns (i: nat)
    requires head < cap && j <= cap
    ensures i == Slot(head, j, cap)
  {
    i := (head + j) % cap;
    RemainderOnce(head + j, cap);
  }

  lemma RemainderOnce(x: nat, cap: nat)
    requires 0 < cap && x < 2 * cap
    ensures x % cap == if x < cap then x else x - cap
  {
    if x >= cap {
      assert x / cap == 1;
    }
  }

  /** The j-th oldest sample of a ring with these buffers. */
  function Read(u: seq<int>, q: seq<int>, head: nat, j: nat): Sample
    requires |u| == |q| && head < |u| && j < |u|
  {
    Sample(u[Slot(head, j, |u|)], q[Slot(head, j, |u|)])
  }

  /** Writing behind the newest sample leaves the others where they are. */
  lemma AppendReads(u: seq<int>, q: seq<int>, head: nat, count: nat, s: Sample)
    requires |u| == |q| && head < |u| && count < |u|
    ensures var pos := Slot(head, count, |u|); var u', q' := u[pos := s.unixMs], q[pos := s.ms];
      Read(u', q', head, count) == s && forall j :: 0 <= j < count ==> Read(u', q', head, j) == Read(u, q, head, j)
  {}

  /** Overwriting the oldest sample and moving the head makes it the newest. */
  lemma OverwriteReads(u: seq<int>, q: seq<int>, head: nat, s: Sample)
    requires |u| == |q| && head < |u|
    ensures var u', q', head' := u[head := s.unixMs], q[head := s.ms], Slot(head, 1, |u|);
      Read(u', q', head', |u| - 1) == s &&
      forall j :: 0 <= j < |u| - 1 ==> Read(u', q', head', j) == Read(u, q, head, j + 1)
  {}

  lemma NewestNext(all: seq<Sample>, s: Sample, n: nat)
    requires n > 0
    ensures Newest(all + [s], n) == (if |all| < n then Newest(all, n) else Newest(all, n)[1..]) + [s]
  {}

  /** The buffers hold the newest samples, oldest first from head; none is missing while there is room. */
  predicate Holds(u: seq<int>, q: seq<int>, head: nat, count: nat, all: seq<Sample>) {
    && |u| == |q| && head < |u| && count == |Newest(all, |u|)|
    && forall j :: 0 <= j < count ==> Read(u, q, head, j) == Newest(all, |u|)[j]
  }

  lemma AppendHolds(u: seq<int>, q: seq<int>, head: nat, count: nat, all: seq<Sample>, s: Sample)
    requires Holds(u, q, head, count, all) && count < |u|
    ensures var pos := Slot(head, count, |u|); Holds(u[pos := s.unixMs], q[pos := s.ms], head, count + 1, all + [s])
  {
    AppendReads(u, q, head, count, s);
    NewestNext(all, s, |u|);
  }

  lemma OverwriteHolds(u: seq<int>, q: seq<int>, head: nat, count: nat, all: seq<Sample>, s: Sample)
    requires Holds(u, q, head, count, all) && count == |u|
    ensures Holds(u[head := s.unixMs], q[head := s.ms], Slot(head, 1, |u|), count, all + [s])
  {
    OverwriteReads(u, q, head, s);
    NewestNext(all, s, |u|);
  }

  class Ring {
    const unixMs: array<int>
    const queryMs: array<int>
    var head: nat
    var count: nat
    ghost var all: seq<Sample>

    function Cap(): nat { unixMs.Length }

    ghost predicate Valid()
      reads this, unixMs, queryMs
    {
      unixMs != queryMs && Holds(unixMs[..], queryMs[..], head, count, all)
    }

    constructor (cap: nat)
      requires cap > 0
      ensures Valid() && Cap() == cap && all == [] && fresh(unixMs) && fresh(queryMs)
    {
      unixMs, queryMs := new int[cap], new int[cap];
      head, count, all := 0, 0, [];
    }

    /** RecordQueryLatency: negative durations count as zero; a full ring loses its oldest sample. */
    method Record(d: int, now: int)
      requires Valid()
      modifies this, unixMs, queryMs
      ensures Valid() && all == old(all) + [Sample(now, if d < 0 then 0 else d)]
    {
      var ms := if d < 0 then 0 else d;
      if count < Cap() {
        Append(now, ms);
        return;
      }
      Overwrite(now, ms);
    }

    method Append(now: int, ms: int)
      requires Valid() && count < Cap()
      modifies this, unixMs, queryMs
      ensures Valid() && all == old(all) + [Sample(now, ms)]
    {
      ghost var s, u, q := Sample(now, ms), unixMs[..], queryMs[..];
      var pos := SlotOf(head, count, Cap());
      AppendHolds(u, q, head, count, all, s);
      unixMs[pos], queryMs[pos] := now, ms;
      assert unixMs[..] == u[pos := now] && queryMs[..] == q[pos := ms];
      count, all := count + 1, all + [s];
    }

    method Overwrite(now: int, ms: int)
      requires Valid() && count == Cap()
      modifies this, unixMs, queryMs
      ensures Valid() && all == old(all) + [Sample(now, ms)]
    {
      ghost var s, u, q := Sample(now, ms), unixMs[..], queryMs[..];
      OverwriteHolds(u, q, head, count, all, s);
      unixMs[head], queryMs[head] := now, ms;
      assert unixMs[..] == u[head := now] && queryMs[..] == q[head := ms];
      head := SlotOf(head, 1, Cap());
      all := all + [s];
    }

    /** RecentLatencySamples: exactly the newest samples that fit, oldest first. */
    method Recent() returns (out: seq<Sample>)
      requires Valid()
      ensures out == Newest(all, Cap())
    {
      out := [];
      ghost var want := Newest(all, Cap());
      for j := 0 to count
        invariant |out| == j && forall k :: 0 <= k < j ==> out[k] == want[k]
      {
        var i := SlotOf(head, j, Cap());
        assert Read(unixMs[..], queryMs[..], head, j) == want[j];
        assert unixMs[..][i] == unixMs[i] && queryMs[..][i] == queryMs[i];
        out := out + [Sample(unixMs[i], queryMs[i])];
      }
    }
  }
}
