/**
 CountFilterSubQuery and CountEvents: SQL text with '?' placeholders and a separate flat list
 of arguments, bound by position across a UNION (internal/storage/count_filter.go,
 internal/storage/sqlevent/store.go).
 */
module CountQuery {
  import opened Base
  import opened Nostr
  import opened EventTables
  import opened EventHistory
  import opened EventQuery

  datatype Column = ColId | ColPubkey | ColKind

  /** A condition as written in the text; n counts the placeholders of an IN list. */
  datatype Clause =
    | In(col: Column, n: nat)
    | CreatedAtLeast
    | CreatedAtMost
    | TagSubselect(n: nat)
    | False

  datatype Arg = Text(s: string) | Number(n: int)

  function Holes(c: Clause): nat {
    match c
    case In(_, n) => n
    case CreatedAtLeast => 1
    case CreatedAtMost => 1
    case TagSubselect(n) => 1 + n
    case False => 0
  }

  function TotalHoles(cs: seq<Clause>): nat {
    if cs == [] then 0 else Holes(cs[0]) + TotalHoles(cs[1..])
  }

  function Cell(r: EventRow, col: Column): Arg {
    match col
    case ColId => Text(r.id)
    case ColPubkey => Text(r.pubkey)
    case ColKind => Number(r.kind)
  }

  predicate EvalClause(c: Clause, args: seq<Arg>, r: EventRow, tags: seq<TagRow>)
    requires |args| == Holes(c)
  {
    match c
    case In(col, _) => Cell(r, col) in args
    case CreatedAtLeast => args[0].Number? && r.createdAt >= args[0].n
    case CreatedAtMost => args[0].Number? && r.createdAt <= args[0].n
    case TagSubselect(_) =>
      exists x :: x in tags && x.eventId == r.id && Text(x.name) == args[0] && Text(x.value) in args[1..]
    case False => false
  }

  /** Each clause takes the next Holes(c) arguments. */
  predicate EvalAll(cs: seq<Clause>, args: seq<Arg>, r: EventRow, tags: seq<TagRow>)
    requires |args| == TotalHoles(cs)
  {
    cs == [] ||
    (EvalClause(cs[0], args[..Holes(cs[0])], r, tags) && EvalAll(cs[1..], args[Holes(cs[0])..], r, tags))
  }

  lemma {:induction false} EvalAppend(cs: seq<Clause>, args: seq<Arg>, c: Clause, extra: seq<Arg>, r: EventRow,
                                      tags: seq<TagRow>)
    requires |args| == TotalHoles(cs) && |extra| == Holes(c)
    ensures TotalHoles(cs + [c]) == TotalHoles(cs) + Holes(c)
    ensures EvalAll(cs + [c], args + extra, r, tags) <==> EvalAll(cs, args, r, tags) && EvalClause(c, extra, r, tags)
  {
    if cs == [] {
      assert cs + [c] == [c] && [c][1..] == [];
      assert args + extra == extra && extra[..Holes(c)] == extra;
    } else {
      var h := Holes(cs[0]);
      assert (cs + [c])[1..] == cs[1..] + [c];
      assert (args + extra)[..h] == args[..h] && (args + extra)[h..] == args[h..] + extra;
      EvalAppend(cs[1..], args[h..], c, extra, r, tags);
    }
  }

  /** The statement under construction: text and arguments grow together (addWhere). */
  datatype Where = Where(clauses: seq<Clause>, args: seq<Arg>)

  ghost predicate Bound(w: Where) { |w.args| == TotalHoles(w.clauses) }

  ghost predicate Means(w: Where, r: EventRow, tags: seq<TagRow>)
    requires Bound(w)
  {
    EvalAll(w.clauses, w.args, r, tags)
  }

  method AddWhere(w: Where, c: Clause, extra: seq<Arg>) returns (w': Where)
    requires Bound(w) && |extra| == Holes(c)
    ensures Bound(w')
    ensures forall r, tags :: Means(w', r, tags) <==> Means(w, r, tags) && EvalClause(c, extra, r, tags)
  {
    w' := Where(w.clauses + [c], w.args + extra);
    forall r, tags
      ensures Bound(w') && (Means(w', r, tags) <==> Means(w, r, tags) && EvalClause(c, extra, r, tags))
    {
      EvalAppend(w.clauses, w.args, c, extra, r, tags);
    }
    assert Bound(w') by {
      EvalAppend(w.clauses, w.args, c, extra, EventRow("", "", 0, 0, "", "", ""), []);
    }
  }

  function Texts(vals: seq<string>): (a: seq<Arg>)
    ensures |a| == |vals| && forall s :: Text(s) in a <==> s in vals
  {
    var a := Map(vals, (s: string) => Text(s));
    assert forall s :: s in vals ==> Text(s) in a by {
      forall s | s in vals ensures Text(s) in a {
        var i :| 0 <= i < |vals| && vals[i] == s;
        assert a[i] == Text(s);
      }
    }
    a
  }

  function Numbers(vals: seq<int>): (a: seq<Arg>)
    ensures |a| == |vals| && forall n :: Number(n) in a <==> n in vals
  {
    var a := Map(vals, (n: int) => Number(n));
    assert forall n :: n in vals ==> Number(n) in a by {
      forall n | n in vals ensures Number(n) in a {
        var i :| 0 <= i < |vals| && vals[i] == n;
        assert a[i] == Number(n);
      }
    }
    a
  }

  method ColumnWhere(f: NFilter) returns (w: Where)
    ensures Bound(w) && forall r, tags :: Means(w, r, tags) <==> RowColumnsMatch(f, r)
  {
    w := Where([], []);
    if |f.ids| > 0 { w := AddWhere(w, In(ColId, |f.ids|), Texts(f.ids)); }
    if |f.authors| > 0 { w := AddWhere(w, In(ColPubkey, |f.authors|), Texts(f.authors)); }
    if |f.kinds| > 0 { w := AddWhere(w, In(ColKind, |f.kinds|), Numbers(f.kinds)); }
    if f.since.Some? { w := AddWhere(w, CreatedAtLeast, [Number(f.since.value)]); }
    if f.until.Some? { w := AddWhere(w, CreatedAtMost, [Number(f.until.value)]); }
  }

  /**
   The subquery of one filter, or None when it only carries search text. Unlike the SELECT
   builder it keeps adding clauses after an empty tag list.
   */
  method CountFilterSubQuery(f: NFilter) returns (q: Option<Where>)
    requires HasSearch(f) || Readable(f)
    ensures q.None? <==> HasSearch(f)
    ensures q.Some? ==> Bound(q.value) && forall r, tags :: Means(q.value, r, tags) <==> RowMatches(f, r, tags)
  {
    if HasSearch(f) { return None; }
    var w := ColumnWhere(f);
    var keys := f.tag.Keys;
    while keys != {}
      invariant keys <= f.tag.Keys && Bound(w)
      invariant forall r, tags :: Means(w, r, tags) <==>
        RowColumnsMatch(f, r) && forall k :: k in f.tag && k !in keys ==> RowTagMatch(k, f.tag[k], r, tags)
      decreases keys
    {
      var key :| key in keys;
      var vals := f.tag[key];
      if |vals| == 0 {
        w := AddWhere(w, False, []);
      } else {
        var name := key[1..];
        var extra := [Text(name)] + Texts(vals);
        assert extra[1..] == Texts(vals);
        w := AddWhere(w, TagSubselect(|vals|), extra);
        assert forall r, tags :: EvalClause(TagSubselect(|vals|), extra, r, tags) <==> RowTagMatch(key, vals, r, tags);
      }
      keys := keys - {key};
    }
    return Some(w);
  }

  // ---- UNION over the filters --------------------------------------------------------

  function UnionHoles(subs: seq<seq<Clause>>): nat {
    if subs == [] then 0 else TotalHoles(subs[0]) + UnionHoles(subs[1..])
  }

  /** A row is in the UNION when some subquery, given its slice of the arguments, selects it. */
  predicate EvalUnion(subs: seq<seq<Clause>>, args: seq<Arg>, r: EventRow, tags: seq<TagRow>)
    requires |args| == UnionHoles(subs)
  {
    subs != [] &&
    (EvalAll(subs[0], args[..TotalHoles(subs[0])], r, tags) ||
     EvalUnion(subs[1..], args[TotalHoles(subs[0])..], r, tags))
  }

  lemma {:induction false} UnionAppend(subs: seq<seq<Clause>>, args: seq<Arg>, w: Where, r: EventRow, tags: seq<TagRow>)
    requires |args| == UnionHoles(subs) && Bound(w)
    ensures UnionHoles(subs + [w.clauses]) == |args + w.args|
    ensures EvalUnion(subs + [w.clauses], args + w.args, r, tags) <==> EvalUnion(subs, args, r, tags) || Means(w, r, tags)
  {
    var all := subs + [w.clauses];
    if subs == [] {
      assert all[1..] == [];
      assert args + w.args == w.args && w.args[..TotalHoles(w.clauses)] == w.args;
    } else {
      var h := TotalHoles(subs[0]);
      assert all[1..] == subs[1..] + [w.clauses];
      assert (args + w.args)[..h] == args[..h] && (args + w.args)[h..] == args[h..] + w.args;
      UnionAppend(subs[1..], args[h..], w, r, tags);
    }
  }

  predicate RowMatchesSome(fs: seq<NFilter>, r: EventRow, tags: seq<TagRow>) {
    exists i :: 0 <= i < |fs| && !HasSearch(fs[i]) && RowMatches(fs[i], r, tags)
  }

  method BuildUnion(fs: seq<NFilter>) returns (subs: seq<seq<Clause>>, allArgs: seq<Arg>)
    requires forall i :: 0 <= i < |fs| ==> HasSearch(fs[i]) || Readable(fs[i])
    ensures |allArgs| == UnionHoles(subs)
    ensures forall r, tags :: EvalUnion(subs, allArgs, r, tags) <==> RowMatchesSome(fs, r, tags)
  {
    subs, allArgs := [], [];
    for i := 0 to |fs|
      invariant |allArgs| == UnionHoles(subs)
      invariant forall r, tags :: EvalUnion(subs, allArgs, r, tags) <==> RowMatchesSome(fs[..i], r, tags)
    {
      var q := CountFilterSubQuery(fs[i]);
      forall r, tags ensures RowMatchesSome(fs[..i + 1], r, tags) <==>
        RowMatchesSome(fs[..i], r, tags) || (!HasSearch(fs[i]) && RowMatches(fs[i], r, tags))
      {
        PrefixRows(fs, i, r, tags);
      }
      if q.None? { continue; }
      UnionAppend(subs, allArgs, q.value, EventRow("", "", 0, 0, "", "", ""), []);
      forall r, tags
        ensures EvalUnion(subs + [q.value.clauses], allArgs + q.value.args, r, tags) <==>
          EvalUnion(subs, allArgs, r, tags) || Means(q.value, r, tags)
      {
        UnionAppend(subs, allArgs, q.value, r, tags);
      }
      subs, allArgs := subs + [q.value.clauses], allArgs + q.value.args;
    }
    assert fs[..|fs|] == fs;
  }

  lemma PrefixRows(fs: seq<NFilter>, i: nat, r: EventRow, tags: seq<TagRow>)
    requires i < |fs|
    ensures RowMatchesSome(fs[..i + 1], r, tags) <==>
      RowMatchesSome(fs[..i], r, tags) || (!HasSearch(fs[i]) && RowMatches(fs[i], r, tags))
  {
    assert forall j :: 0 <= j < i ==> fs[..i + 1][j] == fs[..i][j];
    assert fs[..i + 1][i] == fs[i];
  }

  /** SELECT COUNT(*) over the distinct ids. */
  method CountEvents(t: Tables, filters: seq<NFilter>) returns (count: nat)
    requires forall i :: 0 <= i < |filters| ==> HasSearch(filters[i]) || Readable(filters[i])
    ensures filters == [] ==> count == |t.events|
    ensures filters != [] ==> count == |set r | r in t.events && RowMatchesSome(filters, r, t.tags) :: r.id|
  {
    if |filters| == 0 { return |t.events|; }
    var subs, args := BuildUnion(filters);
    if |subs| == 0 {
      assert forall r :: r in t.events ==> !EvalUnion(subs, args, r, t.tags);
      assert (set r | r in t.events && RowMatchesSome(filters, r, t.tags) :: r.id) == {};
      return 0;
    }
    var ids := set r | r in t.events && EvalUnion(subs, args, r, t.tags) :: r.id;
    assert ids == set r | r in t.events && RowMatchesSome(filters, r, t.tags) :: r.id;
    return |ids|;
  }

  // ---- counting is the length of the unlimited query --------------------------------------

  lemma {:induction false} DistinctIdsCount(evs: seq<Event>)
    requires DistinctIds(evs)
    ensures |Ids(evs)| == |evs|
  {
    if evs != [] {
      DistinctIdsCount(evs[1..]);
      assert evs[0].id !in Ids(evs[1..]);
      assert Ids(evs) == {evs[0].id} + Ids(evs[1..]);
    }
  }

  lemma SortedIsDistinct(evs: seq<Event>, log: seq<Event>)
    requires DistinctIds(log) && Sorted(evs, Newer) && forall e :: e in evs ==> e in log
    ensures DistinctIds(evs)
  {
    OrdersAreStrict();
    forall i, j | 0 <= i < j < |evs| ensures evs[i].id != evs[j].id {
      if evs[i].id == evs[j].id { SameIdSameEvent(log, evs[i], evs[j]); }
    }
  }

  /** The rows the count sees are the events QueryEvents returns when no limit applies. */
  lemma CountIsQueryLength(log: seq<Event>, fs: seq<NFilter>)
    requires DistinctIds(log) && forall i :: 0 <= i < |fs| ==> SqlLimit(fs[i]).None?
    ensures |set r | r in Image(log).events && RowMatchesSome(fs, r, Image(log).tags) :: r.id| == |Query(log, fs)|
  {
    var t := Image(log);
    var counted := set r | r in t.events && RowMatchesSome(fs, r, t.tags) :: r.id;
    var found := Query(log, fs);
    QuerySorted(log, fs);
    forall e | e in log ensures RowMatchesSome(fs, ToRow(e), t.tags) <==> e in found {
      QueryIsUnion(log, fs, e);
      forall i | 0 <= i < |fs| ensures RowMatches(fs[i], ToRow(e), t.tags) <==> StoredAccepts(fs[i], e) {
        RowMatchesOwnTags(log, fs[i], e);
      }
    }
    forall e | e in found ensures e in log { QueryIsUnion(log, fs, e); }
    forall id ensures id in counted <==> id in Ids(found) {
      if id in counted {
        var r :| r in t.events && RowMatchesSome(fs, r, t.tags) && r.id == id;
        RowsMembers(log, r);
      }
      if id in Ids(found) {
        var e :| e in found && e.id == id;
        RowsMembers(log, ToRow(e));
      }
    }
    assert counted == Ids(found);
    SortedIsDistinct(found, log);
    DistinctIdsCount(found);
  }
}
