/**
 The schema version ladder (internal/storage/sqlevent/migrations.go). Every statement commits on its
 own, so a run may stop after any of them and a later run starts again from the stored version.
 */
module SchemaLadder {
  import opened Base
  import opened Nostr
  import opened EventTables

  const SCHEMA_VERSION := 7

  /** One statement, or one group of statements that can be repeated without further effect. */
  datatype Stmt =
    | CreateBase | CreateFtsAndTriggers | BackfillFts | CreateMetrics | AddSubsColumn
    | TagIndexes | CreateSessions | DropMetaTables
    | SetVersion(v: int)

  /** The stored version, the tables and columns the ladder touches, and the full-text rows. */
  datatype Schema = Schema(
    version: int, base: bool, triggers: bool, metrics: bool, subsColumn: bool, sessions: bool, tagIndexes: bool,
    fts: seq<FtsRow>)

  function Exec(s: Schema, stmt: Stmt, events: seq<Event>): Schema {
    match stmt
    case CreateBase => s.(base := true)
    case CreateFtsAndTriggers => s.(triggers := true)
    case BackfillFts => s.(fts := s.fts + AllFts(events))
    case CreateMetrics => s.(metrics := true)
    case AddSubsColumn => s.(subsColumn := true)
    case TagIndexes => s.(tagIndexes := true)
    case CreateSessions => s.(sessions := true)
    case DropMetaTables => s.(metrics := false, subsColumn := false, sessions := false)
    case SetVersion(v) => s.(version := v)
  }

  function ExecAll(s: Schema, stmts: seq<Stmt>, events: seq<Event>): Schema {
    if stmts == [] then s else Exec(ExecAll(s, stmts[..|stmts| - 1], events), stmts[|stmts| - 1], events)
  }

  /** One turn of the loop: the statements run at a version. Version 1 goes straight on to 4, setting 3 on the way. */
  function Rung(version: int): seq<Stmt> {
    match version
    case 0 => [CreateBase, CreateFtsAndTriggers, SetVersion(SCHEMA_VERSION)]
    case 1 => [CreateFtsAndTriggers, BackfillFts, CreateMetrics, SetVersion(3), AddSubsColumn, SetVersion(4)]
    case 2 => [CreateMetrics, SetVersion(3), AddSubsColumn, SetVersion(4)]
    case 3 => [AddSubsColumn, SetVersion(4)]
    case 4 => [TagIndexes, SetVersion(5)]
    case 5 => [CreateSessions, SetVersion(6)]
    case 6 => [DropMetaTables, SetVersion(SCHEMA_VERSION)]
    case _ => []
  }

  /** All that is left to run from a version. */
  function Plan(version: int): seq<Stmt>
    decreases if version < 7 then 7 - version else 0
  {
    if version < 0 || version >= SCHEMA_VERSION then []
    else if version == 0 then Rung(0)
    else Rung(version) + Plan(if version < 4 then 4 else version + 1)
  }

  lemma ExecAllAppend(s: Schema, a: seq<Stmt>, b: seq<Stmt>, events: seq<Event>)
    ensures ExecAll(s, a + b, events) == ExecAll(ExecAll(s, a, events), b, events)
  {
    if b == [] {
      assert a + b == a;
    } else {
      assert (a + b)[..|a + b| - 1] == a + b[..|b| - 1];
      ExecAllAppend(s, a, b[..|b| - 1], events);
    }
  }

  class Database {
    const events: seq<Event>
    var schema: Schema

    constructor (events: seq<Event>, schema: Schema)
      ensures this.events == events && this.schema == schema
    {
      this.events, this.schema := events, schema;
    }

    /** Runs statements in order; the next good calls succeed. ran says how many took effect. */
    method ExecStatements(stmts: seq<Stmt>, good: nat) returns (ran: nat)
      modifies this
      ensures ran == (if good < |stmts| then good else |stmts|) && schema == ExecAll(old(schema), stmts[..ran], events)
    {
      ran := 0;
      while ran < |stmts|
        invariant ran <= |stmts| && ran <= good && schema == ExecAll(old(schema), stmts[..ran], events)
      {
        if ran == good { return; }
        assert stmts[..ran + 1][..ran] == stmts[..ran];
        schema := Exec(schema, stmts[ran], events);
        ran := ran + 1;
      }
    }

    /** One turn of the loop; done when every statement of the rung took effect. */
    method Turn(good: nat, ghost start: Schema, ghost plan: seq<Stmt>, ghost ran: nat)
      returns (done: bool, left: nat, ghost ran': nat)
      requires Tracks(start, schema, plan, ran, events) && 0 <= schema.version < SCHEMA_VERSION
      modifies this
      ensures ran' <= |plan| && schema == ExecAll(start, plan[..ran'], events)
      ensures done <==> good >= |Rung(old(schema).version)|
      ensures done ==> left == good - (ran' - ran) && ran' == ran + |Rung(old(schema).version)|
      ensures done ==> Tracks(start, schema, plan, ran', events) && old(schema).version < schema.version <= SCHEMA_VERSION
    {
      var version := schema.version;
      var rung := Rung(version);
      var n := ExecStatements(rung, good);
      RungRan(start, plan, ran, version, n, events);
      return n == |rung|, good - n, ran + n;
    }

    /** runMigrations, when the next good calls succeed: a run executes the plan, or a beginning of it and fails. */
    method RunMigrations(good: nat) returns (ok: bool, ghost ran: nat)
      modifies this
      ensures 0 <= old(schema).version <= SCHEMA_VERSION && good > 2 * |Plan(old(schema).version)| ==> ok
      ensures ran <= |Plan(old(schema).version)|
      ensures schema == ExecAll(old(schema), Plan(old(schema).version)[..ran], events)
      ensures ok ==> ran == |Plan(old(schema).version)| && schema.version == SCHEMA_VERSION
      ensures ok ==> schema == Completed(old(schema), events)
      ensures old(schema).version < 0 || old(schema).version > SCHEMA_VERSION ==> !ok && schema == old(schema)
    {
      ghost var start, plan := schema, Plan(schema.version);
      ran := 0;
      var first := true;
      var left: nat := good;
      while true
        invariant left + 2 * ran >= good
        invariant Tracks(start, schema, plan, ran, events)
        invariant first ==> schema == start && ran == 0
        invariant !first ==> 0 < schema.version <= SCHEMA_VERSION && 0 <= start.version < SCHEMA_VERSION
        decreases SCHEMA_VERSION - schema.version
      {
        if left == 0 { return false, ran; }
        left := left - 1;
        if schema.version > SCHEMA_VERSION || schema.version < 0 { return false, ran; }
        if schema.version == SCHEMA_VERSION {
          assert plan[ran..] == [] && plan[..ran] == plan;
          PlanDone(start, events);
          return true, ran;
        }
        var unset, done := schema.version == 0, false;
        done, left, ran := Turn(left, start, plan, ran);
        if !done { return false, ran; }
        if unset {
          assert plan[..ran] == plan;
          PlanDone(start, events);
          return true, ran;
        }
        first := false;
      }
    }
  }

  /** ran statements of the plan have taken effect, and the stored version plans the rest. */
  ghost predicate Tracks(start: Schema, s: Schema, plan: seq<Stmt>, ran: nat, events: seq<Event>) {
    ran <= |plan| && s == ExecAll(start, plan[..ran], events) && plan[ran..] == Plan(s.version)
  }

  lemma RungVersion(s: Schema, version: int, events: seq<Event>)
    requires s.version == version && 0 <= version < SCHEMA_VERSION
    ensures ExecAll(s, Rung(version), events).version ==
      if version == 0 then SCHEMA_VERSION else if version < 4 then 4 else version + 1
  {
    var r := Rung(version);
    assert r[|r| - 1].SetVersion?;
  }

  lemma RungRan(s: Schema, plan: seq<Stmt>, ran: nat, version: int, n: nat, events: seq<Event>)
    requires ran <= |plan| && Tracks(s, ExecAll(s, plan[..ran], events), plan, ran, events)
    requires ExecAll(s, plan[..ran], events).version == version
    requires 0 <= version < SCHEMA_VERSION && n <= |Rung(version)|
    ensures ran + n <= |plan|
    ensures ExecAll(s, plan[..ran + n], events) == ExecAll(ExecAll(s, plan[..ran], events), Rung(version)[..n], events)
    ensures n == |Rung(version)| ==>
      Tracks(s, ExecAll(s, plan[..ran + n], events), plan, ran + n, events) &&
      version < ExecAll(s, plan[..ran + n], events).version <= SCHEMA_VERSION
  {
    var rung := Rung(version);
    assert rung <= Plan(version);
    assert plan[..ran + n] == plan[..ran] + rung[..n] by {
      assert plan[ran..][..n] == rung[..n];
    }
    ExecAllAppend(s, plan[..ran], rung[..n], events);
    if n == |rung| {
      assert rung[..n] == rung;
      RungVersion(ExecAll(s, plan[..ran], events), version, events);
      assert plan[ran + n..] == plan[ran..][n..];
    }
  }

  // ---- what a complete run leaves ---------------------------------------------------------------------

  /**
   A fresh database gets tables and triggers; an older one the full-text table, the tag indexes, and none of the
   tables and columns that were dropped again. Fresh databases lack the tag indexes.
   */
  function Completed(s: Schema, events: seq<Event>): Schema {
    var v := s.version;
    if v == 0 then s.(version := 7, base := true, triggers := true)
    else if v == 7 then s
    else
      Schema(7, s.base, s.triggers || v == 1, false, false, false, s.tagIndexes || v <= 4,
             s.fts + if v == 1 then AllFts(events) else [])
  }

  lemma ExecNext(s: Schema, stmts: seq<Stmt>, n: nat, events: seq<Event>)
    requires n < |stmts|
    ensures ExecAll(s, stmts[..n + 1], events) == Exec(ExecAll(s, stmts[..n], events), stmts[n], events)
  {
    assert stmts[..n + 1][..n] == stmts[..n];
  }

  lemma LongRungDone(s: Schema, events: seq<Event>)
    requires s.version == 1
    ensures ExecAll(s, Rung(1), events) ==
      s.(version := 4, triggers := true, metrics := true, subsColumn := true, fts := s.fts + AllFts(events))
  {
    var r := Rung(1);
    assert ExecAll(s, r[..0], events) == s;
    ExecNext(s, r, 0, events);
    ExecNext(s, r, 1, events);
    ExecNext(s, r, 2, events);
    ExecNext(s, r, 3, events);
    ExecNext(s, r, 4, events);
    ExecNext(s, r, 5, events);
    assert r[..6] == r;
  }

  lemma SecondRungDone(s: Schema, events: seq<Event>)
    ensures ExecAll(s, Rung(2), events) == s.(version := 4, metrics := true, subsColumn := true)
  {
    var r := Rung(2);
    assert ExecAll(s, r[..0], events) == s;
    ExecNext(s, r, 0, events);
    ExecNext(s, r, 1, events);
    ExecNext(s, r, 2, events);
    ExecNext(s, r, 3, events);
    assert r[..4] == r;
  }

  lemma FirstRungDone(s: Schema, events: seq<Event>)
    ensures ExecAll(s, Rung(0), events) == s.(version := 7, base := true, triggers := true)
  {
    var r := Rung(0);
    assert ExecAll(s, r[..0], events) == s;
    ExecNext(s, r, 0, events);
    ExecNext(s, r, 1, events);
    ExecNext(s, r, 2, events);
    assert r[..3] == r;
  }

  lemma PairDone(s: Schema, a: Stmt, b: Stmt, events: seq<Event>)
    ensures ExecAll(s, [a, b], events) == Exec(Exec(s, a, events), b, events)
  {
    var r := [a, b];
    assert ExecAll(s, r[..0], events) == s;
    ExecNext(s, r, 0, events);
    ExecNext(s, r, 1, events);
    assert r[..2] == r;
  }

  lemma ColumnAdded(s: Schema, events: seq<Event>)
    ensures ExecAll(s, Rung(3), events) == s.(version := 4, subsColumn := true)
  {
    PairDone(s, AddSubsColumn, SetVersion(4), events);
  }

  lemma IndexesCreated(s: Schema, events: seq<Event>)
    ensures ExecAll(s, Rung(4), events) == s.(version := 5, tagIndexes := true)
  {
    PairDone(s, TagIndexes, SetVersion(5), events);
  }

  lemma SessionsCreated(s: Schema, events: seq<Event>)
    ensures ExecAll(s, Rung(5), events) == s.(version := 6, sessions := true)
  {
    PairDone(s, CreateSessions, SetVersion(6), events);
  }

  lemma MetaDropped(s: Schema, events: seq<Event>)
    ensures ExecAll(s, Rung(6), events) == s.(version := 7, metrics := false, subsColumn := false, sessions := false)
  {
    PairDone(s, DropMetaTables, SetVersion(SCHEMA_VERSION), events);
  }

  lemma ShortRungDone(s: Schema, events: seq<Event>)
    requires 2 < s.version < SCHEMA_VERSION
    ensures Completed(ExecAll(s, Rung(s.version), events), events) == Completed(s, events)
  {
    assert s.fts + [] == s.fts;
    if s.version == 3 {
      ColumnAdded(s, events);
    } else if s.version == 4 {
      IndexesCreated(s, events);
    } else if s.version == 5 {
      SessionsCreated(s, events);
    } else {
      MetaDropped(s, events);
    }
  }

  lemma RungDone(s: Schema, events: seq<Event>)
    requires 0 <= s.version < SCHEMA_VERSION
    ensures Completed(ExecAll(s, Rung(s.version), events), events) == Completed(s, events)
  {
    if s.version == 1 {
      LongRungDone(s, events);
      assert (s.fts + AllFts(events)) + [] == s.fts + AllFts(events);
    } else if s.version == 2 {
      SecondRungDone(s, events);
    } else if s.version == 0 {
      FirstRungDone(s, events);
    } else {
      ShortRungDone(s, events);
    }
  }

  lemma {:induction false} PlanDone(s: Schema, events: seq<Event>)
    requires 0 <= s.version <= SCHEMA_VERSION
    ensures ExecAll(s, Plan(s.version), events) == Completed(s, events)
    decreases SCHEMA_VERSION - s.version
  {
    if s.version < SCHEMA_VERSION {
      var rung := Rung(s.version);
      var t := ExecAll(s, rung, events);
      RungDone(s, events);
      RungVersion(s, s.version, events);
      PlanDone(t, events);
      ExecAllAppend(s, rung, Plan(t.version), events);
      assert Plan(s.version) == rung + Plan(t.version) by { if s.version == 0 { assert Plan(7) == []; } }
    }
  }

  // ---- runs that are interrupted --------------------------------------------------------------------

  /** A run that stops after n statements, or completes. */
  function Attempt(s: Schema, n: nat, events: seq<Event>): Schema {
    ExecAll(s, Take(Plan(s.version), n), events)
  }

  function Attempts(s: Schema, ns: seq<nat>, events: seq<Event>): Schema
    decreases |ns|
  {
    if ns == [] then s else Attempts(Attempt(s, ns[0], events), ns[1..], events)
  }

  /** Runs that start at version 1 and get past the backfill. */
  function Backfills(s: Schema, ns: seq<nat>, events: seq<Event>): nat
    decreases |ns|
  {
    if ns == [] then 0
    else (if s.version == 1 && ns[0] >= 2 then 1 else 0) + Backfills(Attempt(s, ns[0], events), ns[1..], events)
  }

  function Copies(rows: seq<FtsRow>, k: nat): (r: seq<FtsRow>)
    ensures |r| == k * |rows|
  {
    if k == 0 then [] else Copies(rows, k - 1) + rows
  }

  lemma PlanFromOne()
    ensures Plan(1) == [CreateFtsAndTriggers, BackfillFts, CreateMetrics, SetVersion(3), AddSubsColumn, SetVersion(4),
                        TagIndexes, SetVersion(5), CreateSessions, SetVersion(6), DropMetaTables, SetVersion(7)]
  {
    assert Plan(7) == [];
    assert Plan(6) == Rung(6) + Plan(7);
    assert Plan(5) == Rung(5) + Plan(6);
    assert Plan(4) == Rung(4) + Plan(5);
  }

  lemma ExecRows(s: Schema, stmt: Stmt, events: seq<Event>)
    requires stmt != BackfillFts
    ensures Exec(s, stmt, events).fts == s.fts
  {
    match stmt {
      case SetVersion(_) =>
      case _ =>
    }
  }

  lemma {:induction false} NoBackfillKeepsRows(s: Schema, stmts: seq<Stmt>, events: seq<Event>)
    requires BackfillFts !in stmts
    ensures ExecAll(s, stmts, events).fts == s.fts
  {
    if stmts != [] {
      var n := |stmts| - 1;
      NoBackfillKeepsRows(s, stmts[..n], events);
      assert stmts[n] in stmts;
      ExecRows(ExecAll(s, stmts[..n], events), stmts[n], events);
    }
  }

  lemma ExecVersion(s: Schema, stmt: Stmt, events: seq<Event>)
    ensures Exec(s, stmt, events).version == if stmt.SetVersion? then stmt.v else s.version
  {}

  lemma {:induction false} NeverBackToOne(s: Schema, stmts: seq<Stmt>, events: seq<Event>)
    requires SetVersion(1) !in stmts && s.version != 1
    ensures ExecAll(s, stmts, events).version != 1
  {
    if stmts != [] {
      NeverBackToOne(s, stmts[..|stmts| - 1], events);
      ExecVersion(ExecAll(s, stmts[..|stmts| - 1], events), stmts[|stmts| - 1], events);
    }
  }

  lemma {:induction false} PlanHasNoBackfill(version: int)
    requires version != 1
    ensures BackfillFts !in Plan(version) && SetVersion(1) !in Plan(version)
    decreases if version < 7 then 7 - version else 0
  {
    if 1 < version < SCHEMA_VERSION { PlanHasNoBackfill(if version < 4 then 4 else version + 1); }
  }

  /** The first two statements of an upgrade from version 1. */
  lemma HeadRows(s: Schema, events: seq<Event>)
    ensures ExecAll(s, [CreateFtsAndTriggers, BackfillFts], events) ==
      s.(triggers := true, fts := s.fts + AllFts(events))
  {
    var a, b := [CreateFtsAndTriggers], [BackfillFts];
    assert [CreateFtsAndTriggers, BackfillFts] == a + b;
    ExecAllAppend(s, a, b, events);
    assert a[..0] == [] && b[..0] == [];
    assert ExecAll(s, a, events) == s.(triggers := true);
  }

  lemma BackfillIsSecond(i: nat)
    ensures |Plan(1)| == 12 && Plan(1)[..2] == [CreateFtsAndTriggers, BackfillFts]
    ensures i < 12 && i != 1 ==> Plan(1)[i] != BackfillFts
  {
    PlanFromOne();
  }

  lemma FirstRows(s: Schema, n: nat, events: seq<Event>)
    requires s.version == 1
    ensures Attempt(s, n, events).fts == s.fts + if n >= 2 then AllFts(events) else []
  {
    var run := Take(Plan(1), n);
    forall i: nat | i < |run| && i != 1 ensures run[i] != BackfillFts { BackfillIsSecond(i); }
    BackfillIsSecond(0);
    if n >= 2 {
      var head, tail := Plan(1)[..2], run[2..];
      assert run == head + tail;
      ExecAllAppend(s, head, tail, events);
      HeadRows(s, events);
      NoBackfillKeepsRows(ExecAll(s, head, events), tail, events);
    } else {
      NoBackfillKeepsRows(s, run, events);
    }
  }

  lemma AttemptRows(s: Schema, n: nat, events: seq<Event>)
    ensures Attempt(s, n, events).fts == s.fts + if s.version == 1 && n >= 2 then AllFts(events) else []
    ensures s.version != 1 ==> Attempt(s, n, events).version != 1
  {
    if s.version == 1 {
      FirstRows(s, n, events);
    } else {
      var run := Take(Plan(s.version), n);
      PlanHasNoBackfill(s.version);
      assert forall x :: x in run ==> x in Plan(s.version);
      NoBackfillKeepsRows(s, run, events);
      NeverBackToOne(s, run, events);
    }
  }

  /**
   Whatever the interruptions, the full-text table gains one copy of every event per run that got past
   the backfill.
   */
  lemma {:induction false} RowsAreCopies(s: Schema, ns: seq<nat>, events: seq<Event>)
    ensures Attempts(s, ns, events).fts == s.fts + Copies(AllFts(events), Backfills(s, ns, events))
    decreases |ns|
  {
    if ns != [] {
      var t := Attempt(s, ns[0], events);
      AttemptRows(s, ns[0], events);
      RowsAreCopies(t, ns[1..], events);
      var k := Backfills(t, ns[1..], events);
      if s.version == 1 && ns[0] >= 2 {
        OneMoreCopy(s.fts, AllFts(events), k);
      } else {
        assert s.fts + [] == s.fts;
      }
    }
  }

  lemma OneMoreCopy(before: seq<FtsRow>, rows: seq<FtsRow>, k: nat)
    ensures (before + rows) + Copies(rows, k) == before + Copies(rows, k + 1)
  {
    CopiesShift(rows, k);
    assert (before + rows) + Copies(rows, k) == before + (rows + Copies(rows, k));
  }

  lemma {:induction false} CopiesShift(rows: seq<FtsRow>, k: nat)
    ensures rows + Copies(rows, k) == Copies(rows, k + 1)
  {
    if k == 0 {
      assert rows + [] == [] + rows;
    } else {
      CopiesShift(rows, k - 1);
      assert rows + (Copies(rows, k - 1) + rows) == (rows + Copies(rows, k - 1)) + rows;
    }
  }

  lemma FtsLength(events: seq<Event>)
    ensures |AllFts(events)| == |events|
  {
    if events != [] { FtsLength(events[1..]); }
  }

  /** An upgraded table mirrors the events exactly when no second run got past the backfill, or there are no events. */
  lemma MirrorAfterUpgradeIff(s: Schema, ns: seq<nat>, events: seq<Event>)
    requires s.version == 1 && s.fts == []
    ensures Attempts(s, ns, events).fts == AllFts(events) <==> events == [] || Backfills(s, ns, events) == 1
  {
    var k := Backfills(s, ns, events);
    RowsAreCopies(s, ns, events);
    FtsLength(events);
    if events == [] {
      assert |Copies(AllFts(events), k)| == 0;
    } else if k == 1 {
      assert Copies(AllFts(events), 1) == [] + AllFts(events);
    } else {
      assert k * |events| != |events|;
    }
  }

  /**
   A first upgrade that stops between its backfill and its first version, and is then completed,
   doubles every row.
   */
  lemma InterruptedBackfillDoubles(s: Schema, events: seq<Event>)
    requires s.version == 1 && s.fts == []
    ensures Attempts(s, [2, 12], events).version == SCHEMA_VERSION
    ensures Attempts(s, [2, 12], events).fts == AllFts(events) + AllFts(events)
  {
    var t := Attempt(s, 2, events);
    PlanFromOne();
    AttemptRows(s, 2, events);
    assert Take(Plan(1), 2) == [CreateFtsAndTriggers, BackfillFts];
    HeadRows(s, events);
    assert t.version == 1;
    AttemptRows(t, 12, events);
    assert Attempt(t, 12, events).version == SCHEMA_VERSION;
    assert [2, 12][1..] == [12] && [12][1..] == [];
    assert [] + AllFts(events) == AllFts(events);
  }
}
