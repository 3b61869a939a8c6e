/**
 One task of the single-writer queue: ping, run, hard timeout, retry after reconnect, panic recovery,
 and the one answer its caller gets (internal/storage/sqlitewriter/writer.go). What its closure,
 the ping and the opener do is left open; a monitor that knows nothing of the code judges the log.
 */
module Writer {
  import opened Base

  /** deadline: errors.Is finds context.DeadlineExceeded in it. */
  datatype WError = WError(msg: string, deadline: bool)

  const DEADLINE := WError("context deadline exceeded", true)

  const NEEDLES := [
    "unable to open database", "disk i/o error", "i/o error", "database disk image is malformed",
    "file is not a database", "no such file", "stale nfs", "connection reset", "broken pipe",
    "bad file descriptor", "invalid connection"]

  predicate OccursAt(needle: string, s: string, i: nat) { i + |needle| <= |s| && s[i..i + |needle|] == needle }

  ghost predicate Occurs(needle: string, s: string) { exists i: nat :: OccursAt(needle, s, i) }

  ghost predicate Reconnectable(e: WError) {
    !e.deadline && exists n :: n in NEEDLES && Occurs(n, Lower(e.msg))
  }

  method StringsContains(s: string, needle: string) returns (r: bool)
    ensures r <==> Occurs(needle, s)
  {
    var i: nat := 0;
    while i + |needle| <= |s|
      invariant forall j: nat :: j < i ==> !OccursAt(needle, s, j)
    {
      if OccursAt(needle, s, i) { return true; }
      i := i + 1;
    }
    return false;
  }

  method IsReconnectable(err: Option<WError>) returns (r: bool)
    ensures r <==> err.Some? && Reconnectable(err.value)
  {
    if err.None? { return false; }
    if err.value.deadline { return false; }
    var msg := Lower(err.value.msg);
    for i := 0 to |NEEDLES|
      invariant forall j :: 0 <= j < i ==> !Occurs(NEEDLES[j], msg)
    {
      var hit := StringsContains(msg, NEEDLES[i]);
      if hit {
        assert NEEDLES[i] in NEEDLES;
        return true;
      }
    }
    return false;
  }

  // ---- what is required of the log of one task --------------------------------------------------

  datatype Action =
    | Pinged(ok: bool)
    | Began                               // the closure was started
    | Ended(res: Option<WError>)          // the closure returned, or panicked
    | ClosedHandles
    | Opened(ok: bool)
    | Panicked                            // the ping or the opener panicked
    | Answered(res: Option<WError>)       // a send on its done channel

  /** stale: answered while the closure was in flight, and its handles not closed since. handles: the last reopening. */
  datatype Monitor = Bad | Good(
    pinged: bool, inflight: bool, runs: nat, last: Option<Option<WError>>,
    closed: bool, reopened: bool, panicked: bool, answer: Option<Option<WError>>, stale: bool, handles: Option<bool>)

  const START := Good(false, false, 0, None, false, false, false, None, false, None)

  /**
   One closure in flight; no handle closed or opened meanwhile, and none opened but after a close; a second run
   only after a reconnectable error and a successful reopen; no run after the answer or a panic outside the closure;
   one answer; nil only for a last run that returned nil.
   */
  ghost function Watch(m: Monitor, a: Action): Monitor {
    if m.Bad? then Bad
    else match a
      case Pinged(ok) => if m.inflight || m.runs > 0 then Bad else m.(pinged := ok)
      case Began =>
        if m.inflight || m.panicked || m.answer.Some? || m.runs > 1 || (m.runs == 1 && !MayRetry(m)) then Bad
        else m.(inflight := true, runs := m.runs + 1)
      case Ended(res) =>
        if m.inflight then m.(inflight := false, last := Some(res), closed := false, reopened := false) else Bad
      case ClosedHandles =>
        if m.inflight then Bad else m.(closed := true, reopened := false, stale := false, handles := Some(false))
      case Opened(ok) => if m.inflight || !m.closed then Bad else m.(reopened := ok, handles := Some(ok))
      case Panicked => if m.inflight then Bad else m.(panicked := true)
      case Answered(res) =>
        if m.answer.Some? || (res.None? && (m.inflight || m.last != Some(None))) then Bad
        else m.(answer := Some(res), stale := m.inflight)
  }

  ghost predicate MayRetry(m: Monitor)
    requires m.Good?
  {
    m.reopened && m.last.Some? && m.last.value.Some? && Reconnectable(m.last.value.value)
  }

  ghost function Observe(log: seq<Action>): Monitor {
    if log == [] then START else Watch(Observe(log[..|log| - 1]), log[|log| - 1])
  }

  lemma ObserveNext(log: seq<Action>, a: Action)
    ensures Observe(log + [a]) == Watch(Observe(log), a)
  {
    assert (log + [a])[..|log|] == log;
  }

  /**
   One writer task is over: one answer, which is the last run's own result unless it came too late or could
   not be retried. Handles that a late closure may have used were closed once it had returned.
   */
  ghost predicate Settled(m: Monitor, answer: Option<WError>) {
    && m.Good? && !m.inflight && m.answer == Some(answer) && !m.stale
    && (m.last == Some(None) ==> answer in {None, Some(DEADLINE)})
    && (m.last.Some? && m.last.value.Some? ==>
        answer in {m.last.value, Some(DEADLINE)} || (Reconnectable(m.last.value.value) && answer.Some?))
  }

  /**
   With a handle, and no panic outside the closure: no run only without a connection, and a reconnectable error
   is final only when reopening failed.
   */
  ghost predicate TriedEnough(m: Monitor, hadHandle: bool)
    requires m.Good?
  {
    hadHandle && !m.panicked ==>
    && (m.runs == 0 ==> !m.pinged && m.closed && !m.reopened)
    && (m.runs == 1 && m.last.Some? && m.last.value.Some? && Reconnectable(m.last.value.value) ==>
        m.answer == Some(Some(DEADLINE)) || (m.closed && !m.reopened))
  }

  /** The handles are those of before, or what the last reopening left. */
  ghost predicate HandlesFit(m: Monitor, db: Option<nat>, sqldb: Option<nat>, was: Option<nat>, wasSql: Option<nat>)
    requires m.Good?
  {
    match m.handles
    case None => db == was && sqldb == wasSql
    case Some(ok) => (db.Some? <==> ok) && (sqldb.Some? <==> ok)
  }

  /** err is what the caller should get, or already got. */
  ghost predicate Unanswered(m: Monitor, err: Option<WError>, notified: bool) {
    && m.Good? && !m.inflight && m.runs <= 2 && !m.stale
    && (if notified then err == Some(DEADLINE) && m.answer == Some(err) else m.answer.None?)
    && (err.None? ==> m.last == Some(None))
    && (!notified && m.last.Some? ==>
        m.last == Some(err) || (m.last.value.Some? && Reconnectable(m.last.value.value) && err.Some?))
  }

  function NotOpen(engine: string): WError { WError(engine + ": database not open", false) }

  datatype Outcome = Returns(res: Option<WError>) | Panics(text: string) | TooLate(res: Option<WError>)

  class Queue {
    const engine: string
    const dsn: string
    const hasOpener: bool
    var db: Option<nat>
    var sqldb: Option<nat>
    ghost var log: seq<Action>

    constructor (engine: string, dsn: string, hasOpener: bool, db: Option<nat>, sqldb: Option<nat>)
      ensures this.engine == engine && this.dsn == dsn && this.hasOpener == hasOpener
      ensures this.db == db && this.sqldb == sqldb && log == []
    {
      this.engine, this.dsn, this.hasOpener, this.db, this.sqldb, log := engine, dsn, hasOpener, db, sqldb, [];
    }

    ghost method Log(a: Action)
      modifies this`log
      ensures log == old(log) + [a] && Observe(log) == Watch(Observe(old(log)), a)
    {
      ObserveNext(log, a);
      log := log + [a];
    }

    /** PingContext may fail or panic. */
    method Ping() returns (err: Option<WError>, panicked: bool)
      requires var m := Observe(log); m.Good? && !m.inflight && m.runs == 0
      modifies this`log
      ensures var m := Observe(old(log));
        Observe(log) == m.(pinged := err.None? && !panicked, panicked := m.panicked || panicked)
      ensures sqldb.None? ==> err.Some? && !panicked
    {
      panicked := false;
      if sqldb.None? {
        Log(Pinged(false));
        return Some(WError("sql.DB is nil", false)), false;
      }
      panicked := *;
      if panicked {
        Log(Pinged(false));
        Log(Panicked);
        return None, true;
      }
      var ok: bool := *;
      Log(Pinged(ok));
      if ok { return None, false; }
      var failure: WError := *;
      return Some(failure), false;
    }

    /** The old handles are closed first, so a failed or panicking opener leaves none. */
    method Reconnect() returns (err: Option<WError>, panicked: bool)
      requires Observe(log).Good? && !Observe(log).inflight
      modifies this
      ensures var m := Observe(old(log));
        Observe(log) == m.(closed := true, reopened := err.None? && !panicked, panicked := m.panicked || panicked,
          stale := false, handles := Some(err.None? && !panicked))
      ensures if err.None? && !panicked then db.Some? && sqldb.Some? && hasOpener && dsn != "" else db.None? && sqldb.None?
    {
      panicked := false;
      Log(ClosedHandles);
      db, sqldb := None, None;
      if dsn == "" { return Some(WError("reconnect: empty dsn", false)), false; }
      if !hasOpener { return Some(WError("reconnect: no opener configured", false)), false; }
      panicked := *;
      if panicked {
        Log(Panicked);
        return None, true;
      }
      var ok: bool := *;
      Log(Opened(ok));
      if !ok {
        var failure: WError := *;
        return Some(failure), false;
      }
      var handle: nat := *;
      db, sqldb := Some(handle), Some(handle);
      return None, false;
    }

    function Panic(text: string): Option<WError> { Some(WError(engine + ": writer task panic: " + text, false)) }

    /** One run of the closure; notified says whether the caller already has the answer. */
    method RunTaskOnce() returns (err: Option<WError>, notified: bool)
      requires var m := Observe(log);
        m.Good? && !m.inflight && !m.panicked && m.answer.None? && m.runs < 2 && (m.runs == 1 ==> MayRetry(m))
      modifies this
      ensures var m, m0 := Observe(log), Observe(old(log));
        m.Good? && !m.inflight && m.runs <= m0.runs + 1 &&
        (notified ==> err == Some(DEADLINE) && m.answer == Some(err) && m.runs == m0.runs + 1) &&
        (!notified ==> m.answer.None? && !m.panicked) &&
        (!notified && old(db).None? ==> m == m0 && err == Some(NotOpen(engine))) &&
        (!notified && old(db).Some? ==> m.runs == m0.runs + 1 && m.last == Some(err)) &&
        m.stale == (!notified && m0.stale) &&
        (notified ==> m.closed && (db.Some? <==> m.reopened) && (sqldb.Some? <==> m.reopened)) &&
        m.handles == (if notified then Some(db.Some?) else m0.handles)
      ensures !notified ==> db == old(db) && sqldb == old(sqldb)
    {
      if db.None? { return Some(NotOpen(engine)), false; }
      Log(Began);
      var outcome: Outcome := *;
      match outcome {
        case Returns(res) =>
          Log(Ended(res));
          return res, false;
        case Panics(text) =>
          Log(Ended(Panic(text)));
          return Panic(text), false;
        case TooLate(res) =>
          Expire(res);
          return Some(DEADLINE), true;
      }
    }

    /** The hard timeout: the caller is told, the closure is waited for, and the handles are reopened. */
    method Expire(res: Option<WError>)
      requires var m := Observe(log); m.Good? && m.inflight && m.answer.None?
      modifies this
      ensures var m, m0 := Observe(log), Observe(old(log));
        m.Good? && !m.inflight && m.runs == m0.runs && m.last == Some(res) && m.answer == Some(Some(DEADLINE)) &&
        m.closed && !m.stale && (db.Some? <==> m.reopened) && (sqldb.Some? <==> m.reopened) && m.handles == Some(m.reopened)
    {
      // The caller has its answer: a panic of the opener changes nothing for it.
      Log(Answered(Some(DEADLINE)));
      Log(Ended(res));
      var _, _ := Reconnect();
    }

    /** The body of executeTask, with what its deferred function makes of a panic, and without its answer. */
    method Attempt() returns (err: Option<WError>, notified: bool)
      requires log == []
      modifies this
      ensures Unanswered(Observe(log), err, notified) && TriedEnough(Observe(log), old(db).Some?)
      ensures HandlesFit(Observe(log), db, sqldb, old(db), old(sqldb))
    {
      var pingErr, panicked := Ping();
      var text: string := *;
      if panicked { return Panic(text), false; }
      if pingErr.Some? {
        var reconnErr;
        reconnErr, panicked := Reconnect();
        if panicked { return Panic(text), false; }
        if reconnErr.Some? {
          err := Some(WError(engine + ": ping failed and reconnect failed: ping=" + pingErr.value.msg +
                             " reconnect=" + reconnErr.value.msg, pingErr.value.deadline));
          return err, false;
        }
      }
      err, notified := RunTaskOnce();
      var retry := IsReconnectable(err);
      if retry { err, notified := Retry(err); }
    }

    method Retry(first: Option<WError>) returns (err: Option<WError>, notified: bool)
      requires first.Some? && Reconnectable(first.value) && Unanswered(Observe(log), first, false)
      requires Observe(log).runs < 2 && (Observe(log).runs == 1 ==> Observe(log).last == Some(first))
      requires (Observe(log).runs == 0 ==> db.None?) && !Observe(log).panicked
      modifies this
      ensures Unanswered(Observe(log), err, notified) && TriedEnough(Observe(log), old(db).Some?)
      ensures Observe(log).handles.Some?
      ensures HandlesFit(Observe(log), db, sqldb, old(db), old(sqldb))
    {
      var reconnErr, panicked := Reconnect();
      var text: string := *;
      if panicked { return Panic(text), false; }
      if reconnErr.Some? {
        err := Some(WError(engine + ": " + first.value.msg + " (reconnect: " + reconnErr.value.msg + ")",
                           first.value.deadline));
        return err, false;
      }
      err, notified := RunTaskOnce();
    }

    /** The whole of one writer task; log is its own log, and answer what its caller receives. */
    method ExecuteTask() returns (answer: Option<WError>)
      modifies this
      ensures Settled(Observe(log), answer) && TriedEnough(Observe(log), old(db).Some?)
      ensures HandlesFit(Observe(log), db, sqldb, old(db), old(sqldb))
    {
      log := [];
      var notified;
      answer, notified := Attempt();
      if !notified { Log(Answered(answer)); }
    }
  }
}
