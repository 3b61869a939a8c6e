/**
 The per-connection map of negentropy sessions (internal/relay/neg_sessions.go). Sessions are
 compared by identity, so removeIf never touches a later session that reused a sub id.
 */
module NegSessions {

  class NegSession {
    const subId: string
    var rounds: nat
    var idleCancelled: bool

    constructor (subId: string)
      ensures this.subId == subId && rounds == 0 && !idleCancelled
    {
      this.subId := subId;
      rounds, idleCancelled := 0, false;
    }

    /** touchActivity, without the clock. */
    method TouchActivity()
      modifies this`rounds
      ensures rounds == old(rounds) + 1
    {
      rounds := rounds + 1;
    }

    /** Calls the cancel function of the session's idle timer. */
    method CancelIdle()
      modifies this`idleCancelled
      ensures idleCancelled
    {
      idleCancelled := true;
    }
  }

  /** removeIf on the bare map. */
  function RemovedIf<V(==)>(m: map<string, V>, subId: string, v: V): (r: map<string, V>)
    ensures forall k :: k in r <==> k in m && !(k == subId && m[k] == v)
    ensures forall k :: k in r ==> r[k] == m[k]
  {
    if subId in m && m[subId] == v then m - {subId} else m
  }

  class NegSessionMap {
    var byId: map<string, NegSession>

    constructor ()
      ensures byId == map[]
    {
      byId := map[];
    }

    /** close: cancels the timer and drops the entry; true when there was one. */
    method Close(subId: string) returns (ok: bool)
      modifies this, byId.Values
      ensures ok <==> subId in old(byId)
      ensures byId == old(byId) - {subId}
      ensures ok ==> old(byId)[subId].idleCancelled
      ensures forall s :: s in old(byId).Values && !(ok && s == old(byId)[subId]) ==> unchanged(s)
    {
      if subId in byId {
        var s := byId[subId];
        s.CancelIdle();
        byId := byId - {subId};
        return true;
      }
      return false;
    }

    method CloseAll()
      modifies this, byId.Values
      ensures byId == map[]
      ensures forall s :: s in old(byId).Values ==> s.idleCancelled
    {
      var pending := byId.Keys;
      ghost var all := byId;
      while pending != {}
        invariant pending <= all.Keys && byId == map k | k in pending :: all[k]
        invariant forall k :: k in all && k !in pending ==> all[k].idleCancelled
        decreases pending
      {
        var id :| id in pending;
        byId[id].CancelIdle();
        byId := byId - {id};
        pending := pending - {id};
      }
    }

    /** set: an existing entry loses its timer and is replaced. */
    method Set(subId: string, s: NegSession)
      modifies this, byId.Values
      ensures byId == old(byId)[subId := s]
      ensures subId in old(byId) ==> old(byId)[subId].idleCancelled
      ensures forall o :: o in old(byId).Values && !(subId in old(byId) && o == old(byId)[subId]) ==> unchanged(o)
    {
      if subId in byId { byId[subId].CancelIdle(); }
      byId := byId[subId := s];
    }

    method Get(subId: string) returns (s: NegSession?)
      ensures if subId in byId then s == byId[subId] else s == null
    {
      if subId in byId { s := byId[subId]; } else { s := null; }
    }

    /** remove: by sub id alone, whichever session is there now. */
    method Remove(subId: string) returns (s: NegSession?)
      modifies this, byId.Values
      ensures byId == old(byId) - {subId}
      ensures if subId in old(byId) then s == old(byId)[subId] && s.idleCancelled else s == null
      ensures forall o :: o in old(byId).Values && o != s ==> unchanged(o)
    {
      s := null;
      if subId in byId {
        s := byId[subId];
        s.CancelIdle();
        byId := byId - {subId};
      }
    }

    /** removeIf: only while the entry is still this very session. */
    method RemoveIf(subId: string, s: NegSession) returns (ok: bool)
      modifies this, s
      ensures byId == RemovedIf(old(byId), subId, s)
      ensures ok <==> subId in old(byId) && old(byId)[subId] == s
      ensures ok ==> s.idleCancelled
      ensures !ok ==> unchanged(this) && unchanged(s)
    {
      if subId !in byId || byId[subId] != s { return false; }
      s.CancelIdle();
      byId := byId - {subId};
      return true;
    }

    method Count() returns (n: nat)
      ensures n == |byId|
    {
      n := |byId|;
    }
  }
}
