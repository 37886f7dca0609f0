/** The session collection: `Session.create`, `Session.deleteOne` and the
    TTL index that drops records two hours after `createdAt`. The collection
    is a sequence in natural order; `sessionId` is not unique. */
module SessionStore {
  import opened SessionModel

  /** How many records carry `marker` as their `sessionId`. */
  function Count(sessions: seq<Session>, marker: string): (n: nat)
    ensures n <= |sessions|
    ensures n == 0 <==> forall s :: s in sessions ==> s.sessionId != marker
  {
    if sessions == [] then 0
    else (if sessions[0].sessionId == marker then 1 else 0) + Count(sessions[1..], marker)
  }

  /** `Session.create(...)` appends one record. */
  lemma {:induction false} CountAppend(sessions: seq<Session>, s: Session, marker: string)
    ensures Count(sessions + [s], marker) == Count(sessions, marker) + (if s.sessionId == marker then 1 else 0)
  {
    if sessions != [] {
      assert (sessions + [s])[1..] == sessions[1..] + [s];
      CountAppend(sessions[1..], s, marker);
    }
  }

  /** The `{ deletedCount }` that `deleteOne` reports and the collection it leaves. */
  datatype Deletion = Deletion(deletedCount: nat, sessions: seq<Session>)

  /** `Session.deleteOne({ sessionId: marker })`: removes the first matching
      record, if there is one, and nothing else. */
  function DeleteOne(sessions: seq<Session>, marker: string): (r: Deletion)
    ensures r.deletedCount <= 1
    ensures r.deletedCount == 1 <==> Count(sessions, marker) > 0
    ensures Count(r.sessions, marker) == Count(sessions, marker) - r.deletedCount
    ensures forall m :: m != marker ==> Count(r.sessions, m) == Count(sessions, m)
    ensures |r.sessions| == |sessions| - r.deletedCount
    ensures forall s :: s in r.sessions ==> s in sessions
  {
    if sessions == [] then Deletion(0, [])
    else if sessions[0].sessionId == marker then Deletion(1, sessions[1..])
    else
      var rest := DeleteOne(sessions[1..], marker);
      var r := Deletion(rest.deletedCount, [sessions[0]] + rest.sessions);
      assert r.sessions[1..] == rest.sessions;
      r
  }

  /** `deleteOne` removes only a record that carries the marker: what is
      left is part of the old collection, every record with another marker
      keeps its multiplicity, and when nothing is deleted nothing changes. */
  lemma {:induction false} DeleteOneKeepsOthers(sessions: seq<Session>, marker: string)
    ensures var r := DeleteOne(sessions, marker);
      && multiset(r.sessions) <= multiset(sessions)
      && (forall s: Session :: s.sessionId != marker ==> multiset(r.sessions)[s] == multiset(sessions)[s])
      && (r.deletedCount == 0 ==> r.sessions == sessions)
  {
    if Count(sessions, marker) == 0 {
      NoMatchDeletesNothing(sessions, marker);
    }
    if sessions != [] {
      assert sessions == [sessions[0]] + sessions[1..];
      if sessions[0].sessionId != marker {
        DeleteOneKeepsOthers(sessions[1..], marker);
        var rest := DeleteOne(sessions[1..], marker);
        assert DeleteOne(sessions, marker).sessions == [sessions[0]] + rest.sessions;
      }
    }
  }

  /** Logging out twice with a marker that at most one record carries: the
      second call finds nothing to delete and leaves the collection alone. */
  lemma {:induction false} DeleteOneTwice(sessions: seq<Session>, marker: string)
    requires Count(sessions, marker) <= 1
    ensures var once := DeleteOne(sessions, marker);
      DeleteOne(once.sessions, marker) == Deletion(0, once.sessions)
  {
    var once := DeleteOne(sessions, marker);
    assert Count(once.sessions, marker) == 0;
    NoMatchDeletesNothing(once.sessions, marker);
  }

  /** A marker no record carries deletes nothing. */
  lemma {:induction false} NoMatchDeletesNothing(sessions: seq<Session>, marker: string)
    requires Count(sessions, marker) == 0
    ensures DeleteOne(sessions, marker) == Deletion(0, sessions)
  {
    if sessions != [] {
      NoMatchDeletesNothing(sessions[1..], marker);
      assert [sessions[0]] + sessions[1..] == sessions;
    }
  }

  /** The store's TTL reaper at time `now`: the records still alive, in order. */
  function Reap(sessions: seq<Session>, now: int): (r: seq<Session>)
    ensures forall s :: s in r <==> s in sessions && Alive(s, now)
    ensures |r| <= |sessions|
  {
    if sessions == [] then []
    else (if Alive(sessions[0], now) then [sessions[0]] else []) + Reap(sessions[1..], now)
  }

  /** The reaper keeps the survivors in their natural order: a record added
      last survives at the end exactly when it is still alive. */
  lemma {:induction false} ReapAppend(sessions: seq<Session>, s: Session, now: int)
    ensures Reap(sessions + [s], now) == Reap(sessions, now) + (if Alive(s, now) then [s] else [])
  {
    if sessions != [] {
      assert (sessions + [s])[1..] == sessions[1..] + [s];
      ReapAppend(sessions[1..], s, now);
    }
  }
}
