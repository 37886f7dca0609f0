/** The session record of `server/models/session.js`. */
module SessionModel {

  /** Milliseconds after `createdAt` at which the store's TTL index drops a record (`expires: "2h"`). */
  const SessionLifetime: int := 2 * 60 * 60 * 1000

  /** Neither field is required, and `sessionId` is indexed but not unique. */
  datatype Session = Session(userId: string, sessionId: string, createdAt: int)

  /** `Session.create({ userId, sessionId })`: the given fields, `createdAt` defaulted to now. */
  function NewSession(userId: string, sessionId: string, now: int): (s: Session)
    ensures s.userId == userId && s.sessionId == sessionId && s.createdAt == now
    ensures Alive(s, now) && !Alive(s, now + SessionLifetime)
  {
    Session(userId, sessionId, now)
  }

  /** A record the store still keeps at time `now` (milliseconds). */
  predicate Alive(s: Session, now: int)
  {
    now - s.createdAt < SessionLifetime
  }
}
