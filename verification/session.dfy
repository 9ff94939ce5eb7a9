/** The in-memory session store of the first draft (`session/session.go`).
    The store is a value; the clock is an explicit `now` parameter. */
module Session {
  import opened StateMachine
  import opened Json

  /** Instants and durations in nanoseconds, as Go's `time` package counts them. */
  type Time = int
  type Duration = int

  datatype Session = Session(state: State, lastSeen: Time, variables: map<string, Json>)

  datatype Store = Store(sessions: map<UserId, Session>, timeout: Duration)

  function NewStore(timeout: Duration): (st: Store)
    ensures st.sessions == map[] && st.timeout == timeout
  {
    Store(map[], timeout)
  }

  /** The session a user without a live one starts from. */
  function FreshSession(now: Time): Session
  {
    Session(StateRoot, now, map[])
  }

  /** A stored session is expired only when strictly more than `timeout`
      has passed since it was last seen. */
  predicate Expired(s: Session, now: Time, timeout: Duration)
  {
    now - s.lastSeen > timeout
  }

  /** Whether `userID` has a stored session that has not expired at `now`. */
  predicate Live(st: Store, userID: UserId, now: Time)
  {
    userID in st.sessions && !Expired(st.sessions[userID], now, st.timeout)
  }

  /** Looks a session up. A missing or expired session gives a fresh root
      session and leaves the store as it is (nothing inserted, nothing
      removed). A live session is returned with `lastSeen` moved to `now`,
      and since Go hands out the stored pointer, the stored copy moves too. */
  function Get(st: Store, userID: UserId, now: Time): (r: (Session, Store))
    ensures r.0.lastSeen == now
    ensures !Live(st, userID, now) ==> r.0 == FreshSession(now) && r.1 == st
    ensures Live(st, userID, now) ==>
              && r.0.state == st.sessions[userID].state
              && r.0.variables == st.sessions[userID].variables
              && r.1.sessions == st.sessions[userID := r.0]
    ensures r.1.timeout == st.timeout
    ensures r.1.sessions.Keys == st.sessions.Keys
    ensures forall v :: v in st.sessions ==> r.1.sessions[v].state == st.sessions[v].state
  {
    if !Live(st, userID, now) then (FreshSession(now), st)
    else
      var s := st.sessions[userID].(lastSeen := now);
      (s, st.(sessions := st.sessions[userID := s]))
  }

  /** Stores `s` as the session of `userID`, replacing only that entry. */
  function Set(st: Store, userID: UserId, s: Session): (st': Store)
    ensures st'.sessions.Keys == st.sessions.Keys + {userID}
    ensures st'.sessions[userID] == s
    ensures forall v :: v in st.sessions && v != userID ==> st'.sessions[v] == st.sessions[v]
    ensures st'.timeout == st.timeout
  {
    st.(sessions := st.sessions[userID := s])
  }

  /** Reading a session back within the timeout gives the state and
      variables that were stored. */
  lemma SetThenGet(st: Store, userID: UserId, s: Session, now: Time)
    requires now - s.lastSeen <= st.timeout
    ensures Get(Set(st, userID, s), userID, now).0 == s.(lastSeen := now)
  {
  }

  /** Expiry is strict: at exactly `timeout` after the last access the
      stored session is still the one returned. */
  lemma ExpiryIsStrict(st: Store, userID: UserId, now: Time)
    requires userID in st.sessions
    requires now - st.sessions[userID].lastSeen == st.timeout
    ensures Get(st, userID, now).0.state == st.sessions[userID].state
    ensures Get(st, userID, now).0.variables == st.sessions[userID].variables
  {
  }

  /** One nanosecond past the timeout the stored state is ignored. */
  lemma ExpiredStartsOver(st: Store, userID: UserId, now: Time)
    requires userID in st.sessions
    requires now - st.sessions[userID].lastSeen == st.timeout + 1
    ensures Get(st, userID, now).0 == FreshSession(now)
    ensures Get(st, userID, now).1 == st
  {
  }

  /** Writing one user's session does not change what another user reads. */
  lemma SetIsLocal(st: Store, userID: UserId, s: Session, other: UserId, now: Time)
    requires other != userID
    ensures Get(Set(st, userID, s), other, now).0 == Get(st, other, now).0
  {
  }

  /** Reading twice at the same instant gives the same session, provided
      the timeout is not negative. */
  lemma GetTwiceSameInstant(st: Store, userID: UserId, now: Time)
    requires st.timeout >= 0
    ensures Get(Get(st, userID, now).1, userID, now).0 == Get(st, userID, now).0
  {
  }
}
