/** One chat turn of the first draft (`whatsapp/whatsapp.go`): read the
    session, dispatch the message in its state, store the next state. The
    handler decodes the body into an empty struct and then uses a fixed
    user and message in place of the ones the payload would carry. */
module ChatTurn {
  import opened Base
  import opened StateMachine
  import opened Json
  import Session
  import Handlers

  const StatusOK := 200
  const StatusBadRequest := 400

  /** The user and message every decodable request is handled as. */
  const PlaceholderUser: UserId := "user123"
  const PlaceholderMessage := "1"

  /** The reply is only logged, never stored: the result of a request is
      its status, the store afterwards and the reply text. */
  datatype Response = Response(status: int, store: Session.Store, reply: Option<string>)

  /** Decoding into an empty struct accepts an object or `null` and
      rejects every other JSON value; `None` is a body that is not JSON. */
  predicate Decodes(body: Option<Json>)
  {
    body.Some? && (body.value.JObject? || body.value.JNull?)
  }

  /** Get, Handle, overwrite the state, Set. */
  function Turn(m: Machine, st: Session.Store, userID: UserId, message: string, now: Session.Time)
    : (r: (string, Session.Store))
    ensures var (s, _) := Session.Get(st, userID, now);
            var reply := Handle(m, s.state, userID, message);
            && r.0 == reply.text
            && userID in r.1.sessions
            && r.1.sessions[userID].state == reply.next
            && r.1.sessions[userID].lastSeen == now
            && r.1.sessions[userID].variables == s.variables
    ensures r.1.sessions.Keys == st.sessions.Keys + {userID}
    ensures forall v :: v in st.sessions && v != userID ==> r.1.sessions[v] == st.sessions[v]
    ensures r.1.timeout == st.timeout
  {
    var (s, st1) := Session.Get(st, userID, now);
    var reply := Handle(m, s.state, userID, message);
    var s' := s.(state := reply.next);
    (reply.text, Session.Set(st1, userID, s'))
  }

  /** The webhook: a body that does not decode is answered 400 and touches
      nothing; otherwise the placeholder user's turn runs on the
      placeholder message and the answer is 200. */
  function ServeHTTP(m: Machine, st: Session.Store, body: Option<Json>, now: Session.Time)
    : (r: Response)
    ensures !Decodes(body) <==> r.status == StatusBadRequest
    ensures !Decodes(body) ==> r.store == st && r.reply.None?
    ensures Decodes(body) ==>
              && r.status == StatusOK
              && r.reply.Some?
              && r.store.sessions.Keys == st.sessions.Keys + {PlaceholderUser}
              && (forall v :: v in st.sessions && v != PlaceholderUser ==> r.store.sessions[v] == st.sessions[v])
    ensures Decodes(body) ==>
              var (s, _) := Session.Get(st, PlaceholderUser, now);
              var answer := Handle(m, s.state, PlaceholderUser, PlaceholderMessage);
              && r.reply == Some(answer.text)
              && r.store.sessions[PlaceholderUser] == Session.Session(answer.next, now, s.variables)
              && r.store.timeout == st.timeout
  {
    if !Decodes(body) then Response(StatusBadRequest, st, None)
    else
      var (reply, st') := Turn(m, st, PlaceholderUser, PlaceholderMessage, now);
      Response(StatusOK, st', Some(reply))
  }

  /** Whatever the payload says, a decodable request from a store without
      a live session for the placeholder user enters the TechOps flow. */
  lemma EveryRequestIsOptionOne(st: Session.Store, body: Option<Json>, now: Session.Time)
    requires Decodes(body) && !Session.Live(st, PlaceholderUser, now)
    ensures ServeHTTP(Handlers.Script(), st, body, now).store.sessions[PlaceholderUser].state
            == TechOpsState(1)
    ensures ServeHTTP(Handlers.Script(), st, body, now).reply == Some(Handlers.Words(Handlers.BusinessType))
  {
    Handlers.ScriptRegisters(Handlers.Words, StateRoot);
  }

  /** A user with no live session is dispatched from the root state, and
      the store afterwards holds the root handler's next state. */
  lemma StaleUserStartsAtRoot(m: Machine, st: Session.Store, userID: UserId, message: string, now: Session.Time)
    requires !Session.Live(st, userID, now)
    ensures Turn(m, st, userID, message, now).0 == Handle(m, StateRoot, userID, message).text
    ensures Turn(m, st, userID, message, now).1.sessions[userID]
            == Session.Session(Handle(m, StateRoot, userID, message).next, now, map[])
  {
  }

  /** A live user's turn changes only the state and the last-seen time of
      that user's session. */
  lemma LiveTurnKeepsVariables(m: Machine, st: Session.Store, userID: UserId, message: string, now: Session.Time)
    requires Session.Live(st, userID, now)
    ensures var before := st.sessions[userID];
            Turn(m, st, userID, message, now).1.sessions[userID]
            == before.(state := Handle(m, before.state, userID, message).next, lastSeen := now)
  {
  }

  /** The next turn, within the timeout, is dispatched from the state the
      previous turn stored. */
  lemma TurnThenTurn(m: Machine, st: Session.Store, userID: UserId, m1: string, m2: string,
                     now1: Session.Time, now2: Session.Time)
    requires 0 <= now2 - now1 <= st.timeout
    ensures var (reply1, st1) := Turn(m, st, userID, m1, now1);
            var s1 := Session.Get(st, userID, now1).0;
            Turn(m, st1, userID, m2, now2).0
            == Handle(m, Handle(m, s1.state, userID, m1).next, userID, m2).text
  {
  }
}
