/** The handler registry of the first draft (`statemachine/statemachine.go`):
    a map from conversation state to handler, with a fallback to the root
    state for every state that has no handler. */
module StateMachine {

  /** The conversation states. The numbered TechOps and Client states are
      the ones the handler table uses; they are distinct states of their own. */
  datatype State =
    | StateRoot
    | TechOpsFlow
    | TechOpsQualifyLeadHasSystem
    | TechOpsQualifyLeadCollectsData
    | TechOpsPrincipalProblem
    | TechOpsPaidDiagnosis
    | TechOpsPayment
    | TechOpsPaymentValidated
    | TechOpsTechnicalDiagnosis
    | TechOpsAutomaticFeedback
    | TechOpsSpecializedConsulting
    | ClientAreaFlow
    | ClientLogin
    | ClientMainMenu
    | ClientServices
    | ClientServicesDetails
    | ClientDomains
    | ClientInvoices
    | ClientTickets
    | ClientViewTickets
    | ClientOpenTicket
    | TechOpsState(opsStep: TechOpsStep)  // TechOpsState1 .. TechOpsState15
    | ClientState(clientStep: ClientStep)    // ClientState1, ClientState2

  type TechOpsStep = n: int | 1 <= n <= 15 witness 1
  type ClientStep = n: int | 1 <= n <= 2 witness 1

  type UserId = string

  /** What a handler returns: the text to send and the state to move to. */
  datatype Reply = Reply(text: string, next: State)

  /** A handler maps `(userID, message)` to a reply. */
  type Handler = (UserId, string) -> Reply

  datatype Machine = Machine(handlers: map<State, Handler>)

  /** The reply to a message in a state that has no handler. */
  const FallbackText := "Desculpe, não entendi. Por favor, tente novamente."

  /** A new machine knows no state. */
  function NewStateMachine(): (m: Machine)
    ensures forall s :: s !in m.handlers
  {
    Machine(map[])
  }

  /** Binds `h` to `s`; a previous binding of `s` is replaced and no other
      binding changes. */
  function RegisterHandler(m: Machine, s: State, h: Handler): (m': Machine)
    ensures m'.handlers == m.handlers[s := h]
  {
    Machine(m.handlers[s := h])
  }

  /** Dispatches one message: the registered handler's reply, or the
      fallback text and the root state when `s` has no handler. */
  function Handle(m: Machine, s: State, userID: UserId, message: string): (r: Reply)
    ensures s in m.handlers ==> r == m.handlers[s](userID, message)
    ensures s !in m.handlers ==> r == Reply(FallbackText, StateRoot)
  {
    if s in m.handlers then m.handlers[s](userID, message)
    else Reply(FallbackText, StateRoot)
  }

  /** The last registration for a state is the one `Handle` uses. */
  lemma RegisterLastWins(m: Machine, s: State, h1: Handler, h2: Handler, userID: UserId, message: string)
    ensures Handle(RegisterHandler(RegisterHandler(m, s, h1), s, h2), s, userID, message)
            == h2(userID, message)
  {
  }

  /** Registering a handler for `s` leaves the dispatch of every other state as it was. */
  lemma RegisterIsLocal(m: Machine, s: State, h: Handler, t: State, userID: UserId, message: string)
    requires t != s
    ensures Handle(RegisterHandler(m, s, h), t, userID, message) == Handle(m, t, userID, message)
  {
  }

  /** On a new machine every state falls back to the root state. */
  lemma NewMachineFallsBack(s: State, userID: UserId, message: string)
    ensures Handle(NewStateMachine(), s, userID, message) == Reply(FallbackText, StateRoot)
  {
  }
}
