# Conversation state engine of dresbach-assistente, in Dafny

This project models the conversation engine of the dresbach-assistente
WhatsApp bot. The engine takes one inbound chat message, finds the
user's conversation state, decides the reply and the next state, and
stores the new state. The repository has two drafts of it.

- **First draft**, in-memory:
  - `StateMachine` is the state-to-handler registry, with a fallback to the root state.
  - `Handlers` is the scripted TechOps and client-area transition table.
  - `Session` is the session store with its idle timeout.
  - `ChatTurn` is the webhook that joins them: Get, Handle, Set.
- **Second draft**, persistent:
  - `Database` is the session repository keyed by user id.
  - `Manager` is load, decide, save. It also covers the "ok" confirmation that asks for a payment link, the reset of every unhandled state, and the call that provisions a hosting account with the generated user name.
  - `WhatsAppWebhook` does the payload extraction and sends the reply.
  - `StripeWebhook` handles the payment event, which calls the provisioning of the hosting account.
- **Shared modules**:
  - `Base` holds `Option`, `Result` and bytes.
  - `Json` holds decoded JSON values.
  - `GoText` holds the parts of Go's `strings`, `unicode` and `utf8` that the second draft depends on.

The handlers of the first draft take the wording of their replies as a parameter `say`, so that every lemma about the script holds for any wording; `Handlers.Script` is the machine with the program's own texts (`Handlers.Words`).

Each operation is a pure function over immutable values. Three kinds of input become explicit parameters: the clock (`now`), the database's failures (`loadFault`, `saveFault`), and the external services. The external services are the payment link, the hosting panel, and Stripe's signature check and decoding, and each is a function-valued input.

## Model

| member | source | states |
|---|---|---|
| StateMachine.NewStateMachine | statemachine/statemachine.go:41-45 | a new machine has no handler for any state |
| StateMachine.RegisterHandler | statemachine/statemachine.go:48-50 | registering binds the handler to the state, replaces an earlier binding of it, and leaves every other binding alone |
| StateMachine.Handle | statemachine/statemachine.go:53-59 | a registered state answers with its handler's reply; any other state answers with the fixed apology and moves to the root state |
| StateMachine.RegisterLastWins | statemachine/statemachine.go:48-59 | when a state is registered twice, dispatch uses the second handler |
| StateMachine.RegisterIsLocal | statemachine/statemachine.go:48-50 | registering one state does not change how any other state is dispatched |
| StateMachine.NewMachineFallsBack | statemachine/statemachine.go:54-57 | on a new machine every message falls back to the root state |
| Handlers.RegisteredState | handlers/handlers.go:10-35 | the program's registrations, in order: root, the TechOps routing state, TechOps 1 to 15, the client-area routing state, Client 1; every position holds a scripted state, and that state's position is the given one |
| Handlers.RegisterFirstBinds | handlers/handlers.go:10-35 | after the first k registrations on a new machine, exactly the states in the first k positions have a handler, and each is bound to its own |
| Handlers.ScriptRegisters | handlers/handlers.go:10-35 | a state has a handler if and only if it is one of the scripted states, and then it is that state's own handler |
| Handlers.ScriptRunsStep | handlers/handlers.go:15-29 | dispatching in TechOps step n runs the handler of step n |
| Handlers.TechOpsStepFollowsTable | handlers/handlers.go:55-142 | each TechOps handler moves as the independent transition table says: steps 2 and 9 branch on "Sim"/"Não", step 15 returns to root, every other step advances by one |
| Handlers.TableFollowsTable | handlers/handlers.go:37-154 | every handler of the table, not only the TechOps ones, moves as the independent transition table says |
| Handlers.ScriptFollowsTable | handlers/handlers.go:37-154 | dispatch through the registry gives the next state that the independent transition table gives, for every state and message |
| Handlers.ClientState2FallsBack | handlers/handlers.go:151-154 | Client 2 is reached but has no handler, so it answers with the fallback and goes to root |
| Handlers.RootRepeatsMenu | handlers/handlers.go:37-46 | at the root, any message other than "1" or "2" shows the menu again and stays at the root |
| Handlers.YesNoRepeatsPrompt | handlers/handlers.go:60-109 | at steps 2 and 9, any answer other than "Sim" or "Não" gets the yes/no prompt again and keeps the step |
| Handlers.RoutingStatesFail | handlers/handlers.go:50-53 | the TechOps routing state, and likewise the client-area one (lines 146-149), answers any message with the internal error and goes to the root |
| Handlers.HandOverIsSilent | handlers/handlers.go:138-142 | step 15 answers any message with an empty reply and goes to the root |
| Handlers.AnswersAreCaseSensitive | handlers/handlers.go:60-108 | "sim" and " Sim" are not accepted at the yes/no questions; the prompt is repeated and the state is kept |
| Handlers.RunFollowsTable | handlers/handlers.go:10-35 | any sequence of messages drives the registered machine and the transition table to the same state |
| Handlers.TableNeverStrands | handlers/handlers.go:37-154 | the independent transition table never leaves the scripted states (the registered ones and Client 2) |
| Handlers.ScriptNeverStrands | handlers/handlers.go:37-154 | from a scripted state, every sequence of messages stays among the scripted states |
| Handlers.TableHappyPath | handlers/handlers.go:37-135 | on the transition table, "1" and then the answers (with "Sim" or "Não" at step 2 and "Sim" at the offer) reach TechOps 15 after fifteen messages |
| Handlers.TechOpsHappyPath | handlers/handlers.go:37-135 | a new user who answers "1" and then the questions, with "Sim" or "Não" at step 2 and "Sim" at the offer (step 9), reaches TechOps 15 after fifteen messages |
| Session.NewStore | session/session.go:25-30 | a new store is empty and keeps the given timeout |
| Session.Get | session/session.go:33-47 | a missing session, or one idle for strictly more than the timeout, gives a fresh root session and leaves the store unchanged; a live one is returned with its last-seen time moved to now, and the stored copy moves with it |
| Session.Set | session/session.go:50-55 | stores the session under the user and changes no other entry |
| Session.SetThenGet | session/session.go:33-55 | reading back within the timeout gives the stored session, with only its last-seen time updated |
| Session.ExpiryIsStrict | session/session.go:38 | a session idle for exactly the timeout is still live |
| Session.ExpiredStartsOver | session/session.go:38-43 | one nanosecond later the session starts over at root with no variables |
| Session.SetIsLocal | session/session.go:50-55 | writing one user's session does not change what another user reads |
| Session.GetTwiceSameInstant | session/session.go:33-47 | two reads at the same instant agree, when the timeout is not negative |
| ChatTurn.Turn | whatsapp/whatsapp.go:44-49 | the reply is the handler's reply in the session's state; the stored session then has the handler's next state, the current time and the same variables; other users are untouched |
| ChatTurn.ServeHTTP | whatsapp/whatsapp.go:27-55 | a body that does not decode gets 400 and changes nothing; otherwise the answer is 200 and the fixed placeholder user's turn runs on the fixed message "1": the reply is the handler's reply in that user's current state (after expiry), the user's stored session gets the handler's next state, the current time and the same variables, and no other entry changes |
| ChatTurn.EveryRequestIsOptionOne | whatsapp/whatsapp.go:41-42 | because the message is the fixed "1", every decodable request from a user with no live session enters TechOps step 1 |
| ChatTurn.StaleUserStartsAtRoot | whatsapp/whatsapp.go:44-49 | a user with no live session is dispatched from root, and a fresh session holding the next state is stored |
| ChatTurn.LiveTurnKeepsVariables | whatsapp/whatsapp.go:44-49 | for a live user, a turn changes only the state and the last-seen time |
| ChatTurn.TurnThenTurn | whatsapp/whatsapp.go:44-49 | within the timeout, the next turn is dispatched from the state the previous turn stored |
| Database.LoadSession | pkg/database/mongo.go:57-70 | a stored record is returned as it is; a missing one gives an INITIAL record with the user id and empty fields; any other database failure is an error |
| Database.Stored | pkg/database/mongo.go:23-28 | the `$set` upsert writes every field except an empty domain, which keeps the domain stored before |
| Database.SaveSession | pkg/database/mongo.go:73-83 | on success the record is upserted under its own user id and nothing else changes; on failure nothing is written |
| Database.SaveThenLoad | pkg/database/mongo.go:57-83 | the next load returns what was saved, except that an empty domain does not clear a stored one |
| Database.SaveLoadedRecord | pkg/database/mongo.go:57-83 | saving back a record just loaded, with only its state or pre-analysis changed, stores exactly that record |
| Database.SaveIsLocal | pkg/database/mongo.go:73-83 | saving one user's record does not change what another user loads |
| Database.EmptyDomainDoesNotClear | pkg/database/mongo.go:26 | saving a record with an empty domain over a stored one, the next load gives the saved record with the stored domain |
| Manager.CopyRoundTrip | pkg/state/manager.go:177-203 | converting a session to the stored form and back gives the same session |
| Manager.CopyRoundTripDb | pkg/state/manager.go:177-203 | converting a stored record to a session and back gives the same record |
| Manager.NormalizeIsOk | pkg/state/manager.go:83-89 | trimmed and lower-cased input equals "ok" exactly when the message is white space, then "o"/"O", then "k"/"K" (or the Kelvin sign), then white space |
| Manager.TrimSpaceAt | pkg/state/manager.go:83 | trimming a message of the confirming shape leaves exactly its two letters |
| Manager.PaddedOkConfirms | pkg/state/manager.go:83-89 | " OK " confirms |
| Manager.Respond | pkg/state/manager.go:85-109 | in the two confirmation states, "ok" with a working checkout replies with the link and moves to AWAITING_PAYMENT; "ok" with a failing checkout replies with the apology and keeps the state; anything else re-prompts and keeps the state. Every other state replies with the reset text naming it and moves to INITIAL |
| Manager.ProcessMessage | pkg/state/manager.go:72-119 | a load error returns an error and saves nothing; a save error discards the reply; success upserts only this user's record |
| Manager.ProcessMessageSavesNextState | pkg/state/manager.go:76-118 | the saved record is the loaded one with only its state replaced by the decision's next state, and the reply is the decision's reply |
| Manager.ConfirmWithLink | pkg/state/manager.go:88-98 | "OK" in a confirmation state with a working checkout stores AWAITING_PAYMENT and returns the link |
| Manager.ConfirmWithoutLink | pkg/state/manager.go:91-94 | when the checkout fails, the repository is left exactly as it was |
| Manager.NewUserIsReset | pkg/state/manager.go:104-108 | a user with no record receives the INITIAL reset text and gets an INITIAL record |
| Manager.AwaitingPaymentIsReset | pkg/state/manager.go:104-108 | a user waiting for payment who writes anything is moved back to INITIAL |
| Manager.Utf8BeforeFirstDot | pkg/state/manager.go:152 | taking the part before the first '.' commutes with UTF-8 encoding |
| Manager.GenerateUsername | pkg/state/manager.go:150-157 | the user name is the domain's bytes before the first '.', cut to at most 8 bytes; it is a prefix of the domain and holds no '.' |
| Manager.ProvisionParams | pkg/state/manager.go:125-134 | the request carries the given domain and contact e-mail, the generated user name, and the fixed plan |
| Manager.ProvisionAccount | pkg/state/manager.go:122-147 | succeeds exactly when the hosting panel accepts the request built from the domain and e-mail; a refusal is a provisioning error |
| GoText.TrimLeft | pkg/state/manager.go:83 | removes exactly a leading run of white space that ends at a non-space |
| GoText.TrimRight | pkg/state/manager.go:83 | removes exactly a trailing run of white space that starts after a non-space |
| GoText.ToLower | pkg/state/manager.go:83 | lower-cases character by character and keeps the length |
| GoText.BeforeFirst | pkg/state/manager.go:152 | the result is the longest prefix with no separator; the separator follows it, unless it is the whole input |
| WhatsAppWebhook.WalkToMessage | pkg/whatsapp/webhook.go:60-64 | reaches the first message exactly when `entry[0].changes[0].value.messages[0]` exists and is an object; panics exactly when `entry[0]`, `changes[0]` or `messages[0]` exists and is not an object |
| WhatsAppWebhook.ExtractMessageText | pkg/whatsapp/webhook.go:59-72 | when the path holds a string, the result is that string; a non-empty result is always found at the path; it panics exactly when the walk to the first message panics, or the message's `text` is an object whose `body` is absent or not a string; every other miss gives "" |
| WhatsAppWebhook.ExtractSenderPhone | pkg/whatsapp/webhook.go:74-87 | when `from` holds a string, the result is that string; a non-empty result is always found at the path; it panics exactly when the walk to the first message panics |
| WhatsAppWebhook.SenderPanicsOnlyAfterText | pkg/whatsapp/webhook.go:33-34 | the sender extractor panics only on payloads where the text extractor, which runs first, has already panicked |
| WhatsAppWebhook.OnlyFirstEntryCounts | pkg/whatsapp/webhook.go:60-61 | whatever other top-level keys the payload has, entries after the first are never read |
| WhatsAppWebhook.ServeHTTP | pkg/whatsapp/webhook.go:20-55 | a body that cannot be read or decoded gets 400 and changes nothing; a panic changes nothing; any message sent goes with 200, to a non-empty sender, with non-empty text |
| WhatsAppWebhook.ServeDecoded | pkg/whatsapp/webhook.go:33-34 | a decoded object is handled by extracting the text, then the sender, and dispatching on the two |
| WhatsAppWebhook.Dispatch | pkg/whatsapp/webhook.go:33-54 | the request aborts exactly when one of the extractions panicked, and then changes nothing; otherwise the answer is 200, nothing is stored unless a message is sent, and a message goes to a non-empty sender with non-empty text |
| WhatsAppWebhook.DispatchReplies | pkg/whatsapp/webhook.go:43-52 | with a sender and a text, the manager runs once and its reply, or the apology when it fails, goes to the sender |
| WhatsAppWebhook.MissingSenderOrTextIgnored | pkg/whatsapp/webhook.go:36-40 | a payload without a sender or a text gets 200, and nothing is processed or sent |
| WhatsAppWebhook.EverySenderGetsAReply | pkg/whatsapp/webhook.go:43-52 | a message with sender and text gets exactly one reply, to its sender: the manager's reply, or the apology when the manager fails |
| WhatsAppWebhook.StoreDownStillAnswers | pkg/whatsapp/webhook.go:43-47 | when loading fails, the apology is sent and nothing is stored |
| StripeWebhook.ConfirmationText | pkg/stripe/webhook.go:74 | the confirmation is the fixed head, then the domain verbatim, then the fixed tail |
| StripeWebhook.ProgramProvision | pkg/state/manager.go:122-147 | the provisioning the webhook calls succeeds exactly when the hosting panel accepts the request built from the domain and the e-mail |
| StripeWebhook.Fulfil | pkg/stripe/webhook.go:53-80 | a session without "user_id" gets 200 and nothing else; otherwise provisioning is called with the metadata's user, its domain ("" when absent) and the customer's e-mail; a failure gets 500 and no message, and success gets 200 and the confirmation to that user |
| StripeWebhook.ServeHTTP | pkg/stripe/webhook.go:25-81 | exactly the unreadable or oversized bodies get 503; a bad signature gets 400 and causes nothing; the status is one of 200, 400, 500, 503; a failed provisioning gets 500 and no message; a successful one gets 200 and the confirmation, which goes to the metadata's user and names the domain; no confirmation goes out otherwise |
| StripeWebhook.UndecodableSessionRejected | pkg/stripe/webhook.go:44-50 | a completed checkout whose session does not decode gets 400 and causes nothing |
| StripeWebhook.ProvisionsExactlyCompletedCheckouts | pkg/stripe/webhook.go:44-66 | provisioning is called if and only if the event is verified, is a completed checkout, decodes, and names a user |
| StripeWebhook.ProvisionsFromMetadata | pkg/stripe/webhook.go:53-66 | the call carries the metadata's user, its domain ("" when absent) and the customer's e-mail |
| StripeWebhook.OtherEventsIgnored | pkg/stripe/webhook.go:44-80 | any other event type gets 200 and causes nothing |
| StripeWebhook.MissingUserAcknowledged | pkg/stripe/webhook.go:53-59 | a completed checkout without a user gets 200 and causes nothing |
| StripeWebhook.RedeliveryProvisionsAgain | pkg/stripe/webhook.go:25-81 | nothing is deduplicated: any n deliveries that each reach the provisioning (verified, completed, decodable, naming a user) call it n times, even when they name the same user and domain |

## Left out

- StripeWebhook.RedeliveryProvisionsAgain: Stripe's signature check is the `constructEvent` input and has no clock. The library's tolerance on the signature's timestamp (300 seconds by default), which rejects an old signature replayed later with 400, is not modelled; the lemma speaks of deliveries whose signatures the check accepts.
- Mutexes, HTTP plumbing, logging and the send calls' own failures are not modelled. A failed send never changes the status, so an outgoing message is modelled as attempted, and its delivery is not modelled.
- Neither draft has optimistic concurrency (record versions, compare-and-save) or an idempotency ledger for webhook deliveries. The code keeps neither, so neither is modelled. `StripeWebhook.RedeliveryProvisionsAgain` proves that deduplication is absent.
- A confirmed payment does not move the conversation state. The payment webhook never touches the sessions, so nothing leaves AWAITING_PAYMENT except the reset.
- OnlyFirstEntryCounts: states only that entries after the first are never read. The extractors likewise read only `changes[0]` and `messages[0]` (pkg/whatsapp/webhook.go:61-64), which follows from their definitions but is not stated as a lemma.
- A missing `body` in a message's text object also panics. The cause is the unchecked assertion `text["body"].(string)`, which fails on an absent key as well as on a non-string value. `WhatsAppWebhook.ExtractMessageText` models this as `Panics`.
- Several compile defects are modelled as the code evidently intends:
  - the undeclared `TechOpsState1..15` and `ClientState1..2` constants;
  - `statem-achine` at handlers/handlers.go:135;
  - `context.Ternário` at pkg/database/mongo.go:73.
- The clock is the explicit `now` parameter. The Go code calls `time.Since` and `time.Now` separately, and the model takes both readings to be the same instant.
- GoText.ToLower: lower-cases only the characters whose lower case is an ASCII letter. These are A to Z, the Kelvin sign and the capital I with dot above. This is exact for the one comparison the code makes, against "ok", but not for other text.
- JSON numbers are `real`, not `float64`. No numeric field is read.
- Session variables are kept as opaque JSON values, because no handler reads or writes them.
- The following are not part of this model:
  - the products catalogue;
  - the hosting-panel, Stripe-checkout and Gemini clients;
  - configuration;
  - `main.go` wiring.

  The hosting panel and the Stripe checkout enter only as function parameters.
- `StripeWebhook.ServeHTTP` reaches the manager's `ProvisionAccount` through the `provision` field of its services; `StripeWebhook.ProgramProvision` is the provisioning the program wires in. The model records that provisioning was called, and with what, but not what the panel does with it.
- The registration list of `handlers/handlers.go:10-35` is modelled as nineteen numbered registrations made in order (`Handlers.RegisteredState`, `Handlers.RegisterFirst`), which builds the same map as the nineteen calls.
