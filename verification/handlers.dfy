/** The transition table of the first draft (`handlers/handlers.go`): one
    handler per scripted state, registered on a state machine. Answers are
    compared exactly: no trimming, no case folding.

    Every handler takes the wording of its replies as a parameter `say`,
    so that what is proved about the transitions holds for any wording;
    the program's own script is `Script()`, which uses `Words`. */
module Handlers {
  import opened StateMachine

  /** The lines the script says. */
  datatype Line =
      Menu | BusinessType | AskCpf | InternalError | YesNoPrompt | Declined | AskPassword
    | AskHasSystem | AskProduction | AskSiteKind | AskCollectsData | AskConcern
    | AskIncident | Recommend | DiagnosisScope | Offer | Payment | PaymentConfirmed
    | Schedule | Scheduled | Feedback | Thanks

  /** The wording the program uses for each line. */
  function Words(l: Line): string
  {
    match l
    case Menu => "👋 Olá! Bem-vindo à *Dresbach Hosting do Brasil*.\n\nEscolha como podemos te ajudar:\n1\U{FE0F}\U{20E3} Tech Ops — Consultoria Especializada\n2\U{FE0F}\U{20E3} Área do Cliente — Hospedagem\n\nDigite o número da opção desejada."
    case BusinessType => "Para começarmos, qual é o tipo do seu negócio?"
    case AskCpf => "Para acessar a área do cliente, por favor, informe seu CPF."
    case InternalError => "Erro interno."
    case YesNoPrompt => "Por favor, responda com Sim ou Não."
    case Declined => "Entendido. Se precisar de algo mais, é só chamar."
    case AskPassword => "Agora, digite sua senha."
    case AskHasSystem => "Hoje você já possui site ou sistema em funcionamento?\n(Sim / Não)"
    case AskProduction => "Esse sistema está em produção ou em desenvolvimento?"
    case AskSiteKind => "Você pretende criar um site institucional ou um sistema com login e dados?"
    case AskCollectsData => "Esse sistema coleta ou armazena dados de clientes ou usuários?\n(Sim / Não)"
    case AskConcern => "Qual é hoje sua principal preocupação?\n1\U{FE0F}\U{20E3} Segurança / invasão\n2\U{FE0F}\U{20E3} LGPD / jurídico\n3\U{FE0F}\U{20E3} Estrutura técnica / performance\n4\U{FE0F}\U{20E3} Não sei por onde começar"
    case AskIncident => "Você já teve algum problema como invasão, vazamento ou queda?\n(Sim / Não)"
    case Recommend => "Com base no que você informou, o mais indicado é um diagnóstico técnico e jurídico inicial.\nPosso te explicar como funciona?"
    case DiagnosisScope => "✔ Avaliamos arquitetura técnica\n✔ Identificamos riscos de segurança\n✔ Analisamos LGPD e contratos\n✔ Indicamos próximos passos\n\nIsso evita retrabalho e custos desnecessários."
    case Offer => "🔍 Diagnóstico Técnico + Jurídico\n💰 R$ 297,00\n⏱ Entrega: até 3 dias úteis\n\nDeseja seguir?\n(Sim / Não)"
    case Payment => "Forma de pagamento:\n1\U{FE0F}\U{20E3} PIX\n2\U{FE0F}\U{20E3} Cartão\n\nPIX:\nChave: 51981446019\nBeneficiário: Dresbach Hosting do Brasil LTDA\n\nEnvie o comprovante após o pagamento."
    case PaymentConfirmed => "Pagamento confirmado ✅"
    case Schedule => "Escolha um horário disponível:\n1\U{FE0F}\U{20E3} 10:00\n2\U{FE0F}\U{20E3} 15:00\n3\U{FE0F}\U{20E3} Próximo dia útil 09:00"
    case Scheduled => "Consultoria agendada com sucesso.\nUm especialista entrará em contato."
    case Feedback => "Antes de finalizar, poderia nos dizer:\nComo foi sua experiência até aqui?\n(Ótima / Boa / Pode melhorar)"
    case Thanks => "Obrigado pelo seu feedback! Um de nossos especialistas entrará em contato em breve."
  }

  /** The two answers the yes/no questions accept, spelled exactly so. */
  const Yes := "Sim"
  const No := "Não"

  /** The root menu: "1" enters the TechOps flow, "2" the client area,
      anything else shows the menu again. */
  function HandleRoot(say: Line -> string, userID: UserId, message: string): Reply
  {
    if message == "1" then Reply(say(BusinessType), TechOpsState(1))
    else if message == "2" then Reply(say(AskCpf), ClientState(1))
    else Reply(say(Menu), StateRoot)
  }

  /** Routing states are never meant to be dispatched. */
  function HandleRoutingState(say: Line -> string, userID: UserId, message: string): Reply
  {
    Reply(say(InternalError), StateRoot)
  }

  /** The handler of TechOps step `n`. Steps 2 and 9 ask yes/no questions;
      every other step moves on whatever the message is. */
  function HandleTechOpsStep(say: Line -> string, n: TechOpsStep, userID: UserId, message: string): Reply
  {
    match n
    case 1 => Reply(say(AskHasSystem), TechOpsState(2))
    case 2 =>
      if message == Yes then Reply(say(AskProduction), TechOpsState(3))
      else if message == No then Reply(say(AskSiteKind), TechOpsState(3))
      else Reply(say(YesNoPrompt), TechOpsState(2))
    case 3 => Reply(say(AskCollectsData), TechOpsState(4))
    case 4 => Reply(say(AskConcern), TechOpsState(5))
    case 5 => Reply(say(AskIncident), TechOpsState(6))
    case 6 => Reply(say(Recommend), TechOpsState(7))
    case 7 => Reply(say(DiagnosisScope), TechOpsState(8))
    case 8 => Reply(say(Offer), TechOpsState(9))
    case 9 =>
      if message == Yes then Reply(say(Payment), TechOpsState(10))
      else if message == No then Reply(say(Declined), StateRoot)
      else Reply(say(YesNoPrompt), TechOpsState(9))
    case 10 => Reply(say(PaymentConfirmed), TechOpsState(11))
    case 11 => Reply(say(Schedule), TechOpsState(12))
    case 12 => Reply(say(Scheduled), TechOpsState(13))
    case 13 => Reply(say(Feedback), TechOpsState(14))
    case 14 => Reply(say(Thanks), TechOpsState(15))
    case 15 => Reply("", StateRoot)
  }

  /** The first client-area step asks for the password and moves to
      ClientState2, for which no handler is registered. */
  function HandleClientState1(say: Line -> string, userID: UserId, message: string): Reply
  {
    Reply(say(AskPassword), ClientState(2))
  }

  function RootHandler(say: Line -> string): Handler
  {
    (userID, message) => HandleRoot(say, userID, message)
  }

  function RoutingHandler(say: Line -> string): Handler
  {
    (userID, message) => HandleRoutingState(say, userID, message)
  }

  function TechOpsHandler(say: Line -> string, n: TechOpsStep): Handler
  {
    (userID, message) => HandleTechOpsStep(say, n, userID, message)
  }

  function ClientHandler(say: Line -> string): Handler
  {
    (userID, message) => HandleClientState1(say, userID, message)
  }

  /** The states the table registers. */
  predicate IsRegistered(s: State)
  {
    s == StateRoot || s == TechOpsFlow || s == ClientAreaFlow
    || s.TechOpsState? || s == ClientState(1)
  }

  /** The handler the table binds to a registered state. */
  function TableHandler(say: Line -> string, s: State): Handler
    requires IsRegistered(s)
  {
    match s
    case StateRoot => RootHandler(say)
    case TechOpsFlow => RoutingHandler(say)
    case ClientAreaFlow => RoutingHandler(say)
    case TechOpsState(n) => TechOpsHandler(say, n)
    case ClientState(_) => ClientHandler(say)
  }

  /** The number of registrations the program makes. */
  const TableSize := 19

  /** The position of a registered state in the program's list of
      registrations: the root, the TechOps routing state, the fifteen
      TechOps steps, the client-area routing state, its first step. */
  function Slot(s: State): nat
    requires IsRegistered(s)
  {
    match s
    case StateRoot => 0
    case TechOpsFlow => 1
    case TechOpsState(n) => n + 1
    case ClientAreaFlow => 17
    case ClientState(_) => 18
  }

  /** The state registered at position `i`. */
  function RegisteredState(i: nat): (s: State)
    requires i < TableSize
    ensures IsRegistered(s) && Slot(s) == i
  {
    if i == 0 then StateRoot
    else if i == 1 then TechOpsFlow
    else if i <= 16 then TechOpsState(i - 1)
    else if i == 17 then ClientAreaFlow
    else ClientState(1)
  }

  /** Two registered states in the same position are the same state. */
  lemma SlotIsInjective(s: State, t: State)
    requires IsRegistered(s) && IsRegistered(t)
    ensures Slot(s) == Slot(t) <==> s == t
  {
  }

  /** The first `k` registrations, made on `m` in the program's order. */
  function RegisterFirst(say: Line -> string, m: Machine, k: nat): Machine
    requires k <= TableSize
  {
    if k == 0 then m
    else
      var s := RegisteredState(k - 1);
      RegisterHandler(RegisterFirst(say, m, k - 1), s, TableHandler(say, s))
  }

  /** Registers the whole table on `m`, in the program's order. */
  function RegisterHandlers(say: Line -> string, m: Machine): Machine
  {
    RegisterFirst(say, m, TableSize)
  }

  /** A new machine with the table registered. */
  function ScriptWith(say: Line -> string): Machine
  {
    RegisterHandlers(say, NewStateMachine())
  }

  /** The machine the program runs. */
  function Script(): Machine
  {
    ScriptWith(Words)
  }

  /** After the first `k` registrations on a new machine, exactly the
      states in the first `k` positions have a handler, each its own. */
  lemma {:induction false} RegisterFirstBinds(say: Line -> string, k: nat, s: State)
    requires k <= TableSize
    ensures s in RegisterFirst(say, NewStateMachine(), k).handlers <==> IsRegistered(s) && Slot(s) < k
    ensures IsRegistered(s) && Slot(s) < k ==> RegisterFirst(say, NewStateMachine(), k).handlers[s] == TableHandler(say, s)
  {
    if k > 0 {
      RegisterFirstBinds(say, k - 1, s);
      var r := RegisteredState(k - 1);
      if IsRegistered(s) {
        SlotIsInjective(s, r);
      }
    }
  }

  /** `RegisterHandlers` registers exactly the scripted states, each with
      its own handler. */
  lemma ScriptRegisters(say: Line -> string, s: State)
    ensures s in ScriptWith(say).handlers <==> IsRegistered(s)
    ensures IsRegistered(s) ==> ScriptWith(say).handlers[s] == TableHandler(say, s)
  {
    RegisterFirstBinds(say, TableSize, s);
  }

  /** The script's transition relation, written as a flat table, independent
      of the registry that implements it. */
  function ScriptNext(s: State, message: string): State
  {
    match s
    case StateRoot =>
      if message == "1" then TechOpsState(1)
      else if message == "2" then ClientState(1)
      else StateRoot
    case TechOpsState(n) =>
      if n == 2 then (if message == Yes || message == No then TechOpsState(3) else TechOpsState(2))
      else if n == 9 then (if message == Yes then TechOpsState(10) else if message == No then StateRoot else TechOpsState(9))
      else if n == 15 then StateRoot
      else TechOpsState(n + 1)
    case ClientState(n) => if n == 1 then ClientState(2) else StateRoot
    case _ => StateRoot
  }

  /** Each TechOps handler moves as the flat table says. */
  lemma TechOpsStepFollowsTable(say: Line -> string, n: TechOpsStep, userID: UserId, message: string)
    ensures HandleTechOpsStep(say, n, userID, message).next == ScriptNext(TechOpsState(n), message)
  {
  }

  /** Each handler of the table moves as the flat table says. */
  lemma TableFollowsTable(say: Line -> string, s: State, userID: UserId, message: string)
    requires IsRegistered(s)
    ensures TableHandler(say, s)(userID, message).next == ScriptNext(s, message)
  {
    if s.TechOpsState? {
      TechOpsStepFollowsTable(say, s.opsStep, userID, message);
    }
  }

  /** Dispatching through the registered table follows the flat transition
      table, whatever the wording. */
  lemma ScriptFollowsTable(say: Line -> string, s: State, userID: UserId, message: string)
    ensures Handle(ScriptWith(say), s, userID, message).next == ScriptNext(s, message)
  {
    ScriptRegisters(say, s);
    if IsRegistered(s) {
      assert Handle(ScriptWith(say), s, userID, message) == TableHandler(say, s)(userID, message);
      TableFollowsTable(say, s, userID, message);
    }
  }

  /** A state without a handler answers with the fallback and returns to the root. */
  lemma ClientState2FallsBack(say: Line -> string, userID: UserId, message: string)
    ensures Handle(ScriptWith(say), ClientState(2), userID, message) == Reply(FallbackText, StateRoot)
  {
    ScriptRegisters(say, ClientState(2));
  }

  /** Dispatching in a TechOps step runs that step's handler. */
  lemma ScriptRunsStep(say: Line -> string, n: TechOpsStep, userID: UserId, message: string)
    ensures Handle(ScriptWith(say), TechOpsState(n), userID, message) == HandleTechOpsStep(say, n, userID, message)
  {
    ScriptRegisters(say, TechOpsState(n));
  }

  /** Answers are matched exactly: a lower-case "sim" at either yes/no
      question, or one with a leading space, gets the prompt again and
      keeps the state. */
  lemma AnswersAreCaseSensitive(say: Line -> string, userID: UserId)
    ensures Handle(ScriptWith(say), TechOpsState(2), userID, "sim") == Reply(say(YesNoPrompt), TechOpsState(2))
    ensures Handle(ScriptWith(say), TechOpsState(9), userID, "sim") == Reply(say(YesNoPrompt), TechOpsState(9))
    ensures Handle(ScriptWith(say), TechOpsState(9), userID, " Sim") == Reply(say(YesNoPrompt), TechOpsState(9))
  {
    assert "sim"[0] != Yes[0] && "sim"[0] != No[0];
    assert |" Sim"| != |Yes| && |" Sim"| != |No|;
    YesNoRepeatsPrompt(say, 2, userID, "sim");
    YesNoRepeatsPrompt(say, 9, userID, "sim");
    YesNoRepeatsPrompt(say, 9, userID, " Sim");
  }

  /** Any choice other than "1" or "2" at the root shows the menu again. */
  lemma RootRepeatsMenu(say: Line -> string, userID: UserId, message: string)
    requires message != "1" && message != "2"
    ensures Handle(ScriptWith(say), StateRoot, userID, message) == Reply(say(Menu), StateRoot)
  {
    ScriptRegisters(say, StateRoot);
  }

  /** At the yes/no questions, steps 2 and 9, any answer other than "Sim"
      or "Não" gets the prompt again and keeps the step. */
  lemma YesNoRepeatsPrompt(say: Line -> string, n: TechOpsStep, userID: UserId, message: string)
    requires n == 2 || n == 9
    requires message != Yes && message != No
    ensures Handle(ScriptWith(say), TechOpsState(n), userID, message) == Reply(say(YesNoPrompt), TechOpsState(n))
  {
    ScriptRunsStep(say, n, userID, message);
  }

  /** Both routing states answer with the internal error and go to the root. */
  lemma RoutingStatesFail(say: Line -> string, userID: UserId, message: string)
    ensures Handle(ScriptWith(say), TechOpsFlow, userID, message) == Reply(say(InternalError), StateRoot)
    ensures Handle(ScriptWith(say), ClientAreaFlow, userID, message) == Reply(say(InternalError), StateRoot)
  {
    ScriptRegisters(say, TechOpsFlow);
    ScriptRegisters(say, ClientAreaFlow);
  }

  /** The hand-over step 15 answers with an empty reply and goes to the root. */
  lemma HandOverIsSilent(say: Line -> string, userID: UserId, message: string)
    ensures Handle(ScriptWith(say), TechOpsState(15), userID, message) == Reply("", StateRoot)
  {
    ScriptRunsStep(say, 15, userID, message);
  }

  /** The state after dispatching `messages` one after the other from `s`. */
  function Run(m: Machine, s: State, userID: UserId, messages: seq<string>): State
    decreases |messages|
  {
    if |messages| == 0 then s
    else Run(m, Handle(m, s, userID, messages[0]).next, userID, messages[1..])
  }

  /** The state the flat table reaches after `messages`. */
  function RunTable(s: State, messages: seq<string>): State
    decreases |messages|
  {
    if |messages| == 0 then s
    else RunTable(ScriptNext(s, messages[0]), messages[1..])
  }

  /** Running the registered script agrees with running the flat table. */
  lemma {:induction false} RunFollowsTable(say: Line -> string, s: State, userID: UserId, messages: seq<string>)
    ensures Run(ScriptWith(say), s, userID, messages) == RunTable(s, messages)
    decreases |messages|
  {
    if |messages| > 0 {
      ScriptFollowsTable(say, s, userID, messages[0]);
      RunFollowsTable(say, ScriptNext(s, messages[0]), userID, messages[1..]);
    }
  }

  /** A state the script can be in: a registered one, or ClientState2,
      which the fallback brings back to the root on the next message. */
  predicate InScript(s: State)
  {
    IsRegistered(s) || s == ClientState(2)
  }

  /** However many messages arrive, a conversation started in the script
      stays in it. */
  lemma {:induction false} TableNeverStrands(s: State, messages: seq<string>)
    requires InScript(s)
    ensures InScript(RunTable(s, messages))
    decreases |messages|
  {
    if |messages| > 0 {
      TableNeverStrands(ScriptNext(s, messages[0]), messages[1..]);
    }
  }

  /** However many messages arrive, a conversation started in the script
      stays in it. */
  lemma ScriptNeverStrands(say: Line -> string, s: State, userID: UserId, messages: seq<string>)
    requires InScript(s)
    ensures InScript(Run(ScriptWith(say), s, userID, messages))
  {
    RunFollowsTable(say, s, userID, messages);
    TableNeverStrands(s, messages);
  }

  /** Following the flat table, "1" and then the TechOps answers, with "Sim"
      or "Não" at step 2 and "Sim" at step 9, reach step 15. */
  lemma TableHappyPath(answers: seq<string>)
    requires |answers| == 15
    requires answers[0] == "1"
    requires answers[2] == Yes || answers[2] == No
    requires answers[9] == Yes
    ensures RunTable(StateRoot, answers) == TechOpsState(15)
  {
    var s := StateRoot;
    var rest := answers;
    for k := 0 to 15
      invariant |rest| == 15 - k
      invariant rest == answers[k..]
      invariant RunTable(StateRoot, answers) == RunTable(s, rest)
      invariant s == (if k == 0 then StateRoot else TechOpsState(k))
    {
      s, rest := ScriptNext(s, rest[0]), rest[1..];
    }
  }

  /** A new user who answers "1" and then the TechOps questions, with "Sim"
      or "Não" at step 2 and "Sim" at step 9, reaches step 15 after fifteen
      messages. */
  lemma TechOpsHappyPath(say: Line -> string, userID: UserId, answers: seq<string>)
    requires |answers| == 15
    requires answers[0] == "1"
    requires answers[2] == Yes || answers[2] == No
    requires answers[9] == Yes
    ensures Run(ScriptWith(say), StateRoot, userID, answers) == TechOpsState(15)
  {
    RunFollowsTable(say, StateRoot, userID, answers);
    TableHappyPath(answers);
  }
}
