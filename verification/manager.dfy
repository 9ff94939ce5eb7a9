/** The conversation manager of the second draft (`pkg/state/manager.go`):
    one message is load, decide, save. The checkout link and the hosting
    account creation are external services, passed in as functions. */
module Manager {
  import opened Base
  import opened GoText
  import opened Database

  /** States are plain strings, as in Go: a stored record may name any state. */
  type State = string

  const StateInitial: State := "INITIAL"
  const StateTechOpsHandleTransfer: State := "TECHOPS_HANDLE_TRANSFER"
  const StateTechOpsHandleRegister: State := "TECHOPS_HANDLE_REGISTER"
  const StateAwaitingPayment: State := "AWAITING_PAYMENT"

  const CheckoutFailedText := "Desculpe, não consegui gerar o link de pagamento. Por favor, tente novamente mais tarde."
  const CheckoutReadyPrefix := "Tudo pronto! Para finalizar, efetue o pagamento através deste link seguro: "
  const ConfirmPromptText := "Por favor, digite 'OK' para confirmar e continuar."
  const ResetPrefix := "Ocorreu um erro (Estado não implementado: "
  const ResetSuffix := "). Reiniciando a conversa."

  datatype PreAnalysisData = PreAnalysisData(repoURL: string, systemURL: string, problemDescription: string)

  /** The manager's own view of a session. */
  datatype UserSession = UserSession(userID: string, state: State, domain: string, preAnalysis: PreAnalysisData)

  datatype ManagerError = LoadError | SaveError | ProvisionError

  /** `CreateCheckoutSession(userID, domain)`: the payment link, or `None`
      when the payment service fails. */
  type Checkout = (string, string) -> Option<string>

  function CopyToDbSession(s: UserSession): DbSession
  {
    DbSession(s.userID, s.state, s.domain,
              PreAnalysisRecord(s.preAnalysis.repoURL, s.preAnalysis.systemURL, s.preAnalysis.problemDescription))
  }

  function CopyFromDbSession(d: DbSession): UserSession
  {
    UserSession(d.userID, d.state, d.domain,
                PreAnalysisData(d.preAnalysis.repoURL, d.preAnalysis.systemURL, d.preAnalysis.problemDescription))
  }

  /** Converting to the stored form and back loses nothing. */
  lemma CopyRoundTrip(s: UserSession)
    ensures CopyFromDbSession(CopyToDbSession(s)) == s
  {
  }

  /** Converting a stored record to the manager's form and back loses nothing. */
  lemma CopyRoundTripDb(d: DbSession)
    ensures CopyToDbSession(CopyFromDbSession(d)) == d
  {
  }

  // ----- input normalisation -----

  /** `strings.ToLower(strings.TrimSpace(text))`. */
  function Normalize(text: string): string
  {
    ToLower(TrimSpace(text))
  }

  /** An independent description of the messages that confirm: "o" then
      "k", in either case (or the Kelvin sign for "k"), with nothing but
      white space around them. */
  predicate IsOkAnswer(text: string)
  {
    exists i :: 0 <= i && i + 2 <= |text| && ConfirmsAt(text, i)
  }

  predicate ConfirmsAt(text: string, i: int)
    requires 0 <= i && i + 2 <= |text|
  {
    && AllSpace(text[..i])
    && LowerChar(text[i]) == 'o'
    && LowerChar(text[i + 1]) == 'k'
    && AllSpace(text[i + 2..])
  }

  /** Trimming the left of `s` removes exactly a leading run of spaces
      that ends at a non-space. */
  lemma {:induction false} TrimLeftIs(s: string, i: nat)
    requires i <= |s| && AllSpace(s[..i])
    requires i < |s| ==> !IsSpace(s[i])
    ensures TrimLeft(s) == s[i..]
    decreases i
  {
    if i > 0 {
      assert IsSpace(s[..i][0]);
      assert s[1..][..i - 1] == s[..i][1..];
      TrimLeftIs(s[1..], i - 1);
      assert s[1..][i - 1..] == s[i..];
    }
  }

  /** Trimming the right of `s` removes exactly a trailing run of spaces
      that starts after a non-space. */
  lemma {:induction false} TrimRightIs(s: string, j: nat)
    requires j <= |s| && AllSpace(s[j..])
    requires j > 0 ==> !IsSpace(s[j - 1])
    ensures TrimRight(s) == s[..j]
    decreases |s| - j
  {
    if j < |s| {
      var t := s[..|s| - 1];
      assert IsSpace(s[j..][|s| - 1 - j]);
      assert t[j..] == s[j..][..|s| - 1 - j];
      TrimRightIs(t, j);
      assert t[..j] == s[..j];
    }
  }

  /** A message that normalises to "ok" has the confirming shape. */
  lemma NormalizedOkHasShape(text: string)
    requires Normalize(text) == "ok"
    ensures IsOkAnswer(text)
  {
    var l := TrimLeft(text);
    var i := |text| - |l|;
    var r := TrimRight(l);
    assert |r| == 2;
    assert l[2..] == text[i + 2..];
    assert text[i] == r[0] && text[i + 1] == r[1];
    assert ConfirmsAt(text, i);
  }

  /** The letters of "ok", in either case, are not white space. */
  lemma LettersAreNotSpace(c: char)
    requires LowerChar(c) == 'o' || LowerChar(c) == 'k'
    ensures !IsSpace(c)
  {
    if 'A' <= c <= 'Z' {
      assert c == 'O' || c == 'K';
    }
  }

  /** Trimming a message of the confirming shape leaves its two letters. */
  lemma TrimSpaceAt(text: string, i: int)
    requires 0 <= i && i + 2 <= |text| && ConfirmsAt(text, i)
    ensures TrimSpace(text) == text[i..i + 2]
  {
    LettersAreNotSpace(text[i]);
    LettersAreNotSpace(text[i + 1]);
    TrimLeftIs(text, i);
    var l := text[i..];
    assert l[2..] == text[i + 2..];
    TrimRightIs(l, 2);
  }

  /** A message of the confirming shape normalises to "ok". */
  lemma ShapeNormalizesToOk(text: string, i: int)
    requires 0 <= i && i + 2 <= |text| && ConfirmsAt(text, i)
    ensures Normalize(text) == "ok"
  {
    TrimSpaceAt(text, i);
    var t := text[i..i + 2];
    assert LowerChar(t[0]) == 'o' && LowerChar(t[1]) == 'k';
    assert ToLower(t) == "ok";
  }

  /** A message confirms exactly when it has the shape `IsOkAnswer` describes. */
  lemma NormalizeIsOk(text: string)
    ensures Normalize(text) == "ok" <==> IsOkAnswer(text)
  {
    if Normalize(text) == "ok" {
      NormalizedOkHasShape(text);
    }
    if IsOkAnswer(text) {
      var i :| 0 <= i && i + 2 <= |text| && ConfirmsAt(text, i);
      ShapeNormalizesToOk(text, i);
    }
  }

  /** A padded, upper-case " OK " confirms. */
  lemma PaddedOkConfirms()
    ensures Normalize(" OK ") == "ok"
  {
    var t := " OK ";
    assert ConfirmsAt(t, 1);
    NormalizeIsOk(t);
  }

  // ----- the decision -----

  /** Whether `s` is one of the two states that wait for the "OK". */
  predicate AwaitsConfirmation(s: State)
  {
    s == StateTechOpsHandleTransfer || s == StateTechOpsHandleRegister
  }

  /** The reply and next state for `text` in `session`: the two
      confirmation states ask for a payment link on "ok"; every other
      state is reset to INITIAL with a reply naming it. */
  function Respond(session: UserSession, text: string, checkout: Checkout): (r: (string, State))
    ensures AwaitsConfirmation(session.state) && Normalize(text) != "ok" ==>
              r == (ConfirmPromptText, session.state)
    ensures AwaitsConfirmation(session.state) && Normalize(text) == "ok" ==>
              match checkout(session.userID, session.domain)
              case Some(url) => r == (CheckoutReadyPrefix + url, StateAwaitingPayment)
              case None => r == (CheckoutFailedText, session.state)
    ensures !AwaitsConfirmation(session.state) ==>
              && r.1 == StateInitial
              && r.0 == ResetPrefix + session.state + ResetSuffix
  {
    if AwaitsConfirmation(session.state) then
      if Normalize(text) == "ok" then
        match checkout(session.userID, session.domain)
        case None => (CheckoutFailedText, session.state)
        case Some(url) => (CheckoutReadyPrefix + url, StateAwaitingPayment)
      else (ConfirmPromptText, session.state)
    else
      (ResetPrefix + session.state + ResetSuffix, StateInitial)
  }

  /** The result of one message: the reply or the error, and the
      repository afterwards. */
  datatype Processed = Processed(reply: Result<string, ManagerError>, repo: Repo)

  /** `ProcessMessage`: load the session, decide, save it back. A load
      error stops before anything is saved; a save error discards the reply. */
  function ProcessMessage(repo: Repo, userID: string, text: string,
                          checkout: Checkout, loadFault: bool, saveFault: bool): (r: Processed)
    ensures loadFault ==> r == Processed(Failure(LoadError), repo)
    ensures !loadFault && saveFault ==> r == Processed(Failure(SaveError), repo)
    ensures r.reply.Success? <==> !loadFault && !saveFault
    ensures r.reply.Success? ==>
              && r.repo.Keys == repo.Keys + {userID}
              && (forall k :: k in repo && k != userID ==> r.repo[k] == repo[k])
  {
    match LoadSession(repo, userID, loadFault)
    case Failure(_) => Processed(Failure(LoadError), repo)
    case Success(record) =>
      var session := CopyFromDbSession(record);
      var (reply, next) := Respond(session, text, checkout);
      match SaveSession(repo, CopyToDbSession(session.(state := next)), saveFault)
      case Failure(_) => Processed(Failure(SaveError), repo)
      case Success(repo') => Processed(Success(reply), repo')
  }

  /** The record saved for `userID` is the loaded one with only its state
      replaced by the decision's next state. */
  lemma ProcessMessageSavesNextState(repo: Repo, userID: string, text: string, checkout: Checkout)
    ensures var before := LoadSession(repo, userID, false).value;
            var after := ProcessMessage(repo, userID, text, checkout, false, false);
            && after.reply == Success(Respond(CopyFromDbSession(before), text, checkout).0)
            && LoadSession(after.repo, userID, false)
               == Success(before.(state := Respond(CopyFromDbSession(before), text, checkout).1))
  {
  }

  /** "OK" in a confirmation state with a working payment service moves the
      stored conversation to AWAITING_PAYMENT and replies with the link. */
  lemma ConfirmWithLink(repo: Repo, userID: string, text: string, checkout: Checkout, url: string)
    requires userID in repo && AwaitsConfirmation(repo[userID].state)
    requires IsOkAnswer(text)
    requires checkout(userID, repo[userID].domain) == Some(url)
    ensures var after := ProcessMessage(repo, userID, text, checkout, false, false);
            && after.reply == Success(CheckoutReadyPrefix + url)
            && after.repo[userID] == repo[userID].(state := StateAwaitingPayment)
  {
    NormalizeIsOk(text);
  }

  /** A failing payment service leaves the conversation where it was. */
  lemma ConfirmWithoutLink(repo: Repo, userID: string, text: string, checkout: Checkout)
    requires userID in repo && AwaitsConfirmation(repo[userID].state)
    requires IsOkAnswer(text)
    requires checkout(userID, repo[userID].domain) == None
    ensures var after := ProcessMessage(repo, userID, text, checkout, false, false);
            && after.reply == Success(CheckoutFailedText)
            && after.repo == repo
  {
    NormalizeIsOk(text);
    assert repo[userID := repo[userID]] == repo;
  }

  /** A new user (and, likewise, one waiting for payment) is reset to
      INITIAL by any message, with a reply naming the state left. */
  lemma NewUserIsReset(repo: Repo, userID: string, text: string, checkout: Checkout)
    requires userID !in repo
    ensures var after := ProcessMessage(repo, userID, text, checkout, false, false);
            && after.reply == Success(ResetPrefix + StateInitial + ResetSuffix)
            && after.repo == repo[userID := NewRecord(userID)]
  {
  }

  /** A user waiting for payment who writes anything is sent back to INITIAL. */
  lemma AwaitingPaymentIsReset(repo: Repo, userID: string, text: string, checkout: Checkout)
    requires userID in repo && repo[userID].state == StateAwaitingPayment
    ensures ProcessMessage(repo, userID, text, checkout, false, false).repo[userID].state == StateInitial
  {
  }

  // ----- account provisioning -----

  const ProvisionPlan := "Dresbach-Start"
  const ProvisionPassword := "senhaSuperSegura123!"
  const DotByte: byte := 0x2E

  /** The parameters of the hosting panel's `createacct` call. */
  datatype CreateAccountParams = CreateAccountParams(
    username: seq<byte>, domain: string, plan: string, password: string, contactEmail: string)

  /** `CreateAccount(params)`: whether the hosting panel created the account. */
  type CreateAccount = CreateAccountParams -> bool

  /** Prepending bytes that hold no separator to a sequence moves its first
      separator-free part by the same prefix. */
  lemma {:induction false} BeforeFirstAppend<T>(a: seq<T>, b: seq<T>, sep: T)
    requires sep !in a
    ensures BeforeFirst(a + b, sep) == a + BeforeFirst(b, sep)
    decreases |a|
  {
    if |a| == 0 {
      assert a + b == b;
    } else {
      assert a[0] != sep;
      assert sep !in a[1..];
      assert (a + b)[0] == a[0];
      assert (a + b)[1..] == a[1..] + b;
      BeforeFirstAppend(a[1..], b, sep);
      assert [a[0]] + (a[1..] + BeforeFirst(b, sep)) == a + BeforeFirst(b, sep);
    }
  }

  /** Only the character '.' encodes to a byte equal to '.'. */
  lemma DotOnlyFromDot(c: char)
    ensures DotByte in EncodeChar(c) <==> c == '.'
  {
  }

  /** Splitting at the first '.' commutes with UTF-8 encoding. */
  lemma {:induction false} Utf8BeforeFirstDot(s: string)
    ensures Utf8(BeforeFirst(s, '.')) == BeforeFirst(Utf8(s), DotByte)
    decreases |s|
  {
    if |s| > 0 {
      DotOnlyFromDot(s[0]);
      if s[0] == '.' {
        assert Utf8(s)[0] == DotByte;
      } else {
        var rest := BeforeFirst(s[1..], '.');
        assert BeforeFirst(s, '.') == [s[0]] + rest;
        assert ([s[0]] + rest)[1..] == rest;
        assert Utf8([s[0]] + rest) == EncodeChar(s[0]) + Utf8(rest);
        Utf8BeforeFirstDot(s[1..]);
        BeforeFirstAppend(EncodeChar(s[0]), Utf8(s[1..]), DotByte);
      }
    }
  }

  /** The part of `domain` before its first '.', as bytes, cut to its
      first 8 bytes. */
  function GenerateUsername(domain: string): (u: seq<byte>)
    ensures |u| <= 8
    ensures u <= Utf8(domain)
    ensures DotByte !in u
    ensures var first := Utf8(BeforeFirst(domain, '.'));
            if |first| <= 8 then u == first else u == first[..8]
  {
    var first := BeforeFirst(Utf8(domain), DotByte);
    Utf8BeforeFirstDot(domain);
    if |first| > 8 then first[..8] else first
  }

  /** The request `ProvisionAccount` sends: the domain and e-mail as given,
      the generated user name, the fixed plan and password. */
  function ProvisionParams(domain: string, contactEmail: string): (p: CreateAccountParams)
    ensures p.domain == domain && p.contactEmail == contactEmail
    ensures p.username == GenerateUsername(domain)
    ensures p.plan == ProvisionPlan
  {
    CreateAccountParams(GenerateUsername(domain), domain, ProvisionPlan, ProvisionPassword, contactEmail)
  }

  /** Creates the hosting account; a refusal of the panel is an error. */
  function ProvisionAccount(userID: string, domain: string, contactEmail: string, createAccount: CreateAccount)
    : (r: Result<CreateAccountParams, ManagerError>)
    ensures r.Success? <==> createAccount(ProvisionParams(domain, contactEmail))
    ensures r.Success? ==> r.value == ProvisionParams(domain, contactEmail)
    ensures r.Failure? ==> r.error == ProvisionError
  {
    var params := ProvisionParams(domain, contactEmail);
    if createAccount(params) then Success(params) else Failure(ProvisionError)
  }
}
