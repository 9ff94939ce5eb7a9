/** The chat webhook of the second draft (`pkg/whatsapp/webhook.go`): pull
    the sender and the text out of the decoded payload, run the manager,
    send its reply. Go's unchecked type assertions become an explicit
    `Panics` outcome. */
module WhatsAppWebhook {
  import opened Base
  import opened Json
  import Database
  import Manager

  const StatusOK := 200
  const StatusBadRequest := 400

  /** Sent to the user when the manager fails. */
  const ApologyText := "Desculpe, ocorreu um erro ao processar sua solicitação. Tente novamente."

  // ----- an independent path lookup -----

  datatype Step = Key(key: string) | Index(index: nat)

  /** The value at `path` inside `j`, if every step finds an object key or
      an array element. */
  function Lookup(j: Json, path: seq<Step>): Option<Json>
    decreases |path|
  {
    if |path| == 0 then Some(j)
    else match path[0]
      case Key(k) =>
        if j.JObject? && k in j.fields then Lookup(j.fields[k], path[1..]) else None
      case Index(i) =>
        if j.JArray? && i < |j.items| then Lookup(j.items[i], path[1..]) else None
  }

  /** `entry[0].changes[0].value.messages[0]` */
  const MessagePath := [Key("entry"), Index(0), Key("changes"), Index(0), Key("value"), Key("messages"), Index(0)]
  const TextPath := MessagePath + [Key("text")]
  const TextBodyPath := MessagePath + [Key("text"), Key("body")]
  const FromPath := MessagePath + [Key("from")]

  /** `entry[0]` and `entry[0].changes[0]`, the elements asserted to be
      objects on the way to the first message. */
  const EntryPath := [Key("entry"), Index(0)]
  const ChangePath := [Key("entry"), Index(0), Key("changes"), Index(0)]

  /** Something is found at `path`, and it is not an object. */
  predicate HoldsNonObject(j: Json, path: seq<Step>)
  {
    Lookup(j, path).Some? && !Lookup(j, path).value.JObject?
  }

  // ----- the extractors, as the Go code walks the payload -----

  /** What an extractor yields: a string, or a run-time panic. */
  datatype Extraction = Value(s: string) | Panics

  /** Where the walk to the first message ends. */
  datatype MessageWalk = NoMessage | FirstMessage(fields: map<string, Json>) | WalkPanics

  /** The walk both extractors share. A missing key or a container of the
      wrong type ends it quietly; the elements `entry[0]`, `changes[0]` and
      `messages[0]` are asserted to be objects without a check, so any other
      value there panics. */
  function WalkToMessage(req: map<string, Json>): (w: MessageWalk)
    ensures w.FirstMessage? <==> Lookup(JObject(req), MessagePath).Some? && Lookup(JObject(req), MessagePath).value.JObject?
    ensures w.FirstMessage? ==> Lookup(JObject(req), MessagePath) == Some(JObject(w.fields))
    ensures w.WalkPanics? <==>
              || HoldsNonObject(JObject(req), EntryPath)
              || HoldsNonObject(JObject(req), ChangePath)
              || HoldsNonObject(JObject(req), MessagePath)
  {
    var entry := Field(req, "entry");
    if !(entry.JArray? && |entry.items| > 0) then NoMessage
    else if !entry.items[0].JObject? then WalkPanics
    else
      var changes := Field(entry.items[0].fields, "changes");
      if !(changes.JArray? && |changes.items| > 0) then NoMessage
      else if !changes.items[0].JObject? then WalkPanics
      else
        var value := Field(changes.items[0].fields, "value");
        if !value.JObject? then NoMessage
        else
          var messages := Field(value.fields, "messages");
          if !(messages.JArray? && |messages.items| > 0) then NoMessage
          else if !messages.items[0].JObject? then WalkPanics
          else FirstMessage(messages.items[0].fields)
  }

  /** `extractMessageText`: the body of the first message's text, "" when
      the path is missing. `text["body"].(string)` is unchecked, so a text
      object without a string body panics, whether the body is absent or of
      another type. */
  function ExtractMessageText(req: map<string, Json>): (r: Extraction)
    ensures forall b :: Lookup(JObject(req), TextBodyPath) == Some(JString(b)) ==> r == Value(b)
    ensures r.Value? && r.s != "" ==> Lookup(JObject(req), TextBodyPath) == Some(JString(r.s))
    ensures r.Panics? <==>
              || WalkToMessage(req).WalkPanics?
              || (&& Lookup(JObject(req), TextPath).Some? && Lookup(JObject(req), TextPath).value.JObject?
                  && !(Lookup(JObject(req), TextBodyPath).Some? && Lookup(JObject(req), TextBodyPath).value.JString?))
  {
    LookupAppend(JObject(req), MessagePath, [Key("text")]);
    LookupAppend(JObject(req), MessagePath, [Key("text"), Key("body")]);
    match WalkToMessage(req)
    case NoMessage => Value("")
    case WalkPanics => Panics
    case FirstMessage(m) =>
      var text := Field(m, "text");
      if !text.JObject? then Value("")
      else if Field(text.fields, "body").JString? then Value(Field(text.fields, "body").s)
      else Panics
  }

  /** `extractSenderPhone`: the first message's `from` when it is a string,
      "" otherwise. */
  function ExtractSenderPhone(req: map<string, Json>): (r: Extraction)
    ensures forall f :: Lookup(JObject(req), FromPath) == Some(JString(f)) ==> r == Value(f)
    ensures r.Value? && r.s != "" ==> Lookup(JObject(req), FromPath) == Some(JString(r.s))
    ensures r.Panics? <==> WalkToMessage(req).WalkPanics?
  {
    LookupAppend(JObject(req), MessagePath, [Key("from")]);
    match WalkToMessage(req)
    case NoMessage => Value("")
    case WalkPanics => Panics
    case FirstMessage(m) =>
      var from := Field(m, "from");
      if from.JString? then Value(from.s) else Value("")
  }

  /** Looking up a path in two parts is looking up the whole path. */
  lemma {:induction false} LookupAppend(j: Json, p: seq<Step>, q: seq<Step>)
    ensures Lookup(j, p + q) == if Lookup(j, p).Some? then Lookup(Lookup(j, p).value, q) else None
    decreases |p|
  {
    if |p| == 0 {
      assert p + q == q;
    } else {
      assert (p + q)[0] == p[0];
      assert (p + q)[1..] == p[1..] + q;
      match p[0]
      case Key(k) =>
        if j.JObject? && k in j.fields { LookupAppend(j.fields[k], p[1..], q); }
      case Index(i) =>
        if j.JArray? && i < |j.items| { LookupAppend(j.items[i], p[1..], q); }
    }
  }

  /** The sender extractor only panics where the text extractor, which runs
      first, has already panicked. */
  lemma SenderPanicsOnlyAfterText(req: map<string, Json>)
    ensures ExtractSenderPhone(req).Panics? ==> ExtractMessageText(req).Panics?
  {
  }

  /** Entries, changes and messages after the first are never looked at. */
  lemma OnlyFirstEntryCounts(req: map<string, Json>, first: Json, rest: seq<Json>, more: seq<Json>)
    requires "entry" in req && req["entry"] == JArray([first] + rest)
    ensures var req' := req["entry" := JArray([first] + more)];
            ExtractMessageText(req') == ExtractMessageText(req)
            && ExtractSenderPhone(req') == ExtractSenderPhone(req)
  {
  }

  // ----- the request -----

  /** The request as the handler sees it: a body that could not be read,
      or the JSON decoder's verdict on it (`None` for malformed JSON). */
  datatype Inbound = Unreadable | Body(decoded: Option<Json>)

  datatype Outgoing = Outgoing(to: string, text: string)

  /** The answer: a status, the repository afterwards and the message sent,
      if any; or a panic, which ends the request without an answer. The
      delivery result of the message does not change the status. */
  datatype Outcome =
    | Answered(status: int, repo: Database.Repo, sent: Option<Outgoing>)
    | Aborted(repo: Database.Repo)

  /** `json.Unmarshal` into `map[string]interface{}`: an object, or `null`
      (an empty map); anything else is a decoding error. */
  function DecodeRequest(decoded: Option<Json>): Option<map<string, Json>>
  {
    match decoded
    case Some(JObject(m)) => Some(m)
    case Some(JNull) => Some(map[])
    case _ => None
  }

  /** `ServeHTTP` of the chat webhook. */
  function ServeHTTP(inbound: Inbound, repo: Database.Repo, checkout: Manager.Checkout,
                     loadFault: bool, saveFault: bool): (r: Outcome)
    ensures (inbound.Unreadable? || DecodeRequest(inbound.decoded).None?) ==>
              r == Answered(StatusBadRequest, repo, None)
    ensures r.Aborted? ==> r.repo == repo
    ensures r.Answered? && r.status != StatusBadRequest ==> r.status == StatusOK
    ensures r.Answered? && r.sent.None? ==> r.repo == repo
    ensures r.Answered? && r.sent.Some? ==>
              && r.status == StatusOK
              && r.sent.value.to != "" && r.sent.value.text != ""
  {
    if inbound.Unreadable? then Answered(StatusBadRequest, repo, None)
    else match DecodeRequest(inbound.decoded)
      case None => Answered(StatusBadRequest, repo, None)
      case Some(req) => Dispatch(ExtractMessageText(req), ExtractSenderPhone(req), repo, checkout, loadFault, saveFault)
  }

  /** What the handler does with the two extractions, the text's first. */
  function Dispatch(text: Extraction, sender: Extraction, repo: Database.Repo, checkout: Manager.Checkout,
                    loadFault: bool, saveFault: bool): (r: Outcome)
    ensures r.Aborted? <==> text.Panics? || sender.Panics?
    ensures r.Aborted? ==> r.repo == repo
    ensures r.Answered? ==> r.status == StatusOK
    ensures r.Answered? && r.sent.None? ==> r.repo == repo
    ensures r.Answered? && r.sent.Some? ==> r.sent.value.to != "" && r.sent.value.text != ""
  {
    match text
    case Panics => Aborted(repo)
    case Value(t) =>
      match sender
      case Panics => Aborted(repo)
      case Value(from) =>
        if from == "" || t == "" then Answered(StatusOK, repo, None)
        else
          var processed := Manager.ProcessMessage(repo, from, t, checkout, loadFault, saveFault);
          var reply := match processed.reply
            case Success(words) => words
            case Failure(_) => ApologyText;
          Answered(StatusOK, processed.repo, Some(Outgoing(from, reply)))
  }

  /** A decoded object is handed, with its two extractions, to `Dispatch`. */
  lemma ServeDecoded(req: map<string, Json>, repo: Database.Repo, checkout: Manager.Checkout,
                     loadFault: bool, saveFault: bool)
    ensures ServeHTTP(Body(Some(JObject(req))), repo, checkout, loadFault, saveFault)
            == Dispatch(ExtractMessageText(req), ExtractSenderPhone(req), repo, checkout, loadFault, saveFault)
  {
  }

  /** A payload whose first message lacks a sender or a text is
      acknowledged with 200, and nothing is processed or sent. */
  lemma MissingSenderOrTextIgnored(req: map<string, Json>, repo: Database.Repo, checkout: Manager.Checkout,
                                   loadFault: bool, saveFault: bool)
    requires ExtractMessageText(req).Value? && ExtractSenderPhone(req).Value?
    requires ExtractMessageText(req).s == "" || ExtractSenderPhone(req).s == ""
    ensures ServeHTTP(Body(Some(JObject(req))), repo, checkout, loadFault, saveFault)
            == Answered(StatusOK, repo, None)
  {
    ServeDecoded(req, repo, checkout, loadFault, saveFault);
  }

  /** A sender and a text both present get exactly one reply, to the
      sender: the manager's reply, or the apology when the manager fails. */
  lemma DispatchReplies(text: string, sender: string, repo: Database.Repo, checkout: Manager.Checkout,
                        loadFault: bool, saveFault: bool)
    requires text != "" && sender != ""
    ensures var processed := Manager.ProcessMessage(repo, sender, text, checkout, loadFault, saveFault);
            Dispatch(Value(text), Value(sender), repo, checkout, loadFault, saveFault)
            == Answered(StatusOK, processed.repo,
                        Some(Outgoing(sender, if processed.reply.Success? then processed.reply.value else ApologyText)))
  {
  }

  /** A message with a sender and a text always gets exactly one reply, to
      its sender: the manager's reply, or the apology when the manager fails. */
  lemma EverySenderGetsAReply(req: map<string, Json>, repo: Database.Repo, checkout: Manager.Checkout,
                              loadFault: bool, saveFault: bool)
    requires ExtractMessageText(req).Value? && ExtractSenderPhone(req).Value?
    requires ExtractMessageText(req).s != "" && ExtractSenderPhone(req).s != ""
    ensures var sender := ExtractSenderPhone(req).s;
            var processed := Manager.ProcessMessage(repo, sender, ExtractMessageText(req).s, checkout, loadFault, saveFault);
            ServeHTTP(Body(Some(JObject(req))), repo, checkout, loadFault, saveFault)
            == Answered(StatusOK, processed.repo,
                        Some(Outgoing(sender, if processed.reply.Success? then processed.reply.value else ApologyText)))
  {
    ServeDecoded(req, repo, checkout, loadFault, saveFault);
    DispatchReplies(ExtractMessageText(req).s, ExtractSenderPhone(req).s, repo, checkout, loadFault, saveFault);
  }

  /** When the session store is down the user still hears back: the apology
      is sent and nothing is stored. */
  lemma StoreDownStillAnswers(req: map<string, Json>, repo: Database.Repo, checkout: Manager.Checkout, saveFault: bool)
    requires ExtractMessageText(req).Value? && ExtractSenderPhone(req).Value?
    requires ExtractMessageText(req).s != "" && ExtractSenderPhone(req).s != ""
    ensures ServeHTTP(Body(Some(JObject(req))), repo, checkout, true, saveFault)
            == Answered(StatusOK, repo, Some(Outgoing(ExtractSenderPhone(req).s, ApologyText)))
  {
    ServeDecoded(req, repo, checkout, true, saveFault);
  }
}
