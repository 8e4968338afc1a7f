/** The local logic of the branching-logic workflow sample: the edge
    condition that routes a spam detector's answer, and the three executors
    written in the sample. The detector's JSON answer is parsed by an
    abstract partial function (`None` when validation raises). */
module SpamRouting {
  import opened Base

  /** What the spam detector is asked to return. */
  datatype DetectionResult = DetectionResult(isSpam: bool, reason: string, emailContent: string)

  /** What the email assistant is asked to return. */
  datatype EmailResponse = EmailResponse(response: string)

  /** A request to an agent executor: the messages to send and whether the
      agent should answer. */
  datatype AgentExecutorRequest = AgentExecutorRequest(messages: seq<ChatMessage>, shouldRespond: bool)

  /** A message travelling along an edge. An agent's answer carries the text
      the agent produced; `Other` stands for any other Python object. */
  datatype Message =
    | Request(request: AgentExecutorRequest)
    | Response(text: string)
    | Other(description: string)

  /** The two ways an executor in this sample can fail: a JSON answer that
      does not validate, and the spam handler's explicit guard. */
  datatype ExecutorError = ValidationError | RuntimeError(message: string)

  /** What one executor invocation did: values yielded as workflow outputs
      and messages sent to its successors, both in call order. */
  datatype Effects = Effects(outputs: seq<string>, sent: seq<Message>)

  /** An executor invocation either completes with its effects or raises. */
  type Outcome = Result<Effects, ExecutorError>

  /** Abstract JSON validation of a detection result. */
  type DetectionParser = string -> Option<DetectionResult>

  /** Abstract JSON validation of an email response. */
  type ReplyParser = string -> Option<EmailResponse>

  const SpamOutputPrefix := "Email marked as spam: "
  const SentOutputPrefix := "Email sent:\n"
  const NotSpamGuardMessage := "This executor should only handle spam messages."

  /** The edge condition built by `get_condition(expected)`: anything that is
      not an agent response passes; a response passes when its text parses
      and the spam flag equals `expected`; a parse failure never passes. */
  predicate Condition(parse: DetectionParser, expected: bool, m: Message)
    ensures !m.Response? ==> Condition(parse, expected, m)
    ensures m.Response? && Condition(parse, expected, m) ==>
              parse(m.text).Some? && parse(m.text).value.isSpam == expected
    ensures m.Response? && parse(m.text).Some? && parse(m.text).value.isSpam == expected ==>
              Condition(parse, expected, m)
  {
    if m.Response? then
      match parse(m.text)
      case Some(d) => d.isSpam == expected
      case None => false
    else
      true
  }

  /** `send_email`: parse the assistant's reply and yield it as the email
      that was sent. */
  function HandleEmailResponse(parseReply: ReplyParser, text: string): (r: Outcome)
    ensures r.Ok? <==> parseReply(text).Some?
    ensures r.Ok? ==>
              && r.value.sent == []
              && r.value.outputs == [SentOutputPrefix + parseReply(text).value.response]
    ensures r.Err? ==> r.error == ValidationError
  {
    match parseReply(text)
    case None => Err(ValidationError)
    case Some(reply) => Ok(Effects([SentOutputPrefix + reply.response], []))
  }

  /** `handle_spam`: parse the detection; yield the spam notice when it is
      spam, raise the guard error when it is not. */
  function HandleSpamClassifierResponse(parse: DetectionParser, text: string): (r: Outcome)
    ensures r.Ok? <==> parse(text).Some? && parse(text).value.isSpam
    ensures r.Ok? ==>
              && r.value.sent == []
              && r.value.outputs == [SpamOutputPrefix + parse(text).value.reason]
    ensures parse(text).None? ==> r == Err(ValidationError)
    ensures parse(text).Some? && !parse(text).value.isSpam ==> r == Err(RuntimeError(NotSpamGuardMessage))
  {
    match parse(text)
    case None => Err(ValidationError)
    case Some(d) =>
      if d.isSpam then Ok(Effects([SpamOutputPrefix + d.reason], []))
      else Err(RuntimeError(NotSpamGuardMessage))
  }

  /** `to_email_assistant_request`: turn the detection into one request for
      the email assistant holding the original email as a single user
      message. */
  function ToEmailAssistantRequest(parse: DetectionParser, text: string): (r: Outcome)
    ensures r.Ok? <==> parse(text).Some?
    ensures r.Err? ==> r.error == ValidationError
    ensures r.Ok? ==>
              && r.value.outputs == []
              && |r.value.sent| == 1
              && r.value.sent[0].Request?
              && r.value.sent[0].request.shouldRespond
              && r.value.sent[0].request.messages == [ChatMessage(User, parse(text).value.emailContent)]
  {
    match parse(text)
    case None => Err(ValidationError)
    case Some(d) =>
      Ok(Effects([], [Request(AgentExecutorRequest([ChatMessage(User, d.emailContent)], true))]))
  }

  /** Anything that is not an agent response passes both conditions. */
  lemma NonResponsePassesBoth(parse: DetectionParser, m: Message)
    requires !m.Response?
    ensures Condition(parse, true, m) && Condition(parse, false, m)
  {
  }

  /** A parsed response passes exactly the condition whose expected value is
      its spam flag. */
  lemma ParsedResponseMatchesFlag(parse: DetectionParser, text: string, d: DetectionResult, expected: bool)
    requires parse(text) == Some(d)
    ensures Condition(parse, expected, Response(text)) <==> d.isSpam == expected
  {
  }

  /** Fail closed: a response whose text does not parse passes neither
      condition. */
  lemma ParseFailureFailsClosed(parse: DetectionParser, text: string)
    requires parse(text).None?
    ensures !Condition(parse, true, Response(text)) && !Condition(parse, false, Response(text))
  {
  }

  /** For an agent response the two conditions never both hold, and exactly
      one holds iff the text parses. */
  lemma ResponseConditionsExclusive(parse: DetectionParser, text: string)
    ensures !(Condition(parse, true, Response(text)) && Condition(parse, false, Response(text)))
    ensures (Condition(parse, true, Response(text)) || Condition(parse, false, Response(text)))
      <==> parse(text).Some?
  {
  }

  /** A response admitted by the spam condition is handled without raising:
      the handler's own parse of the same text succeeds with the spam flag
      set, so its guard error cannot be reached through that edge. */
  lemma SpamEdgeNeverRaises(parse: DetectionParser, text: string)
    requires Condition(parse, true, Response(text))
    ensures HandleSpamClassifierResponse(parse, text).Ok?
    ensures HandleSpamClassifierResponse(parse, text).value.outputs
      == [SpamOutputPrefix + parse(text).value.reason]
  {
  }

  /** Likewise a response admitted by the not-spam condition is turned into
      a request without raising. */
  lemma NotSpamEdgeNeverRaises(parse: DetectionParser, text: string)
    requires Condition(parse, false, Response(text))
    ensures ToEmailAssistantRequest(parse, text).Ok?
    ensures !parse(text).value.isSpam
  {
  }
}
