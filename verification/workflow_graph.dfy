/** The graph the branching-logic sample builds: five executors, a start
    executor and four edges in registration order, two of them guarded by
    the spam condition. Only the static table and which edges fire for a
    message are modelled; how the engine schedules the targets is not. */
module WorkflowGraph {
  import opened Base
  import opened SpamRouting

  /** The executors of the sample. */
  datatype Node = SpamDetectionAgent | ToEmailAssistant | EmailAssistantAgent | SendEmail | HandleSpam

  /** An edge without a condition, or one guarded by `get_condition(expected)`. */
  datatype Guard = Always | SpamIs(expected: bool)

  datatype Edge = Edge(source: Node, target: Node, guard: Guard)

  /** A built workflow: its start executor and its edges in the order they
      were added. */
  datatype Workflow = Workflow(start: Node, edges: seq<Edge>)

  /** The id each executor is registered under. */
  function Id(n: Node): string
  {
    match n
    case SpamDetectionAgent => "spam_detection_agent"
    case ToEmailAssistant => "to_email_assistant_request"
    case EmailAssistantAgent => "email_assistant_agent"
    case SendEmail => "send_email"
    case HandleSpam => "handle_spam"
  }

  /** The workflow of the sample: start at the detector; the not-spam path
      goes through the request transformer and the assistant to the sender;
      the spam path goes straight to the spam handler. */
  const Branching: Workflow := Workflow(
    SpamDetectionAgent,
    [ Edge(SpamDetectionAgent, ToEmailAssistant, SpamIs(false)),
      Edge(ToEmailAssistant, EmailAssistantAgent, Always),
      Edge(EmailAssistantAgent, SendEmail, Always),
      Edge(SpamDetectionAgent, HandleSpam, SpamIs(true)) ])

  /** Whether an edge lets message `m` through. */
  predicate Fires(parse: DetectionParser, e: Edge, m: Message)
  {
    match e.guard
    case Always => true
    case SpamIs(expected) => Condition(parse, expected, m)
  }

  /** The targets of the edges leaving `src` that let `m` through, in the
      order the edges were added (every matching edge fires). */
  function Routed(parse: DetectionParser, edges: seq<Edge>, src: Node, m: Message): (r: seq<Node>)
    ensures |r| <= |edges|
    ensures forall n :: n in r <==> exists e :: e in edges && Leads(parse, e, src, n, m)
  {
    if |edges| == 0 then []
    else
      var rest := Routed(parse, edges[1..], src, m);
      assert forall e :: e in edges <==> e == edges[0] || e in edges[1..];
      if Leads(parse, edges[0], src, edges[0].target, m) then
        assert edges[0] in edges;
        [edges[0].target] + rest
      else
        rest
  }

  /** Edge `e` leads from `src` to `n` and lets `m` through. */
  predicate Leads(parse: DetectionParser, e: Edge, src: Node, n: Node, m: Message)
  {
    e.source == src && e.target == n && Fires(parse, e, m)
  }

  /** There is an edge from `a` to `b`. */
  predicate HasEdge(edges: seq<Edge>, a: Node, b: Node)
  {
    exists i :: 0 <= i < |edges| && edges[i].source == a && edges[i].target == b
  }

  /** A walk along edges that starts at the start executor. */
  predicate IsPath(wf: Workflow, p: seq<Node>)
  {
    && |p| > 0
    && p[0] == wf.start
    && forall i :: 0 <= i < |p| - 1 ==> HasEdge(wf.edges, p[i], p[i + 1])
  }

  /** The longest walks of the sample graph. */
  const HamRoute: seq<Node> := [SpamDetectionAgent, ToEmailAssistant, EmailAssistantAgent, SendEmail]
  const SpamRoute: seq<Node> := [SpamDetectionAgent, HandleSpam]

  /** The executors are registered under distinct ids. */
  lemma IdsDistinct(a: Node, b: Node)
    requires a != b
    ensures Id(a) != Id(b)
  {
    match a
    case SpamDetectionAgent => assert Id(a)[0] == 's' && Id(a)[1] == 'p';
    case ToEmailAssistant => assert Id(a)[0] == 't';
    case EmailAssistantAgent => assert Id(a)[0] == 'e';
    case SendEmail => assert Id(a)[0] == 's' && Id(a)[1] == 'e';
    case HandleSpam => assert Id(a)[0] == 'h';
  }

  /** The guards of the two detector edges as the detector's messages meet
      them: a non-response passes both guards, in edge order; a parsed
      response passes exactly the guard of its spam flag; an unparsable
      response passes neither. */
  lemma DetectorRouting(parse: DetectionParser, m: Message)
    ensures !m.Response? ==> Routed(parse, Branching.edges, SpamDetectionAgent, m) == [ToEmailAssistant, HandleSpam]
    ensures m.Response? && parse(m.text).Some? && parse(m.text).value.isSpam ==>
              Routed(parse, Branching.edges, SpamDetectionAgent, m) == [HandleSpam]
    ensures m.Response? && parse(m.text).Some? && !parse(m.text).value.isSpam ==>
              Routed(parse, Branching.edges, SpamDetectionAgent, m) == [ToEmailAssistant]
    ensures m.Response? && parse(m.text).None? ==> Routed(parse, Branching.edges, SpamDetectionAgent, m) == []
  {
    var es := Branching.edges;
    assert es[1..][1..][1..][1..] == [];
    assert Routed(parse, es[1..][1..][1..], SpamDetectionAgent, m)
        == (if Condition(parse, true, m) then [HandleSpam] else []);
    assert Routed(parse, es[1..], SpamDetectionAgent, m) == Routed(parse, es[1..][1..][1..], SpamDetectionAgent, m);
  }

  /** At most one detector edge fires for an agent response. */
  lemma ResponseTakesAtMostOneBranch(parse: DetectionParser, text: string)
    ensures |Routed(parse, Branching.edges, SpamDetectionAgent, Response(text))| <= 1
    ensures |Routed(parse, Branching.edges, SpamDetectionAgent, Response(text))| == 1 <==> parse(text).Some?
  {
    DetectorRouting(parse, Response(text));
  }

  /** Every walk from the start is a prefix of the not-spam route or of the
      spam route. */
  lemma {:induction false} PathsOfBranching(p: seq<Node>)
    requires IsPath(Branching, p)
    ensures p <= HamRoute || p <= SpamRoute
  {
    if |p| > 1 {
      var q := p[..|p| - 1];
      assert IsPath(Branching, q) by {
        forall i | 0 <= i < |q| - 1
          ensures HasEdge(Branching.edges, q[i], q[i + 1])
        {
          assert q[i] == p[i] && q[i + 1] == p[i + 1];
        }
      }
      PathsOfBranching(q);
      var k := |p| - 2;
      assert HasEdge(Branching.edges, p[k], p[k + 1]);
      assert p == q + [p[k + 1]];
    }
  }

  /** The sender is reached only as the fourth executor of the not-spam
      route: after the request transformer and the email assistant, which
      in turn is entered only through the not-spam condition. */
  lemma SendEmailOnlyViaAssistant(p: seq<Node>, k: int)
    requires IsPath(Branching, p)
    requires 0 <= k < |p| && p[k] == SendEmail
    ensures k == 3 && p[..4] == HamRoute
    ensures forall i :: 0 <= i < |Branching.edges| && Branching.edges[i].target == p[1] ==>
              Branching.edges[i].guard == SpamIs(false)
  {
    PathsOfBranching(p);
  }

  /** The spam handler is reached only directly from the detector, and only
      through the spam condition. */
  lemma HandleSpamOnlyFromDetector(p: seq<Node>, k: int)
    requires IsPath(Branching, p)
    requires 0 <= k < |p| && p[k] == HandleSpam
    ensures k == 1 && p == SpamRoute
    ensures forall i :: 0 <= i < |Branching.edges| && Branching.edges[i].target == HandleSpam ==>
              Branching.edges[i].guard == SpamIs(true)
  {
    PathsOfBranching(p);
  }

  /** The spam scenario: a response flagged as spam passes only the guard
      of the edge to the spam handler, which yields the single spam notice. */
  lemma SpamScenario(parse: DetectionParser, text: string, d: DetectionResult)
    requires parse(text) == Some(d) && d.isSpam
    ensures Routed(parse, Branching.edges, SpamDetectionAgent, Response(text)) == [HandleSpam]
    ensures HandleSpamClassifierResponse(parse, text) == Ok(Effects([SpamOutputPrefix + d.reason], []))
  {
    DetectorRouting(parse, Response(text));
  }

  /** The not-spam scenario, hop by hop: only the edge to the transformer
      selects the detector's response; only the edge to the assistant selects
      its one request; only the edge to the sender selects any assistant
      response, and the sender yields the sent email when the assistant's
      answer parses. */
  lemma HamScenario(parse: DetectionParser, parseReply: ReplyParser, text: string, d: DetectionResult, reply: string)
    requires parse(text) == Some(d) && !d.isSpam
    ensures Routed(parse, Branching.edges, SpamDetectionAgent, Response(text)) == [ToEmailAssistant]
    ensures ToEmailAssistantRequest(parse, text)
         == Ok(Effects([], [Request(AgentExecutorRequest([ChatMessage(User, d.emailContent)], true))]))
    ensures Routed(parse, Branching.edges, ToEmailAssistant,
                   Request(AgentExecutorRequest([ChatMessage(User, d.emailContent)], true))) == [EmailAssistantAgent]
    ensures Routed(parse, Branching.edges, EmailAssistantAgent, Response(reply)) == [SendEmail]
    ensures parseReply(reply).Some? ==>
              HandleEmailResponse(parseReply, reply)
              == Ok(Effects([SentOutputPrefix + parseReply(reply).value.response], []))
  {
    DetectorRouting(parse, Response(text));
    var es := Branching.edges;
    var req := Request(AgentExecutorRequest([ChatMessage(User, d.emailContent)], true));
    assert es[1..][1..][1..][1..] == [];
    assert Routed(parse, es[1..][1..], ToEmailAssistant, req) == [];
    assert Routed(parse, es[1..][1..], EmailAssistantAgent, Response(reply)) == [SendEmail];
  }
}
