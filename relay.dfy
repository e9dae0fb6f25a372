/**
 * The message relay: one inbound chat message becomes one chat-completion
 * request, and the outcome of that request becomes exactly one reply to the
 * same chat. The HTTP call, the chat transport and JSON decoding are outside
 * the model; their results enter as values (an `Outcome`, a flag saying
 * whether the typing indicator was sent).
 */
module Relay {
  import opened Wrappers
  import opened Text
  import opened Decimal
  import opened Endpoint

  /** The process configuration, read once at start-up and never changed. */
  datatype Config = Config(baseUrl: string, apiKey: string, modelName: string, systemPrompt: string)

  /** What the start-up check guarantees before the handler is ever registered. */
  predicate StartupChecked(cfg: Config) {
    cfg.baseUrl != [] && cfg.apiKey != [] && cfg.modelName != []
  }

  /** An inbound chat message: where it came from and its text. */
  datatype Message = Message(chatId: int, messageId: int, text: string)

  datatype ChatMessage = ChatMessage(role: string, content: string)

  /** The JSON body of a completion request. */
  datatype Payload = Payload(model: string, messages: seq<ChatMessage>)

  /** A completion request as it is handed to the HTTP client. */
  datatype Request = Request(endpoint: string, headers: seq<(string, string)>, payload: Payload, timeoutSeconds: nat)

  const RequestTimeoutSeconds: nat := 60

  /**
   * What became of the HTTP call: it raised (`desc` is the exception's text),
   * or it returned a status and a body. `content` is `Some(c)` exactly when
   * `choices[0].message.content` of the decoded body is the text `c`.
   */
  datatype Outcome =
    | TransportError(desc: string)
    | Http(status: int, body: string, content: Option<string>)

  /** The four terminal states of handling one message. */
  datatype ReplyKind = Answer | ParseFailure | UpstreamError | InternalError

  /** A reply as sent: the chat it goes to, the message it answers, its text. */
  datatype Sent = Sent(chatId: int, replyTo: int, text: string)

  const ParseFailureNotice := "⚠️ API 返回了无法解析的数据"
  const UpstreamErrorPrefix := "❌ 服务商报错 ("
  const UpstreamErrorSeparator := "):\n"
  const InternalErrorPrefix := "💥 内部错误: "

  /** The request body: the system prompt, then the user's text, unchanged. */
  function BuildPayload(cfg: Config, text: string): (p: Payload)
    ensures p.model == cfg.modelName
    ensures |p.messages| == 2
    ensures p.messages[0] == ChatMessage("system", cfg.systemPrompt)
    ensures p.messages[1] == ChatMessage("user", text)
  {
    Payload(cfg.modelName, [ChatMessage("system", cfg.systemPrompt), ChatMessage("user", text)])
  }

  /** The complete request for one message text. */
  function BuildRequest(cfg: Config, text: string): (q: Request)
    ensures q.endpoint == NormalizeEndpoint(cfg.baseUrl)
    ensures EndsWith(q.endpoint, VersionedCompletionsPath)
    ensures TrimTrailingSlashes(cfg.baseUrl) <= q.endpoint
    ensures q.headers == [("Authorization", "Bearer " + cfg.apiKey), ("Content-Type", "application/json")]
    ensures q.payload.model == cfg.modelName
    ensures q.payload.messages == [ChatMessage("system", cfg.systemPrompt), ChatMessage("user", text)]
    ensures q.timeoutSeconds == 60
  {
    Request(
      NormalizeEndpoint(cfg.baseUrl),
      [("Authorization", "Bearer " + cfg.apiKey), ("Content-Type", "application/json")],
      BuildPayload(cfg, text),
      RequestTimeoutSeconds)
  }

  /** Which reply an outcome calls for: every outcome falls in exactly one kind. */
  function Classify(o: Outcome): (k: ReplyKind)
    ensures k == Answer <==> o.Http? && o.status == 200 && o.content.Some?
    ensures k == ParseFailure <==> o.Http? && o.status == 200 && o.content.None?
    ensures k == UpstreamError <==> o.Http? && o.status != 200
    ensures k == InternalError <==> o.TransportError?
  {
    match o
    case TransportError(_) => InternalError
    case Http(status, _, content) =>
      if status != 200 then UpstreamError
      else if content.Some? then Answer
      else ParseFailure
  }

  /** The upstream-error reply: the status code in decimal and the raw body. */
  function UpstreamErrorText(status: int, body: string): string {
    UpstreamErrorPrefix + IntToDecimal(status) + UpstreamErrorSeparator + body
  }

  function InternalErrorText(desc: string): string {
    InternalErrorPrefix + desc
  }

  /**
   * Reads the status code and the body back out of an upstream-error reply;
   * None for any text that is not one.
   */
  function ParseUpstreamError(reply: string): Option<(int, string)> {
    if !StartsWith(reply, UpstreamErrorPrefix) then None
    else match SplitAtFirst(reply[|UpstreamErrorPrefix|..], ')')
      case None => None
      case Some((code, rest)) =>
        match ParseInt(code)
        case None => None
        case Some(status) =>
          if StartsWith(rest, ":\n") then Some((status, rest[2..])) else None
  }

  /** The status code and the body can be recovered, verbatim, from an upstream-error reply. */
  lemma UpstreamErrorRoundTrip(status: int, body: string)
    ensures ParseUpstreamError(UpstreamErrorText(status, body)) == Some((status, body))
  {
    var code := IntToDecimal(status);
    var reply := UpstreamErrorText(status, body);
    assert ')' !in code;
    assert reply[|UpstreamErrorPrefix|..] == code + [')'] + (":\n" + body);
    SplitAtFirstOf(code, ')', ":\n" + body);
    IntRoundTrip(status);
    assert (":\n" + body)[2..] == body;
  }

  /**
   * Conversely, any text that reads back as an upstream-error reply is exactly
   * the reply for the status and body it yields: the reply format has one
   * spelling per status and body.
   */
  lemma UpstreamErrorParsedUnique(reply: string)
    ensures ParseUpstreamError(reply).Some? ==>
      reply == UpstreamErrorText(ParseUpstreamError(reply).value.0, ParseUpstreamError(reply).value.1)
  {
    if ParseUpstreamError(reply).Some? {
      var tail := reply[|UpstreamErrorPrefix|..];
      var (code, rest) := SplitAtFirst(tail, ')').value;
      ParseIntUnique(code);
      var status := ParseInt(code).value;
      assert rest == ":\n" + rest[2..];
      assert reply == UpstreamErrorPrefix + tail;
      assert reply == UpstreamErrorPrefix + IntToDecimal(status) + UpstreamErrorSeparator + rest[2..];
    }
  }

  /** The text of the one reply an outcome produces. */
  function ReplyText(o: Outcome): (r: string)
    ensures Classify(o) == Answer ==> r == o.content.value
    ensures Classify(o) == ParseFailure ==> r == ParseFailureNotice
    ensures Classify(o) == UpstreamError ==> ParseUpstreamError(r) == Some((o.status, o.body))
    ensures Classify(o) == InternalError ==>
      StartsWith(r, InternalErrorPrefix) && r[|InternalErrorPrefix|..] == o.desc
  {
    match Classify(o)
    case Answer => o.content.value
    case ParseFailure => ParseFailureNotice
    case UpstreamError => UpstreamErrorRoundTrip(o.status, o.body); UpstreamErrorText(o.status, o.body)
    case InternalError => InternalErrorText(o.desc)
  }

  /**
   * A reply to a 200 response whose content cannot be read echoes nothing of
   * the body: no text with a character the notice lacks can occur in it,
   * whatever the body was.
   */
  lemma ParseFailureEchoesNothing(body: string, fragment: string, c: char)
    requires c in fragment && c !in ParseFailureNotice
    ensures !Contains(ReplyText(Http(200, body, None)), fragment)
  {
    var r := ReplyText(Http(200, body, None));
    forall i: nat | i + |fragment| <= |r|
      ensures !OccursAt(r, fragment, i)
    {
      var k :| 0 <= k < |fragment| && fragment[k] == c;
      assert r[i + k] != c;
      assert r[i..i + |fragment|][k] != c;
    }
  }

  /** Worked examples: an answer, an upstream error and a wrong-shaped body. */
  lemma ReplyExamples()
    ensures ReplyText(Http(200, "{\"choices\":[{\"message\":{\"content\":\"hi\"}}]}", Some("hi"))) == "hi"
    ensures ParseUpstreamError(ReplyText(Http(500, "server overloaded", None))) == Some((500, "server overloaded"))
    ensures !Contains(ReplyText(Http(200, "{\"unexpected\":\"shape\"}", None)), "unexpected")
  {
    ParseFailureEchoesNothing("{\"unexpected\":\"shape\"}", "unexpected", 'u');
  }

  /** The bot: its fixed configuration, the requests it has issued and the replies it has sent. */
  class Bot {
    const config: Config
    var attempts: seq<Request>
    var outbox: seq<Sent>

    constructor (cfg: Config)
      requires StartupChecked(cfg)
      ensures config == cfg && attempts == [] && outbox == []
    {
      config := cfg;
      attempts := [];
      outbox := [];
    }

    /**
     * Handles one inbound message. `chatActionSent` says whether the typing
     * indicator went out; when it did not, the exception leaves the handler
     * before anything else happens. Otherwise exactly one request is issued
     * and exactly one reply, chosen by `ReplyText`, goes back to the chat.
     */
    method HandleMessage(msg: Message, chatActionSent: bool, outcome: Outcome)
      modifies this
      ensures !chatActionSent ==> attempts == old(attempts) && outbox == old(outbox)
      ensures chatActionSent ==> attempts == old(attempts) + [BuildRequest(config, msg.text)]
      ensures chatActionSent ==>
        outbox == old(outbox) + [Sent(msg.chatId, msg.messageId, ReplyText(outcome))]
    {
      if !chatActionSent {
        return;
      }
      attempts := attempts + [BuildRequest(config, msg.text)];
      var text: string;
      match outcome {
        case TransportError(desc) =>
          text := InternalErrorText(desc);
        case Http(status, body, content) =>
          if status == 200 {
            match content {
              case Some(c) => text := c;
              case None => text := ParseFailureNotice;
            }
          } else {
            text := UpstreamErrorText(status, body);
          }
      }
      outbox := outbox + [Sent(msg.chatId, msg.messageId, text)];
    }
  }
}
