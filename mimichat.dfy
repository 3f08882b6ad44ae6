/**
 * The `POST /api/mimichat` handler of server.js: validate the body, build the
 * message list (persona prompt, conversation window, the new message), call
 * the chat-completion service, retrying once on HTTP 429, and answer with the
 * trimmed first choice or the friendly fallback. The completion service is an
 * oracle: `upstream(k)` is what the k-th call (from 0) comes back with.
 */
module MimiChat {
  import opened Wrappers
  import opened Conversation
  import opened JsString

  /** The persona prompt sent as the system turn; its wording plays no part here. */
  const SystemPrompt: string

  /** The reply whenever the service gives nothing usable (written in two pieces so its first letter is in reach of the verifier). */
  const FriendlyFallback: string := "Vâng ạ! " + "Em đang ở đây—Sensei muốn hỏi gì về sản phẩm hay đặt trước ạ?"

  /** The reply to a request without a usable message. */
  const PromptForInput: string := "Sensei nhắn nội dung giúp em nhé ạ~"

  const RateLimited: int := 429

  /** The `msg` field of the body: absent, a string, or some other JSON value. */
  datatype MsgField = MsgAbsent | MsgText(text: string) | MsgNotText

  /**
   * The `history` field: absent (it then defaults to the empty list), a list
   * of turns, or a value `toOpenAIMessages` cannot slice and map (`null`, a
   * number, an object), on which it throws.
   */
  datatype HistoryField = HistoryAbsent | HistoryItems(turns: seq<Turn>) | HistoryNotAList

  /**
   * The JSON body. `level` is given by its rendering inside a template
   * literal, `None` when that rendering throws (an object whose `toString`
   * and `valueOf` give no primitive, such as `{"toString": 1}`).
   */
  datatype Body = Body(msg: MsgField, level: Option<string>, history: HistoryField)

  /** What one completion call gives back. */
  datatype Outcome =
    /** A response; `content` is the first choice's message content, `None` when any part of that path is missing. */
    | Completed(content: Option<string>)
    /** A thrown error and its `status`, when it has one. */
    | Failed(status: Option<int>)

  datatype Response = Response(status: int, reply: string)

  /** `req.body || {}`: a missing body reads as one with every field absent. */
  function Payload(body: Option<Body>): Body {
    body.GetOr(Body(MsgAbsent, Some("undefined"), HistoryAbsent))
  }

  /** `msg` passes validation only when it is a string and not the empty one. */
  predicate HasMessage(body: Option<Body>) {
    Payload(body).msg.MsgText? && Payload(body).msg.text != ""
  }

  /** `toOpenAIMessages(history)`: `None` when the call throws. */
  function WindowOf(history: HistoryField): (w: Option<seq<Message>>)
    ensures history == HistoryAbsent ==> w == Some([])
    ensures w.None? <==> history.HistoryNotAList?
    ensures w.Some? ==> |w.value| <= WindowSize && forall i :: 0 <= i < |w.value| ==> w.value[i].role != System
  {
    match history
    case HistoryAbsent => Some(ToOpenAIMessages([]))
    case HistoryItems(turns) => Some(ToOpenAIMessages(turns))
    case HistoryNotAList => None
  }

  /** The final user turn, which carries the affinity level next to the new message. */
  function UserTurnText(level: string, msg: string): string {
    "Level hiện tại: " + level + ". Tin nhắn mới: " + msg
  }

  /** The message list of the completion request: system turn, window, new user turn. */
  function AssembleMessages(window: seq<Message>, level: string, msg: string): (ms: seq<Message>)
    ensures |ms| == |window| + 2
    ensures ms[0] == Message(System, SystemPrompt)
    ensures ms[1..|ms| - 1] == window
    ensures ms[|ms| - 1] == Message(User, UserTurnText(level, msg))
  {
    [Message(System, SystemPrompt)] + window + [Message(User, UserTurnText(level, msg))]
  }

  /** Building the message list throws on neither the history nor the level. */
  predicate RequestBuilds(b: Body) {
    WindowOf(b.history).Some? && b.level.Some?
  }

  /** The message list a valid body leads to. */
  function RequestMessages(b: Body): seq<Message>
    requires b.msg.MsgText? && RequestBuilds(b)
  {
    AssembleMessages(WindowOf(b.history).value, b.level.value, b.msg.text)
  }

  /** The request holds exactly one system turn, the first, and ends with one user turn. */
  lemma OneSystemTurnFirst(history: seq<Turn>, level: string, msg: string)
    ensures var ms := AssembleMessages(ToOpenAIMessages(history), level, msg);
      (forall i :: 0 <= i < |ms| ==> (ms[i].role == System <==> i == 0))
      && ms[|ms| - 1].role == User
  {
  }

  /** The fallback has no whitespace at either end. */
  lemma FallbackIsTrimmed()
    ensures !IsWhitespace(FriendlyFallback[0]) && !IsWhitespace(FriendlyFallback[|FriendlyFallback| - 1])
  {
  }

  /** `(content || "").trim()`, and the fallback when that leaves nothing. */
  function ReplyText(content: Option<string>): (r: string)
    ensures r != []
    ensures !IsWhitespace(r[0]) && !IsWhitespace(r[|r| - 1])
  {
    var text := Trim(content.GetOr(""));
    if text == "" then FriendlyFallback else text
  }

  /** The fallback replaces exactly the replies that are absent or whitespace only. */
  lemma ReplyFallbackWhenBlank(content: Option<string>)
    ensures content == None || AllWhitespace(content.value) ==> ReplyText(content) == FriendlyFallback
    ensures content.Some? && !AllWhitespace(content.value) ==> ReplyText(content) == Trim(content.value)
  {
  }

  /** Trimming the reply again changes nothing. */
  lemma ReplyIsTrimmed(content: Option<string>)
    ensures Trim(ReplyText(content)) == ReplyText(content)
  {
  }

  /**
   * Handles one request. `sent` lists the message lists handed to the
   * completion service, one per call, so `|sent|` counts the calls.
   */
  method HandleChat(body: Option<Body>, upstream: nat -> Outcome) returns (resp: Response, sent: seq<seq<Message>>)
    // a missing or empty message is refused before anything is sent
    ensures !HasMessage(body) ==> resp == Response(400, PromptForInput) && sent == []
    // past validation every failure is absorbed: never a 5xx
    ensures HasMessage(body) ==> resp.status == 200
    ensures resp.reply != ""
    // a call is made once the message list is built, and a second one only after a 429
    ensures |sent| <= 2
    ensures |sent| >= 1 <==> HasMessage(body) && RequestBuilds(Payload(body))
    ensures |sent| == 2 <==> |sent| >= 1 && upstream(0) == Failed(Some(RateLimited))
    // every call carries the same request
    ensures forall k :: 0 <= k < |sent| ==>
      HasMessage(body) && RequestBuilds(Payload(body)) && sent[k] == RequestMessages(Payload(body))
    // the reply comes from the last call when that one answered, else it is the fallback
    ensures |sent| >= 1 && upstream(|sent| - 1).Completed? ==>
      resp == Response(200, ReplyText(upstream(|sent| - 1).content))
    ensures HasMessage(body) && (|sent| == 0 || upstream(|sent| - 1).Failed?) ==>
      resp == Response(200, FriendlyFallback)
  {
    sent := [];
    var b := Payload(body);
    if !b.msg.MsgText? || b.msg.text == "" {
      resp := Response(400, PromptForInput);
      return;
    }
    var msg := b.msg.text;

    // everything from here on sits in the handler's try block
    // `toOpenAIMessages(history)` and then `${level}` may throw: the catch answers
    var window := WindowOf(b.history);
    if window.None? || b.level.None? {
      resp := Response(200, FriendlyFallback);
      return;
    }
    var messages := AssembleMessages(window.value, b.level.value, msg);
    assert messages == RequestMessages(b);

    var completion := upstream(0);
    sent := [messages];
    if completion.Failed? {
      if completion.status == Some(RateLimited) {
        completion := upstream(1);
        sent := [messages, messages];
        if completion.Failed? {
          resp := Response(200, FriendlyFallback);
          return;
        }
      } else {
        resp := Response(200, FriendlyFallback);
        return;
      }
    }

    resp := Response(200, ReplyText(completion.content));
  }
}
