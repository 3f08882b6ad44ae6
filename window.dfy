/**
 * The conversation window of server.js (`toOpenAIMessages`): the caller's
 * chat history cut down to its last twelve turns, each turned into a
 * chat-completion message.
 */
module Conversation {

  /** One turn of the history the widget sends: who spoke (`"me"` for the customer) and what was said. */
  datatype Turn = Turn(role: string, text: string)

  /** The roles of the chat-completion message format. */
  datatype Role = System | User | Assistant

  datatype Message = Message(role: Role, content: string)

  /** How many of the most recent turns the window keeps. */
  const WindowSize: nat := 12

  /** `m.role === "me"`: the turn was written by the customer. */
  predicate IsCustomer(t: Turn) {
    t.role == "me"
  }

  /** One turn as a message: the same text, under the role the service expects. */
  function ToMessage(t: Turn): Message {
    Message(if IsCustomer(t) then User else Assistant, t.text)
  }

  /** The customer's own turns become user turns; every other role, whatever it says, an assistant turn. */
  lemma RoleMapping(t: Turn)
    ensures ToMessage(t).role == User <==> t.role == "me"
    ensures ToMessage(t).role == Assistant <==> t.role != "me"
    ensures ToMessage(t).content == t.text
  {
  }

  /** `turns.map(...)`: one message per turn, in the same order. */
  function MapTurns(turns: seq<Turn>): (ms: seq<Message>)
    ensures |ms| == |turns|
    ensures forall i :: 0 <= i < |turns| ==> ms[i] == ToMessage(turns[i])
  {
    if turns == [] then [] else [ToMessage(turns[0])] + MapTurns(turns[1..])
  }

  /**
   * The window, `history.slice(-12).map(...)`: the last `WindowSize` turns of
   * the history (all of them when there are fewer), in their order, as messages.
   */
  function ToOpenAIMessages(history: seq<Turn>): (w: seq<Message>)
    ensures |w| == if |history| < WindowSize then |history| else WindowSize
    ensures forall i :: 0 <= i < |w| ==> w[i] == ToMessage(history[|history| - |w| + i])
  {
    var start := if |history| <= WindowSize then 0 else |history| - WindowSize;
    MapTurns(history[start..])
  }

  /** No message of the window is a system turn. */
  lemma WindowHasNoSystemTurn(history: seq<Turn>)
    ensures forall i :: 0 <= i < |ToOpenAIMessages(history)| ==> ToOpenAIMessages(history)[i].role != System
  {
  }

  /** A history with at most twelve turns is carried over whole. */
  lemma ShortHistoryKeptWhole(history: seq<Turn>)
    requires |history| <= WindowSize
    ensures ToOpenAIMessages(history) == MapTurns(history)
  {
  }

  /** Once there are twelve recent turns, nothing said before them reaches the window. */
  lemma OlderTurnsForgotten(older: seq<Turn>, recent: seq<Turn>)
    requires |recent| >= WindowSize
    ensures ToOpenAIMessages(older + recent) == ToOpenAIMessages(recent)
  {
  }

  /**
   * The window slides: one more turn is appended at the end, and when the
   * window was already full its oldest message drops out.
   */
  lemma WindowSlides(history: seq<Turn>, t: Turn)
    ensures ToOpenAIMessages(history + [t]) ==
      (if |history| < WindowSize then ToOpenAIMessages(history) else ToOpenAIMessages(history)[1..])
      + [ToMessage(t)]
  {
  }
}
