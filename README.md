# MimiChat server: a Dafny model

A model of the request logic of the MimiChat proxy (`server.js`), which takes
chat messages from a shop widget, wraps them for an OpenAI-compatible
chat-completion service (Groq) under a fixed persona prompt, and returns the
reply. The model covers:

- the CORS `origin` callback and its allow-list (`cors.dfy`, module `Cors`);
- the conversation window `toOpenAIMessages`: the last twelve history turns,
  with role `"me"` mapped to `user` and every other role to `assistant`
  (`window.dfy`, module `Conversation`);
- `String.prototype.trim`, with the ECMAScript whitespace and line-terminator
  set written out (`trim.dfy`, module `JsString`);
- the `POST /api/mimichat` handler: body validation, assembly of the message
  list, one retry after HTTP 429, extraction of the first choice with trim and
  fallback, and the catch-all that turns every later failure into a 200 with
  the fallback reply (`mimichat.dfy`, module `MimiChat`).

The completion service is an oracle `upstream: nat -> Outcome`: `upstream(k)`
is what call number `k` (from 0) returns, either `Completed(content)` or
`Failed(status)`. `HandleChat` returns the response and `sent`, the message
list passed on each call, so `|sent|` is the number of calls made.
The request body is `Option<Body>` (`None` for a missing body, read as `{}`).
`msg` is absent, a string, or another JSON value. `history` is absent (it
defaults to `[]`), a list of turns, or a value that is not a list. On such a
value `toOpenAIMessages` throws, and the handler's catch answers 200 with the
fallback without calling the service. `level` is represented by the text it
renders to inside the template literal, or by `None` when rendering it throws.

## Model

| member | source | states |
|---|---|---|
| `Cors.Includes` | server.js:20 | `ALLOWED_ORIGINS.includes(origin)` holds exactly when the origin is an element of the list |
| `Cors.CheckOrigin` | server.js:17-22 | an origin passes iff it is absent, the empty string (falsy), or one of the allowed origins; every refusal carries "Not allowed by CORS" |
| `Cors.OnlyListedSitesPass` | server.js:10-22 | a non-empty origin passes iff it is one of the three listed sites |
| `Cors.NearMissIsRefused` | server.js:20-21 | two look-alike origins are refused: `http://localhost:3000/` and `https://animekpdtshop.com.evil.example` |
| `Conversation.RoleMapping` | server.js:56-57 | role `"me"` gives `user`, any other role gives `assistant` (so the mapping is total); the content is the turn's text |
| `Conversation.MapTurns` | server.js:55-58 | one message per turn, same length, message i made from turn i |
| `Conversation.ToOpenAIMessages` | server.js:54-59 | the window has length min(12, length of history) and message i is made from history turn length-|window|+i, so it is the last 12 turns in order |
| `Conversation.WindowHasNoSystemTurn` | server.js:56 | no window message has the system role |
| `Conversation.ShortHistoryKeptWhole` | server.js:55 | a history of at most 12 turns is kept whole |
| `Conversation.OlderTurnsForgotten` | server.js:55 | when the last 12 turns are fixed, anything before them has no effect on the window |
| `Conversation.WindowSlides` | server.js:54-59 | one more turn is appended at the end of the window, and the oldest message drops out once the window is full |
| `JsString.TrimStartIndex` | server.js:121 | the first position from i on without whitespace (or the end): everything from i up to it is whitespace |
| `JsString.TrimEndIndex` | server.js:121 | the end of the text once trailing whitespace is dropped, never before the start: everything after it is whitespace and the character before it is not |
| `JsString.Trim` | server.js:121 | the result is empty or starts and ends with a non-whitespace character |
| `JsString.TrimRemovesOnlyWhitespace` | server.js:121 | the input is whitespace, then the trimmed text, then whitespace: trim removes nothing else |
| `JsString.TrimEmptyIff` | server.js:121-123 | the text is empty after trimming iff it consisted of whitespace only |
| `JsString.TrimFixesTrimmed` | server.js:121 | a string with no whitespace at either end is unchanged by trim |
| `JsString.TrimIdempotent` | server.js:121 | trimming twice is the same as trimming once |
| `MimiChat.WindowOf` | server.js:54 | an absent history defaults to the empty window; the call throws exactly when the history is not a list; otherwise the window has at most 12 messages and none of them is a system turn |
| `MimiChat.AssembleMessages` | server.js:89-96 | the list has length window + 2: the system turn first, then the window unchanged, then one user turn whose text is `UserTurnText`, the template "Level hiện tại: {level}. Tin nhắn mới: {msg}" of server.js:94 |
| `MimiChat.OneSystemTurnFirst` | server.js:89-96 | the request holds exactly one system turn, at index 0, and ends with a user turn |
| `MimiChat.FallbackIsTrimmed` | server.js:61-62 | the fallback reply has no whitespace at either end |
| `MimiChat.ReplyText` | server.js:120-123 | the reply is never empty and never starts or ends with whitespace |
| `MimiChat.ReplyFallbackWhenBlank` | server.js:120-123 | the fallback is used iff the first choice's content is absent or whitespace only; otherwise the reply is that content trimmed |
| `MimiChat.ReplyIsTrimmed` | server.js:120-125 | trimming the reply again changes nothing |
| `MimiChat.HandleChat` | server.js:82-130 | reading a missing body as `{}` (`Payload`, server.js:84) and validating with `HasMessage` (server.js:85): missing, empty or non-string `msg`: 400 with the fixed prompt and no call; otherwise always 200 and never an empty reply; at most two calls; a call is made iff the message is valid and the message list could be built (`RequestBuilds`: neither the history nor the rendering of `level` throws); a second call iff the first failed with status 429; every call carries the same list, `RequestMessages` of the body; the reply comes from the last call when it answered, else it is the fallback |

## Left out

- Express wiring: the `/`, `/health` and `/diag` routes, JSON body parsing, `app.listen` and the port. They are framework glue with no logic of their own.
- The Groq client, the model name, `temperature`, `top_p` and `max_tokens`. The network call is replaced by the `upstream` oracle. The request parameters are passed through unchanged and play no part in any decision.
- One `upstream` oracle call stands for one `callOnce()` invocation, whatever retries the client library makes inside it on its own. The counts "at most two calls" and "one retry after 429" are about `callOnce()`.
- The 800 ms wait before the retry. It is timing only; the model records that a second call happens, not when.
- `console.error` logging and reading `GROQ_API_KEY`, `GROQ_MODEL` and `PORT` from the environment. These are I/O and configuration.
- The wording of the persona prompt `sys`. `MimiChat.SystemPrompt` is a constant whose value is left unspecified.
- Malformed history entries (a `null` entry, a non-string `role` or `text`). `Conversation.Turn` has string fields. In the source a `null` entry among the last twelve throws and is then caught as a 200 with the fallback; an older one is dropped by `slice(-12)` and never read; a non-string role maps to `assistant` like any other role that is not `"me"`.
- `MimiChat.Outcome`: a first choice whose content is a non-string truthy value makes `.trim()` throw, and the handler then answers with the fallback. The model folds this case into `Completed(None)`, which yields the same response.
- `MimiChat.Body`: how JavaScript renders `level` inside a template literal is not modelled. The field holds the rendered text, or `None` when the rendering throws (for example `{"toString": 1}`). In that case the handler answers 200 with the fallback and makes no call, as it does for a history that is not a list.
