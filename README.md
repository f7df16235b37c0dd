# OmniAgent chat demo: a verified model of chat submission and agent selection

OmniAgent's landing site has a small chat demo. The user picks one of three
agents (quality, flkh, omni) and starts a chat. Each message is posted to that
agent's HTTP endpoint. The reply body is turned into display content, and
canned text is used when the call fails. This project models that logic in
Dafny and proves what it does for every agent and every network outcome.

Modules:

- `Wrappers` (wrappers.dfy): `Option`, standing for JavaScript's `null`/`undefined`.
- `JsValue` (js_value.dfy): the values `response.json()` can decode, JavaScript
  truthiness, property access (`data.response`), and `||`.
- `JsString` (js_string.dfy): `String.prototype.trim` over ECMAScript's
  whitespace and line terminators, plus substring containment.
- `ChatInterface` (chat_interface.dfy): the welcome message, the response
  normalizer, the request each agent sends, the canned replies, and the
  `ChatSession` class. Its fields are `messages`, `input` and `isLoading`, as
  in the component's state.
- `AgentSelector` (agent_selector.dfy): the agent registry, `agents.find`, the
  render decision, the header-dot colour, and the `Selector` class. Its fields
  are `selectedAgent` and `chatStarted`.

`handleSubmit` is an `async` function, so it is split at its `await`:

- `BeginSubmit` runs the part before the network call. It appends the user
  message, clears the input and raises `isLoading`.
- `SettleSubmit` runs the part after the call. It takes the outcome and the
  text captured before the input was cleared.
- `HandleSubmit` runs the two back to back.

A network call's result is an input:

- `Ok(body)` is a 2xx status with a decoded body.
- `NotOk(status)` is any other status.
- `Thrown` is a failed fetch or a body that would not decode.

`JSON.stringify` is the uninterpreted function `stringify`. It is a constant of
the session.

Behaviours of the code worth noting:

- A decoded array is a JavaScript object. It is serialized; only `null`,
  numbers and booleans get the unexpected-format text.
- An agent id with no endpoint gets a canned acknowledgement that quotes the
  input.
- `handleSubmit` does not check `isLoading`. Only the send button is disabled
  (components/chat-interface.tsx:353). The Enter key calls the handler directly
  (lines 346-350). So `BeginSubmit` has no busy precondition, and
  `OverlappingSubmits` shows two submissions outstanding at once.
- The normalizer's `a || b || c || JSON.stringify(data)` returns whichever value
  is truthy first, whatever its type. A reply such as `{"response": 42}`
  therefore stores the number 42 as message content, so `Message.content` is a
  decoded value, not a string.
- `if (selectedAgent)` tests truthiness. An empty-string selection is treated
  like no selection (`IsSet`).

The normalizer is written out three times, identically
(components/chat-interface.tsx:88-94, 141-147 and 197-204). It is modelled once,
as `Normalize`, and all three agents use it.

The registry's colour classes are built with two helpers, `CardColor` and
`DotColor`. Their values are exactly the source's string literals.

## Model

| member | source | states |
|---|---|---|
| `JsString.TrimStart` | components/chat-interface.tsx:51 | the result is a suffix of the input, everything dropped is whitespace, and a non-empty result starts with non-whitespace |
| `JsString.TrimEnd` | components/chat-interface.tsx:51 | the result is a prefix of the input, everything dropped is whitespace, and a non-empty result ends with non-whitespace |
| `JsString.IsBlank` | components/chat-interface.tsx:51 | `!input.trim()` holds exactly when every character of the input is whitespace, including for the empty input |
| `ChatInterface.WelcomeText` | components/chat-interface.tsx:29-31 | the greeting names the agent; the team-mode clause follows it exactly when the agent id is `omni`, and it names the given mode |
| `ChatInterface.WelcomeMessage` | components/chat-interface.tsx:25-35 | the first message has id "welcome", is from the assistant and is text: the greeting by name alone for any id but omni; for omni followed by the clause naming the team mode, collaborate when none is given |
| `ChatInterface.ChatSession.constructor` | components/chat-interface.tsx:25-37 | a new chat holds exactly one assistant message with id "welcome" and the welcome text; the team mode defaults to collaborate; the input is empty and it is not loading |
| `ChatInterface.Normalize` | components/chat-interface.tsx:88-94 | a string body is kept unchanged; for an object or array the result is its first truthy `response`/`message`/`answer` property (of any type), or its serialization when none is truthy; null, numbers and booleans give the unexpected-format text |
| `ChatInterface.ArrayBodyIsSerialized` | components/chat-interface.tsx:90-91 | an array body is a JavaScript object without the candidate properties, so it is shown as its serialization, not the unexpected-format text |
| `ChatInterface.NonStringPropertyPassesThrough` | components/chat-interface.tsx:91 | `{"response": 42}` yields the number 42 as content: the chain returns the first truthy value of any type |
| `ChatInterface.EmptyPropertySkipped` | components/chat-interface.tsx:91 | `{"response": "", "message": "hi"}` yields "hi": an empty string is falsy and the next property is taken |
| `ChatInterface.RequestFor` | components/chat-interface.tsx:65-188 | a request is sent exactly for flkh, quality and omni; every payload has `query` equal to the input and `model_id` "o3-mini"; `team_mode` is present exactly for omni and carries the session's mode; the path is one of the three endpoints |
| `ChatInterface.RoutesAreDistinct` | components/chat-interface.tsx:65-188 | flkh posts to /safety/ask, quality to /quality/ask and omni to /team/ask, and the three paths differ |
| `ChatInterface.SuccessShowsNormalizedBody` | components/chat-interface.tsx:84-103 | for every networked agent, a successful call appends the normalized body |
| `ChatInterface.StatusFailureLikeThrown` | components/chat-interface.tsx:80-82 | for every agent, a non-2xx status of any value yields the same reply as a thrown error |
| `ChatInterface.FailureReply` | components/chat-interface.tsx:104-244 | on failure, flkh and quality append the fixed error text; omni appends its fallback, which contains the input in double quotes and the heading "## Analysis from Multiple Experts" |
| `ChatInterface.Reply` | components/chat-interface.tsx:65-275 | the content appended when a submission settles is text unless a networked agent's call succeeded; it does not depend on the team mode |
| `ChatInterface.FallbackText` | components/chat-interface.tsx:222-234 | the omni fallback is the fixed template with only the user's text spliced in: it opens with the coordination lead, closes with the expert-team list, and is as long as the template plus the quoted input |
| `ChatInterface.Acknowledgement` | components/chat-interface.tsx:264 | the acknowledgement is the fixed sentence with only the user's text spliced in: it opens with the thank-you lead, closes with " right away.", and is as long as the sentence plus the quoted input |
| `ChatInterface.FallbackQuotesQuery` | components/chat-interface.tsx:222-234 | the omni fallback text contains the user's text in double quotes and the multi-expert heading |
| `ChatInterface.AcknowledgementQuotesQuery` | components/chat-interface.tsx:264 | the acknowledgement for an id with no endpoint contains the user's text in double quotes |
| `ChatInterface.UnknownAgentAcknowledged` | components/chat-interface.tsx:260-275 | any id other than the three gets the acknowledgement, whatever the outcome, and the reply contains its input in double quotes |
| `ChatInterface.ChatSession.OnInputChange` | components/chat-interface.tsx:343 | typing replaces the input and changes neither the messages nor the loading flag |
| `ChatInterface.ChatSession.BeginSubmit` | components/chat-interface.tsx:48-63 | blank input changes nothing; when the send button would be enabled the submission goes ahead; otherwise one user message with the raw, untrimmed input is appended, the input becomes empty and the loading flag is raised, even when it was already raised |
| `ChatInterface.ChatSession.SettleSubmit` | components/chat-interface.tsx:65-276 | the request sent is the agent's route for the captured text; exactly one assistant message (the reply for that agent and outcome) is appended; the loading flag ends lowered; the input is untouched |
| `ChatInterface.ChatSession.HandleSubmit` | components/chat-interface.tsx:48-277 | blank input is a no-op; otherwise exactly two messages are appended, the user's raw text and then the reply; the input ends empty and the flag lowered |
| `ChatInterface.OverlappingSubmits` | components/chat-interface.tsx:346-353 | the Enter key can start a second submission while the first is pending; the first settlement lowers the loading flag while the second is still outstanding; five messages result |
| `AgentSelector.RegistryShape` | components/agent-selector.tsx:16-35 | the registry holds exactly three agents, with ids quality, flkh and omni in that order, all distinct |
| `AgentSelector.Find` | components/agent-selector.tsx:57 | finds an agent exactly when one has the id; the agent found has that id and is the first in the list with it |
| `AgentSelector.FindRegistryId` | components/agent-selector.tsx:16-57 | looking up any registry id yields that registry entry |
| `AgentSelector.IsSet` | components/agent-selector.tsx:47-56 | `if (selectedAgent)` holds exactly when the selection, read as a JavaScript value, is truthy: not null and not the empty string |
| `AgentSelector.IndicatorColor` | components/agent-selector.tsx:64 | the header dot is blue exactly for quality, green exactly for flkh, and purple exactly for every other id |
| `AgentSelector.IndicatorMatchesCard` | components/agent-selector.tsx:64 | each registry agent's header dot (blue for quality, green for flkh, purple otherwise) has the colour family of its selection card |
| `AgentSelector.Render` | components/agent-selector.tsx:56-76 | the chat view is shown exactly when the chat has started and the selection is truthy; it shows the agent whose id equals the selection, gives the chat no team mode, and fails to render only when the id is not in the registry |
| `AgentSelector.RegistrySelectionRenders` | components/agent-selector.tsx:56-89 | a selection taken from the registry items never hits the failed lookup |
| `AgentSelector.OmniChatGreetsInCollaborateMode` | components/agent-selector.tsx:73 | an omni chat started from the picker gets no team mode, so its greeting ends with the collaborate-mode clause |
| `AgentSelector.Selector.constructor` | components/agent-selector.tsx:38-39 | nothing is selected and the chat has not started |
| `AgentSelector.Selector.HandleAgentSelect` | components/agent-selector.tsx:41-44 | sets the selection to the value and always resets `chatStarted` to false, so the picker shows |
| `AgentSelector.Selector.StartChat` | components/agent-selector.tsx:46-50 | starts the chat only when the selection is truthy; otherwise nothing changes; the selection is kept; a selection taken from the registry never leads to the failed lookup |
| `AgentSelector.Selector.ResetSelection` | components/agent-selector.tsx:52-54 | clears `chatStarted` and keeps the selection, so the picker shows |

## Left out

- Network I/O is not modelled: `fetch`, the request headers, the base host and `response.json()` decoding. Each call's result is an `Outcome` input, and the payload is a `Request` record, not serialized JSON.
- `JSON.stringify` is a library call. Its output is left uninterpreted (the `stringify` parameter).
- Numbers in reply bodies are integers. Fractional and rounded-to-zero floating-point values are not modelled; the code only tests whether a number is non-zero.
- Clock, timer and locale effects are left out. The `Date.now()` message ids are opaque parameters (`userId`, `replyId`). Timestamps, `formatTime` and the 1500 ms `setTimeout` delay before the acknowledgement are not modelled; the acknowledgement is appended when `SettleSubmit` runs.
- React's state batching is not modelled: each `setState` is an immediate assignment. The functional `setMessages(prev => ...)` updates are appends to the current list, which is what React applies.
- The outer `catch` at components/chat-interface.tsx:246-256 is left out. Only `setMessages` can throw inside it, so its message is never appended in practice.
- Unmounting and remounting `ChatInterface` when the view changes is not a method here. A new `ChatSession` is built from the `ChatProps` that `Render` yields.
- Not modelled: `console` logging, scrolling, Markdown rendering of message content, and all JSX layout. They are logging, DOM effects and a foreign renderer.
- `SendEnabled` states the send button's `disabled` condition (line 353). `BeginSubmit` guarantees that a submission the button allows goes ahead; the button's rendering is UI and is not modelled.
- Strings are sequences of Unicode scalar values, while JavaScript strings are UTF-16 code units, so unpaired surrogates in input or reply text cannot be represented. No modelled behaviour depends on this: every whitespace character `trim` removes is in the Basic Multilingual Plane.
- components/agent-animation.tsx is not part of this model: canvas drawing, random particles, floating-point interpolation and animation frames.
- components/mobile-nav.tsx, app/page.tsx and app/try/page.tsx are not part of this model: static markup and one open/close toggle.
