# CarreiraTI chat turn — a Dafny model

CarreiraTI is a single-page Streamlit chat that forwards a user's question,
together with a fixed persona and the conversation so far, to a hosted
completion service (Groq) and shows the reply. The only logic in it is one
chat turn in `app.py`. This project models that turn and proves what it does
to the conversation:

- `wrappers.dfy` — `Option`, for Python's `None`.
- `client.dfy` (module `Client`) — the start-up decision: a client exists
  exactly when the API key is truthy and the constructor did not raise; which
  diagnostic is shown otherwise.
- `messages.dfy` (module `Messages`) — role/content messages, the history
  filter of the payload loop (`Filter`), the payload (`Payload`), the loop
  itself (`AssemblePayload`, proved equal to `Payload`), and what the payload
  holds: the persona first and alone among system entries, the prompt last and
  exactly once, the other stored entries in their order.
- `session.dfy` (module `Session`) — the session log
  (`st.session_state.messages`) as the class `ChatSession` with its `Turn`
  method, the pure log update `Step` it is proved against, and the log over a
  whole session (`Replay`): append-only, one or two entries per turn.

The external call is an outcome parameter: `Success(reply)`,
`Failure(exception text)` or `NoClient`; `Attempt` derives it from the
start-up `Option` client and what the service did. The persona text and the
exception texts are opaque strings; the persona is a constant field of the
session, given when the session is created.

The history filter of app.py line 211 matches on content, not on position: it
drops every stored user entry whose text equals the current prompt, not only
the entry just appended. The model keeps that behaviour.
`PayloadIsFullHistoryIff` states exactly when the payload is the whole earlier
conversation (the prompt was never asked before), and `RepeatedPromptPayload`
shows a repeated question losing its earlier user entry while the earlier
reply stays.

Two consequences of app.py as written:

- A turn without a client appends only the user entry and shows an on-screen
  error (app.py lines 237-238); the log grows by one.
- The payload leaves out every earlier user entry equal to the prompt
  (line 211), not only the one just appended.

## Model

| member | source | states |
|---|---|---|
| `Client.Init` | app.py:109-124 | a client exists iff the key is present and non-empty and construction succeeded, and it is built from that key; a notice is shown iff there is no client; the missing-key warning is shown iff the key is falsy |
| `Client.InitFailureNotice` | app.py:115-122 | a failed construction reports its own message; it is reported as a proxy problem iff a TypeError mentions "proxies"; the separate st.info reinstall notice (line 122) is shown iff the exception is not a TypeError (the proxy message of line 117 carries the hint inside its own text) |
| `Messages.Filter` | app.py:210-212 | every entry kept comes from the history and is never a user entry equal to the prompt; nothing is added |
| `Messages.AssemblePayload` | app.py:205-215 | the loop builds exactly the persona entry, then the filtered history, then the prompt's user entry |
| `Messages.FilterAppend` | app.py:210-212 | filtering distributes over concatenation, so the kept entries stay in their original relative order |
| `Messages.FilterCount` | app.py:210-212 | each message occurs in the filtered history as often as in the history, except the prompt's user entry, which never occurs |
| `Messages.FilterLength` | app.py:210-212 | the filter drops exactly the k stored copies of the prompt's user entry |
| `Messages.FilterIdentity` | app.py:210-212 | the filter leaves the history unchanged iff the history holds no user entry equal to the prompt |
| `Messages.KeepsAllWithoutPrompt` | app.py:210-212 | a history without the prompt's user entry is copied whole |
| `Messages.PayloadShape` | app.py:205-215 | the payload has at least two entries: the persona first, the prompt's user entry last, the filtered history between |
| `Messages.PromptOnce` | app.py:210-215 | the prompt's user entry occurs exactly once in the payload |
| `Messages.OthersKept` | app.py:210-212 | every other message, assistant entries equal to the prompt included, occurs as often as in the history (the persona once more) |
| `Messages.SystemOnlyFirst` | app.py:205-212 | when no system entry is stored, the first entry is the only system entry of the payload |
| `Messages.PayloadLength` | app.py:205-215 | the payload has 2 + n - k entries, n the length of the history and k the stored copies of the prompt's user entry |
| `Messages.TurnPayloadLength` | app.py:195-215 | since the prompt is appended before assembly, the payload is at most one entry longer than the history |
| `Messages.PayloadIsFullHistoryIff` | app.py:195-215 | the payload is persona + whole earlier conversation + prompt iff the prompt was never stored before as a user entry |
| `Session.Attempt` | app.py:218-240 | no client means no call; a reply is a success only with a client; the reply and the exception text are passed on unchanged |
| `Session.ChatSession.constructor` | app.py:22-24 | a new session has an empty log and keeps its persona |
| `Session.ChatSession.Turn` | app.py:193-244 | an empty input changes nothing and assembles nothing; otherwise the new log is `Step` of the old one and the payload is `Payload` over the log with the prompt appended; the log stays well formed |
| `Session.StepAppends` | app.py:193-244 | the old log is a prefix of the new; an empty input leaves it as it is; otherwise the user entry comes first, then the reply, or the error prefix and exception text, as an assistant entry: growth 2, or 1 without a client |
| `Session.StepWellFormed` | app.py:195-242 | a turn never appends a system entry or an empty user entry |
| `Session.ReplayAppends` | app.py:193-244 | over a session the log only grows at its end, by at least one and at most two entries per started turn, and stays well formed |
| `Session.ReplayWithClient` | app.py:193-242 | when every call reaches a client, each started turn adds exactly two entries, so the log grows by twice the number of turns |
| `Session.ReplayWithoutClient` | app.py:218-238 | without a client every started turn adds one user entry and the log gains no assistant entry |
| `Session.SecondTurnPayload` | app.py:205-215 | after a first exchange, a different second prompt is sent as persona, first question, first reply, second question |
| `Session.RepeatedPromptPayload` | app.py:210-212 | asking the same prompt again drops the first question from the payload and keeps its reply |

## Left out

- The Streamlit page: configuration, CSS, sidebar, title, transcript rendering, spinner, footer (app.py lines 14-107, 197-202, 233-236, 243-249). Presentation only.
- Reading the secret (line 9) and the Groq constructor are foreign calls; they are the parameters `key` and `construction` of `Client.Init`. The on-screen texts of the notices are not modelled, only which notice is shown.
- The completion call (lines 219-229), its model name, `max_tokens` and floating-point `temperature`: network I/O, replaced by the `Outcome` parameter.
- The persona text (lines 127-190): configuration data; it is an opaque string given to the session.
- The formatting of `str(e)`: the exception text is an opaque string.
- A reply whose content is `None`: the model takes every reply to be a string.
- Exceptions raised by the rendering calls inside the `try` after the reply is appended (lines 235-236) would append a second assistant entry; rendering is not modelled, so this path is not either.
