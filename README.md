# career_agent in Dafny

A model of the chat assistant in `app.py`. The assistant answers visitors of
a personal website in the owner's name, "Michael Salami". It builds a system
prompt from the owner's summary and LinkedIn profile text. It talks to a chat
model that may ask for tool calls. It has two recording tools,
`record_user_details` and `record_unknown_question`, and both send a push
notification to the owner.

What is modelled:

- `Tools` (tools.dfy): the two tools and the notification each one pushes.
  Also the name registry the dispatcher looks tools up in, Python's binding
  of keyword arguments (an unexpected keyword or a missing required argument
  raises), the `json.dumps` text of the two possible results, and the two
  JSON-schema descriptors advertised to the model. The push relay is an
  `Outbox` object that only records, in order, the texts handed to it.
- `Dispatch` (dispatch.dfy): `handle_tool_call` as functions. One call is
  resolved by name and either invoked or answered with `{}`. A batch runs its
  calls left to right, and the first call that raises aborts it.
- `Conversation` (conversation.dfy): the tool-calling loop of `Me.chat` as a
  function of the opening messages and of a finite script of model
  responses. Response k is what the model returns to the k-th model call of
  the turn.
- `Agent` (agent.dfy): the `Me` class. It covers the API-key check of
  `__init__`, the profile text joined from the pages, `system_prompt`, and
  `handle_tool_call` and `chat` as methods. These methods push through the
  outbox and are proved equal to the functions above.
- `Ui` (ui.dfy): the `respond` event handler. It converts the UI transcript
  to API messages, calls `chat`, and appends the exchange to the transcript
  in place.

The model call, the push relay and the files are not modelled; what they
would supply comes in as parameters. The model's replies are the `script`
parameter. The page texts of the profile PDF, the summary text and the API
key are parameters too. A push is an entry in `Outbox.sent`.

## Model

| member | source | states |
|---|---|---|
| Tools.Outbox.Push | app.py:13-21 | a push hands exactly one text to the relay, after all earlier ones |
| Tools.RecordUserDetails | app.py:24-26 | the one notification is "Recording <name> with email <email> and notes <notes>": each part at its place and nothing after the notes; the result is `{"recorded": "ok"}` |
| Tools.DetailsNoticeIsText | app.py:25 | those placed parts determine the notification completely: it is exactly the text of the f-string |
| Tools.RecordUnknownQuestion | app.py:28-30 | one notification, "Recording " followed by exactly the question; the result is `{"recorded": "ok"}` |
| Tools.Dumps | app.py:108 | the serialised result is `{}` exactly for the empty object |
| Tools.Resolve | app.py:106 | a name resolves to a tool exactly when it is `record_user_details` or `record_unknown_question` |
| Tools.Invoke | app.py:107 | `tool(**arguments)` succeeds exactly when every argument is a parameter of the tool and every required parameter is given; an unexpected keyword raises first, otherwise the error names a missing required parameter; a success pushes one notification and returns `{"recorded": "ok"}`; the notification of `record_user_details` carries the given email, and the given name and notes or, when omitted, "Name not provided" and "not provided"; that of `record_unknown_question` reads back exactly the given question |
| Dispatch.Execute | app.py:103-107 | an unknown name yields `{}` and pushes nothing; a known name succeeds exactly when its arguments bind |
| Dispatch.RunCallsPairs | app.py:100-109 | a batch succeeds exactly when every call does; then there is one result per call, in call order, each the dumped result of its call with the call's id |
| Dispatch.RunCallsStopsAtFirstFailure | app.py:102-107 | the first call that raises aborts the batch with its error, and only the calls before it have pushed |
| Dispatch.RunCallsErrorPersists | app.py:102-107 | once a prefix of the batch has raised, the later calls are never run |
| Dispatch.RunCallsNotices | app.py:102-107 | a successful batch pushes each call's notifications, in call order |
| Dispatch.NotifiesOncePerRecording | app.py:100-109 | a successful batch pushes exactly one notification per call that names a registered tool |
| Dispatch.UnknownToolYieldsEmptyObject | app.py:106-108 | a call naming an unknown tool does not abort the batch; its result message is `{}` with its id |
| Dispatch.DescriptorsMatchRegistry | app.py:32-74 | the advertised tools are exactly the registered ones, with the same parameters and required parameters |
| Dispatch.ConformingCallSucceeds | app.py:32-74 | a call whose arguments conform to its advertised schema never raises and returns `{"recorded": "ok"}` |
| Conversation.ConverseRounds | app.py:126-137 | the loop runs the tool-call rounds at the head of the script; it stops at the first other finish reason, answering with that response's content, or at the first round whose calls raise, or when the script is used up |
| Conversation.ConverseTranscript | app.py:125-134 | the final message list is the opening messages followed by the block of each round run |
| Conversation.ConverseKeepsPrefix | app.py:125-134 | the opening messages are never changed; the loop only appends |
| Conversation.ConversePairsCalls | app.py:130-134 | every appended model message with tool calls is followed by one tool result per call, in order, each carrying the call's id |
| Conversation.ConverseGrowth | app.py:133-134 | the message list grows by one plus the number of tool calls for each round run |
| Conversation.AppendedLength | app.py:133-134 | the blocks of a sequence of successful rounds have one message plus one result per call in each round |
| Conversation.NotifiedByRounds | app.py:127-134 | the pushes of a turn are those of every round run, in order, then those made before a failing call |
| Agent.TextPages | app.py:92-95 | no page that contributes to the profile has empty text |
| Agent.ProfileTextJoinsTextPages | app.py:91-95 | the profile text is the in-order concatenation of the pages that have text; pages without text are skipped |
| Agent.ComposeEmbedsContext | app.py:120-121 | the summary and the profile stand verbatim in the prompt, each right after its heading, and the closing instruction ends it |
| Agent.SystemPromptEmbedsContext | app.py:111-122 | the system prompt of `Me` carries its summary and its profile text verbatim |
| Agent.Me.constructor | app.py:89-97 | the name is "Michael Salami" and the profile text is the join of the pages' texts |
| Agent.Me.Create | app.py:79-86 | construction fails exactly when the API key is unset or empty |
| Agent.Me.HandleToolCall | app.py:100-109 | the method pushes exactly the batch's notifications and returns the batch's results, or the error of the first call that raises |
| Agent.Me.Chat | app.py:124-137 | the run of `chat` is the loop function on the opening messages (system prompt, history, user message), and it pushes exactly the loop's notifications |
| Agent.Me.Loop | app.py:126-137 | the `while not done` loop computes the loop function and pushes its notifications |
| Ui.ApiHistory | app.py:364-369 | the converted history holds only user and assistant messages, starts with a user message, and is no longer than the transcript |
| Ui.FirstUser | app.py:368 | the index of the first user entry: no earlier entry is a user's |
| Ui.ApiHistoryIsDialogue | app.py:364-369 | the conversion keeps exactly the user and assistant entries from the first user entry on, with their roles and contents |
| Ui.ApiHistoryKeepsUserTurns | app.py:366-367 | every user message of the transcript is kept, in order, with its content |
| Ui.ExchangeIsKept | app.py:374-376 | after an exchange is appended, the next conversion ends with that user message and that reply |
| Ui.ConvertHistory | app.py:364-369 | the conversion loop computes `ApiHistory` |
| Ui.Respond | app.py:360-377 | an answered turn appends the user's message and the reply to the transcript in place and clears the textbox; a turn that raises leaves the transcript as it was |

`Tools.Resolve` stands for the `globals().get(tool_name)` lookup of
app.py:106. The registry is a function over the two tool names rather than a
`map` value.

Some functions model source code directly and carry no contract of their
own; the rows above specify them:

- `Dispatch.RunCalls` is the loop of app.py:102-108. Its rows are
  `Dispatch.RunCallsPairs`, `Dispatch.RunCallsStopsAtFirstFailure`,
  `Dispatch.RunCallsErrorPersists`, `Dispatch.RunCallsNotices` and
  `Dispatch.NotifiesOncePerRecording`. `Agent.Me.HandleToolCall` is proved
  to compute it.
- `Conversation.Converse` is the loop of app.py:126-137. Its rows are
  `Conversation.ConverseRounds`, `Conversation.ConverseTranscript`,
  `Conversation.ConverseKeepsPrefix`, `Conversation.ConversePairsCalls` and
  `Conversation.ConverseGrowth`. `Agent.Me.Loop` is proved to compute it.
- `Conversation.Notified`, the pushes made during that loop, is specified by
  `Conversation.NotifiedByRounds`. `Agent.Me.Loop` is proved to push it.
- `Agent.ProfileText` is the accumulation of app.py:91-95. It is specified
  by `Agent.ProfileTextJoinsTextPages`, and `Agent.Me.constructor` is proved
  to compute it.
- `Agent.Me.SystemPrompt` is app.py:111-122. It is specified by
  `Agent.SystemPromptEmbedsContext` and `Agent.ComposeEmbedsContext`.
- `Agent.Me.Opening` is the message list of app.py:125: the system prompt,
  the history, then the user message. `Agent.Me.Chat` starts the loop from
  it, and `Conversation.ConverseKeepsPrefix` shows the loop never changes
  it.

## Left out

- The HTTP request of `push` (app.py:13-21), the Pushover credentials and any network failure. A push is modelled as always handing its text over.
- The OpenAI client (app.py:88,128). The model's replies are the `script` parameter. The model name and the `tools` list passed along are not modelled.
- Conversation.Converse: the source calls the model until it answers, with no bound. A run that uses up its script ends as `ScriptExhausted`, and nothing is claimed about turns that would need more replies.
- Reading the PDF and the summary file, and `load_dotenv` (app.py:1-11,90-97). Page texts, summary and API key are parameters; a missing file is not modelled.
- Agent.Me.Create: the error message text of the `ValueError` is not modelled, only that one is raised.
- `json.loads` (app.py:104). Arguments are a map from names to strings; non-string JSON values and malformed JSON are not modelled.
- Tools.Resolve: `globals().get` would also find every other global of app.py (`push`, `json`, `Me`, …). Only the two tools are resolved; any other name is treated as unknown.
- The `print` logging of each tool call (app.py:105).
- A response with finish reason "tool_calls" but no tool calls, or with no choices, is not modelled. A response always has a message with a sequence of calls.
- Ui.Respond: an entry without a "role" key behaves like any other non-user, non-assistant entry. An entry without a "content" key (a `KeyError`) is not modelled; entries always carry content, possibly null.
- Ui.Respond: when `chat` raises, Gradio reports the error; the model returns `None` for the textbox and leaves the transcript unchanged.
- `clear_chat` (app.py:379-381): it only returns an empty transcript and an empty textbox to the UI.
- The Gradio layout, styling and event wiring of `create_ui` (app.py:140-358,383-398), `add_secrets.py` and `railway_start.py`.
- The tool descriptions in the JSON schemas (app.py:34-65). Only names, properties and required parameters are modelled.
