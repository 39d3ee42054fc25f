# usemorph agent side: transcript and window tools

This project models the two pure pieces of the Python agent that a
usemorph conversation is handed to.

- **The transcript** (`History`, python/run.py). The worker receives the
  conversation as an ordered list of `Message` records: kind tag, content and
  metadata. The same shape is the `Message` interface of src/trigger/agent.ts.
  `format_history_for_agent` turns that list into the text the agent reads.
  It writes one entry per event of kind `user_input`, `model_response`,
  `tool_call` or `tool_result`, ending in a newline, and drops every other
  kind. The content is copied verbatim and may itself contain newlines, so
  an entry can span several lines. The prompt puts
  that transcript first and the new user message after it. The model proves
  these facts about the transcript:
  - it distributes over concatenation and keeps history order;
  - events of an unrecognised kind contribute nothing;
  - it is empty exactly when no event has a recognised kind;
  - a single event's entry, read on its own, gives back its kind and, except
    for tool calls, its content;
  - a whole transcript is not always readable back into events: two
    different histories can give the same text.

  Metadata is a sequence of key-value pairs in insertion order, the order a
  printed Python `dict` shows. How it is printed is left open: every
  formatting function takes the printer as a parameter `showMeta`.
- **The window tools** (`WindowTools`, python/tools.py). A `Tools` value is
  bound to one conversation id when it is built. Its four operations build a
  POST to `/api/windows` with a JSON body whose `action` field names the
  command. The typed command (`WindowCommand`) and the JSON body are
  related by `EncodeBody` and `DecodeBody`, proved inverse in both
  directions. `_validate_response` becomes `ValidateResponse`: status
  codes above 299 fail, and the failure message carries the code and the
  reply text in a form that reads back exactly. `get_tools` becomes
  `GetTools`, the ordered list of the four tools.

Modules: `Wrappers` (Option), `Decimal` (decimal text of a status code and
its reader), `History`, `WindowTools`.

## Model

| member | source | states |
|---|---|---|
| History.KindOf | python/run.py:27-34 | classifying a tag loses nothing (the tag is recovered from the kind), and a kind is unrecognised exactly when the tag is none of the four compared tags |
| History.RenderEvent | python/run.py:27-34 | an event contributes nothing exactly when its tag is unrecognised; `user_input`, `model_response`, `tool_call` and `tool_result` render as `User: `, `Morph: `, `Tool call: ` (content, then the metadata text in parentheses) and `Tool result: ` entries ending in a newline |
| History.RenderIgnoresMetadata | python/run.py:27-34 | every entry except a tool-call entry is independent of the metadata and of how metadata is printed |
| History.RenderParseRoundTrip | python/run.py:27-34 | the entry of a single recognised event, read on its own, names its kind unambiguously, and for every kind but a tool call gives back the content exactly |
| History.FormatHistory | python/run.py:20-35 | the empty history formats as the empty text |
| History.FormatHistoryForAgent | python/run.py:20-35 | the source's loop, appending each event's entry to an initially empty text, computes the transcript of the whole history |
| History.FormatHistoryAppend | python/run.py:21-34 | the transcript of `a + b` is the transcript of `a` followed by the transcript of `b` |
| History.FormatHistorySingleton | python/run.py:22-34 | a one-event history formats as that event's entry |
| History.FormatHistoryAt | python/run.py:22-34 | the entry of event `i` sits between the transcript of the events before it and that of the events after it |
| History.Recognised | python/run.py:27-34 | an event is kept exactly when it occurs in the history and has a recognised kind; a history whose kinds are all recognised is kept whole |
| History.RecognisedAppend | python/run.py:22-34 | keeping the recognised events of `a + b` keeps those of `a` followed by those of `b`, so their order is preserved |
| History.FormatHistoryDropsUnrecognised | python/run.py:27-34 | removing events of unrecognised kinds leaves the transcript unchanged |
| History.FormatHistoryEmptyIff | python/run.py:20-35 | the transcript is empty if and only if no event has a recognised kind |
| History.TranscriptNotUniquelyReadable | python/run.py:27-34 | a user event `hi` followed by a model reply `ok` and a single user event `hi\nMorph: ok` are different histories with the same transcript, because content is copied verbatim |
| History.ConcatMapAppend | python/run.py:21-34 | accumulating entries left to right distributes over concatenation of the input |
| History.Prompt | python/run.py:55-59 | the prompt starts with a newline and the indentation, holds the whole transcript right after it, then the newline, indentation and `User: ` separator, then the new message, and ends with a newline and the indentation, so the message always follows the entire history |
| History.PromptExtendsEarlierTranscript | python/run.py:43-59 | extending the history keeps the earlier transcript unchanged at the start of the prompt |
| History.PromptRepeatsTrailingUserMessage | python/run.py:43-59 | if the history already ends with the new message as a user event, the prompt holds `User: ` + message + newline, then the separator, then the message again, in one adjacent stretch right after the rest of the transcript |
| Decimal.NatToDecimal | python/tools.py:72 | the decimal text of a status code is non-empty, all digits, and has no leading zero unless the code is 0 |
| Decimal.DecimalRoundTrip | python/tools.py:72 | reading back the decimal text of `n` gives `n` |
| Decimal.DecimalCanonical | python/tools.py:72 | digit text with no leading zero is exactly the text written for the number it denotes |
| Decimal.DigitSpanOfDigitsThen | python/tools.py:72 | a digit run followed by a non-digit is read as exactly that run, so the code in a failure message ends where ` with message: ` starts |
| WindowTools.EncodeBody | python/tools.py:15-62 | for each of the four dict literals, a body carries exactly the keys of its action, the command's action tag, its window tag and the given conversation id |
| WindowTools.EncodeDecodeRoundTrip | python/tools.py:15-61 | every body a tool sends reads back as the conversation and command it was built from |
| WindowTools.DecodeEncodeRoundTrip | python/tools.py:15-61 | every body the reader accepts is exactly the body of the command it reads, so bodies and commands correspond one to one |
| WindowTools.ActionTagIdentifiesKind | python/tools.py:16-57 | two commands have the same action tag if and only if they are the same kind of command |
| WindowTools.BuildRequest | python/tools.py:7-61 | every request goes to the base URL plus `/api/windows`, carries the tool set's conversation id as `chatId` and the window tag as `windowTag`, and reads back as its command |
| WindowTools.CreateWindowRequest | python/tools.py:11-23 | `create_window` posts to `/api/windows` the keys `action`=`create`, `windowTag`, `srcdoc`, `title` and `chatId`, with the arguments passed through unchanged |
| WindowTools.CreateWindowDefaultTitle | python/tools.py:11-19 | leaving out the title sends `""` as the title |
| WindowTools.CloseWindowRequest | python/tools.py:27-36 | `close_window` posts the keys `action`=`close`, `windowTag` and `chatId` |
| WindowTools.MinimizeWindowRequest | python/tools.py:40-49 | `minimize_window` posts the keys `action`=`minimize`, `windowTag` and `chatId` |
| WindowTools.ReplaceSrcInWindowRequest | python/tools.py:53-64 | `replace_src_in_window` posts `action`=`replace_src` with its second argument under `newSrc` and its third under `oldSrc` |
| WindowTools.FailureMessageRoundTrip | python/tools.py:72 | a failure message gives back exactly the status code and reply text it was built from |
| WindowTools.ParseFailureMessageExact | python/tools.py:72 | every message the reader accepts is exactly the failure message of the code and text it reads, so a zero-padded code or any other variation is rejected |
| WindowTools.SuccessMessageIsNotFailure | python/tools.py:72-77 | the success message never reads as a failure message |
| WindowTools.ValidateResponse | python/tools.py:68-78 | status is `failure` exactly when the code is above 299 and `success` exactly when it is 299 or below; success carries `Tool executed successfully.`; a failure message embeds the code and the reply text recoverably |
| WindowTools.Invoke | python/tools.py:11-66 | a tool call's outcome is failure exactly when the reply to its request has a code above 299 and success exactly when it is 299 or below; success carries `Tool executed successfully.` and failure a message that reads back as the reply's code and text |
| WindowTools.GetTools | python/tools.py:80-86 | four tools, each bound to the tool set's conversation, pairwise distinct, covering every tool, named `create_window`, `close_window`, `minimize_window`, `replace_src_in_window` in that order, with the action tags create, close, minimize, replace_src |
| WindowTools.ToolNamesDistinct | python/tools.py:80-86 | two tools have the same name if and only if they are the same tool |

## Left out

- HTTP: the POST of python/tools.py is the parameter `post` of `Invoke`. Only the reply's status code and text are modelled.
- WindowTools.Invoke: `post` is a total function, so every modelled tool call ends in an outcome. In the source, `requests.post` (python/tools.py:13, 28, 41, 54) can raise, for example on a refused connection, or block without a timeout. The tool method then returns no `{status, message}`. Those paths are not modelled.
- Environment and headers: the `API_BASE_URL` lookup and its default become the `baseUrl` field of `Tools`. The `x-api-key` header read from `COMMS_API_KEY` is not modelled.
- The `print` calls in `create_window` and `run_conversation` are output only and are not modelled.
- `FunctionTool` wrapping: a listed tool is modelled as the tool kind plus the conversation it is bound to. How the agent library derives a tool's schema is not modelled.
- `run_conversation` beyond building the prompt: the session service, the runner and response streaming are calls into the agent library.
- Metadata printing: Python's `dict` repr is the parameter `showMeta`. Metadata is modelled as string pairs kept in insertion order. Non-string values are not modelled, and nothing rules out a repeated key, which a `dict` cannot hold.
- `RunResult` (python/run.py:14-17) is declared but not built by any modelled code.
- Request bodies are maps from string keys to string values. A reply is its status code and text. The dict a tool returns is the record `ToolOutcome`. The JSON serialisation itself is not modelled.
- The four tool methods are not modelled one by one: each is its request builder followed by `Invoke`.
- Status codes are unbounded integers; `ValidateResponse` only writes a code out in decimal when it is above 299, so negative codes never reach the decimal writer.
- Message submission in app/chat/[id]/actions.ts and the task wrapper in src/trigger/agent.ts: database reads and writes, authentication and the task queue. Only the `Message` record shape they pass to the agent is modelled.
- python/traffic_generator.py and python/test_agent.py: scripts that drive a live agent concurrently or by hand. They have no pure logic to model.
