# Chatbot with context memory: a Dafny model of the conversation log

The chatbot keeps one session object, `ChatbotWithMemory`. It holds:

- an ordered log of turns (`conversation_history`, a list of `{role, parts}` messages);
- a handle on a remote chat (`chat`).

Each user message goes through `get_response`:

1. The user turn is appended to the log.
2. If no chat handle exists (the first message, or the first after a clear), the session renders the last six messages of the log as context text. It sends that text plus the input to the remote model with `generate_content`, then opens a chat handle with `start_chat`.
3. If a handle exists, the input goes to `send_message` and the log is not consulted.
4. On success, the reply is appended as a model turn and returned.
5. Any failure is returned as the text `"Error getting response: " + message`. The user turn stays in the log and no model turn is added.

`clear_memory` empties the log and drops the handle.

The project is made of two modules:

- `conversation.dfy`, module `Conversation`. It holds messages (`Msg`), Python's `history[-6:]` slice (`SliceFrom`, `Window`) and the rendered context text. The context text has a functional specification (`RenderLines`, `FormatHistory`) and lemmas about it: the line structure, the number of lines, older messages having no influence, and the window ending with the newest message.
- `chatbot.dfy`, module `Chatbot`. It holds:
  - the remote calls (`Call`), modelled as a function from calls to outcomes (`Remote`);
  - the choice of calls made for one request (`Exchange`, `Prompt`);
  - the log bookkeeping of one request (`Record`, `Submit`);
  - sequences of requests (`Run`), with lemmas on growth, order, alternation, well-formedness and the chat handle;
  - the class `ChatbotWithMemory`. Its methods `GetResponse`, `FormatConversationHistory` (the accumulating loop) and `ClearMemory` are proved against those functions.

Consequences of the code's order of steps that the model keeps:

- The user turn is appended before the window is rendered (abhi.py:33, 40). So the window holds at most five earlier turns and ends with the current input, and the first prompt carries the input twice: once as the window's last line and once after it (`FirstPromptShape`, `PromptAfterClear`).
- For the same reason, `get_response` never sends the sentence "This is the start of the conversation.". That sentence is only the result of formatting an empty log (`FormatHistory`).
- N requests give 2N log entries only when every request is answered (`RunAllAnswered`, `EmptyRunAlternates`). In general the log grows by one turn per request plus one per answer (`RunGrowth`).
- On the first request, `self.chat` is set by `start_chat` (abhi.py:43) before the response's text is read (abhi.py:46). When that read raises, the session keeps the chat handle with only the user turn logged, and the next request goes to `send_message` (`FirstRequestPaths`).

## Model

| member | source | states |
|---|---|---|
| Conversation.SliceFrom | abhi.py:59 | Python's `s[start:]` with a negative start keeps the last min(-start, len) elements and is a suffix of `s` |
| Conversation.Window | abhi.py:59 | the rendered messages are the suffix of the log of length min(6, len(log)) |
| Conversation.FormatHistory | abhi.py:53-62 | the context text is "This is the start of the conversation." exactly when the log is empty; otherwise it starts with "Previous conversation:\n" |
| Conversation.RenderLinesAppend | abhi.py:59-61 | the accumulated text of a concatenation of messages is the text of the first part followed by that of the second |
| Conversation.RenderLinesAt | abhi.py:59-61 | the i-th message gets its own line, "User: "/"AI: " + text + "\n", after the lines of the messages before it and before those after it, in log order |
| Conversation.LineIsOneLine | abhi.py:60-61 | a message whose text has no newline is rendered as exactly one line |
| Conversation.RenderLinesCount | abhi.py:59-61 | single-line messages give exactly one line each |
| Conversation.FormatHistoryLineCount | abhi.py:58-61 | for a non-empty log of single-line texts the context text is the header followed by exactly min(6, len(log)) lines |
| Conversation.FormatHistoryIgnoresOlder | abhi.py:59 | messages older than the last six do not change the context text |
| Conversation.FormatHistoryEndsWith | abhi.py:58-61 | formatting a log that ends with message m gives the header, then the last min(5, earlier) earlier messages in order, then m's line |
| Chatbot.Record | abhi.py:29-51 | one request: the old log is an unchanged prefix; the user turn is appended; on success the model turn with the reply is appended too (growth 2) and the reply is returned; on failure the growth is 1 and the result is "Error getting response: " + message; afterwards a handle is held exactly when one was held before or the request started a chat, whether or not the text could be read |
| Chatbot.WithChatPaths | abhi.py:36-51 | with a handle: the handle is kept; if `send_message` raises, or reading its text raises, only the user turn is logged and the error text carries that exception's message; otherwise user turn and reply are logged and the reply returned |
| Chatbot.FirstRequestPaths | abhi.py:38-51 | without a handle: if `generate_content` raises, or then `start_chat` raises, only the user turn is logged, no handle is held and the error text carries that call's message; once both returned the handle is held, and the generated text is logged and returned, or, when reading it raises, only the user turn is logged and the error is returned |
| Chatbot.AnsweredHoldsHandle | abhi.py:36-48 | a request whose reply text was read leaves the session holding a chat handle |
| Chatbot.RecordKeepsWellFormed | abhi.py:33-46 | a request keeps the log well formed: only roles "user" and "model" occur, every model turn directly follows a user turn, and a handle exists only when the log holds at least one turn |
| Chatbot.Run | abhi.py:29-51 | a sequence of requests gives one reply per request and keeps the initial log as a prefix |
| Chatbot.RunGrowth | abhi.py:33-46 | after a sequence of requests the log has grown by the number of requests plus the number answered |
| Chatbot.RunAllAnswered | abhi.py:33-48 | when every request is answered, the log grows by 2N turns: request i's user turn, then its reply as a model turn, in request order |
| Chatbot.EmptyRunAlternates | abhi.py:33-48 | from an empty log, N answered requests leave exactly 2N turns alternating user, model |
| Chatbot.RunKeepsWellFormed | abhi.py:29-51 | well-formedness of the log holds after any sequence of requests |
| Chatbot.ChatHandleKept | abhi.py:36-43 | once a chat handle is held, no request drops it; only a clear does |
| Chatbot.WithChatLogIgnored | abhi.py:36-37 | with a chat handle the reply and the turns added do not depend on the log, only on what send_message(input) returns |
| Chatbot.FirstPromptShape | abhi.py:38-41 | without a chat handle the prompt is the header, the last min(5, len) earlier turns, the line "User: " + input, then "\n\nUser: " + input |
| Chatbot.PromptAfterClear | abhi.py:38-42 | after a clear the prompt is "Previous conversation:\nUser: " + input + "\n\n\nUser: " + input |
| Chatbot.ChatbotWithMemory.constructor | abhi.py:25 | a new session has an empty log and no chat handle |
| Chatbot.ChatbotWithMemory.GetResponse | abhi.py:29-51 | the new log, handle and returned text are exactly those of `Submit`; the log invariant is kept |
| Chatbot.ChatbotWithMemory.FormatConversationHistory | abhi.py:53-62 | the accumulating loop returns the context text `FormatHistory` of the current log and changes nothing |
| Chatbot.ChatbotWithMemory.ClearMemory | abhi.py:64-68 | afterwards the log is empty and no handle is held, whatever the state before; a second call leaves the same state (idempotent) |

`Label` (abhi.py:60), `Line` (abhi.py:61), `RenderLines` (abhi.py:59-61), `Exchange` (abhi.py:36-46), `Prompt` (abhi.py:40-41) and `Submit` (abhi.py:29-51) carry no contract of their own:

- `Label` is the role label: "User" for the role "user" and "AI" for any other role.
- `Line` is the line rendered for one message: its label, ": ", its text and a newline.
- `RenderLines` is the accumulating loop in functional form: the lines of the messages, in order.

- `Exchange` is the choice of remote calls: `send_message(input)` with a handle, otherwise `generate_content(prompt)` followed by `start_chat()`, then the read of the response's text. It gives whether a chat was started and the reply text or the first exception's message.
- `Prompt` is the first-message prompt.
- `Submit` is `Record` applied to the outcome of `Exchange`.

The lemmas above state their properties.

## Left out

- `main()` and every Streamlit call (abhi.py:70-167): page layout, sidebar, chat widgets, `st.session_state`, the parallel display list of messages and the three-message, fifty-character preview. These are presentation only.
- Configuration in `__init__` (abhi.py:12-22, 27): reading `GOOGLE_API_KEY`, `genai.configure`, the model name, and the `st.error`/`st.stop`/`st.success` calls. These are environment and UI I/O.
- The remote SDK (`generate_content`, `start_chat`, `send_message`): the network and the remote chat's own server-side history are not modelled. Each call is a `Call` answered by a `Remote` function with a `CallResult`: the call raises (`Raised(message)`) or returns a response (`Returned`), and reading that response's `text` gives `Success(text)` or `Failure(message)`.
- Exceptions: an exception in the `try` block (abhi.py:31-51) is either `Raised(str(e))` of the remote call that raised it or `Failure(str(e))` of the read of the response's `text`; the first one raised ends the request. Which exception classes occur, and `str(e)` itself, are the SDK's and are taken as given.
- Chatbot.Run: describes a request by whether it started a chat and the outcome of its remote calls (`RequestResult`), not by the calls themselves. So the multi-request lemmas hold for any answers and do not say which call produced them.
- `self.chat`: modelled as the boolean `hasChat`. A missing attribute (before the first request) and `None` (after a clear) are both `false`.
- `parts`: the code only ever stores one-part messages and reads `parts[0]`, so `Msg` holds a single text.
- list_modules.py is not part of this model. It is a one-shot script that prints what the remote model-listing call returns.
