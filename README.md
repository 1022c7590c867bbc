# Scientist agent turn orchestration and AnythingLLM wrapper, in Dafny

This project models the decision logic of the Virtual-Scientists agent that answers
through an AnythingLLM workspace:

- **Message normalisation** (`SciAgent.format_msg`, and the same loop at the head of
  `AnythingLLMWrapperBase.format`). A variadic argument list becomes one flat list of
  messages: `None` is skipped, a message is appended, and a list of messages only is spliced in.
  Anything else raises a `TypeError`. Module `Messages`, file `messages.dfy`.
- **A reply turn** (`SciAgent.prompt_reply`). It builds the prompt: the system line, up to
  two most recent memory entries when `use_memory` holds, then the user line when there is a
  query. It picks the mode (`"chat"` or `"query"`). It dispatches to the workspace client, or
  else to the fallback model. It attributes the reply to the agent and records it in memory
  when memory exists and `add_memory` holds. Module `SciAgentModel`, class `SciAgent`, file
  `sci_agent.dfy`.
- **A summary turn** (`SciAgent.summarize`): history lines, an instruction, and content
  lines, always sent in `"query"` mode. Memory is not touched.
- **The AnythingLLM chat wrapper** (`AnythingLLMWrapperBase.__init__`/`format`,
  `AnythingLLMChatWrapper.__init__`/`__call__`). It resolves its settings from explicit
  argument, environment or default, and fails without an API key. It renders each message as
  a role line. It builds the chat request. Module `AnythingLLMModel`, file `anythingllm_model.dfy`.

`Outcomes` (`outcomes.dfy`) holds `Option`, `Result` and the exceptions the code raises.

Each imperative source function is a Dafny `method` with the source's loops. Each method's
`ensures` ties its result (or the agent's new memory) to a specification function. The lemmas
beside those functions state the properties: ordering, inclusion and exclusion of prompt
lines, error cases, and round trips between joining and splitting lines.

External collaborators are parameters:
- The workspace client's `chat_with_workspace` is `chat: (string, string) -> Option<string>`:
  prompt and mode to the `textResponse` entry, which may be missing.
- The agent's fallback model call is `model: string -> Result<string>`.
- `requests.post` is `post: Request -> PostResult`.
- The process environment is a `map<string, string>`.

Assumptions about code that is not part of this model:
- agentscope's memory class: `get_memory(recent_n=2)` is taken to return the last
  min(2, |memory|) entries in order (`SciAgentModel.Recent`), and `memory.add` to append.
- `if self.memory` is taken to mean "the agent has a memory object" (`SciAgent.hasMemory`).
- agentscope's `Msg` is taken to default the role of `Msg(name, content)` to `"assistant"`.
- A message's content is taken to be a string (`Msg.content: string`). agentscope's `Msg`
  accepts content of any type; see "## Left out" for what that leaves unmodelled.
- `msg["content"]` (sci_agent.py:81) and `msg.content` (sci_agent.py:93, 132, 140) are taken to
  read the same field.

Behaviour of the code worth noting:
- `prompt_reply` never appends the input message to memory. Only the reply is recorded, and
  only when memory exists and `add_memory` holds.
- With `use_memory` set and no memory object, `self.memory.get_memory` raises an
  `AttributeError` (`MemoryMissing`). It is not treated as an empty memory.
- The agent's workspace client never raises (assuming, as for `Call`, that a decode error of
  `response.json()` is a `requests` exception): its errors come back as a normal
  `textResponse`. A dispatch failure can only come from the fallback model call.
- `summarize` chooses its instruction by whether a history argument was given, not whether it
  holds messages. An empty history list still gets the context-aware instruction.

## Model

| member | source | states |
|---|---|---|
| `Messages.FormatMsg` | agentscope-main/src/agentscope/agents/sci_agent.py:59-73 | the loop's result is the reference normalisation: contributions concatenated in argument order, or the TypeError of the first bad argument |
| `Messages.NormalizeSingle` | agentscope-main/src/agentscope/agents/sci_agent.py:60-71 | one argument gives nothing for `None`, itself for a message, its elements for a list of messages only, else a TypeError naming its type |
| `Messages.NormalizeAppend` | agentscope-main/src/agentscope/agents/sci_agent.py:59-73 | normalising two argument lists in sequence concatenates their results; a failure in the first list wins over the second |
| `Messages.NormalizeOkIff` | agentscope-main/src/agentscope/agents/sci_agent.py:65-71 | normalisation succeeds iff every argument is `None`, a message, or a list of messages only; one bad element rejects the whole call |
| `Messages.NormalizeErrNamesFirstRejected` | agentscope-main/src/agentscope/agents/sci_agent.py:67-71 | a failure is the TypeError of the first rejected argument, all earlier ones being accepted |
| `Messages.AbsentSkipped` | agentscope-main/src/agentscope/agents/sci_agent.py:61-62 | a `None` argument anywhere contributes nothing |
| `Messages.NormalizeMembers` | agentscope-main/src/agentscope/agents/sci_agent.py:63-66 | a message is in the result iff some argument contributes it: nothing dropped, nothing invented |
| `Messages.JoinAppend` | agentscope-main/src/agentscope/agents/sci_agent.py:98 | joining two non-empty line lists puts exactly one newline between their joins |
| `Messages.JoinFirst` | agentscope-main/src/agentscope/agents/sci_agent.py:98 | the joined text starts with the first line |
| `Messages.JoinLast` | agentscope-main/src/agentscope/agents/sci_agent.py:98 | the joined text of two or more lines is the join of all lines but the last, a newline, and the last line |
| `Messages.JoinEndsWithLast` | agentscope-main/src/agentscope/agents/sci_agent.py:98 | the joined text of several lines ends with a newline followed by the last line |
| `Messages.SplitJoin` | agentscope-main/src/agentscope/models/anythingllm_model.py:83 | splitting the join of a non-empty list of lines at newlines gives back the lines when none holds a newline itself |
| `SciAgentModel.ChatMode` | agentscope-main/src/agentscope/agents/sci_agent.py:101 | the mode is `"chat"` iff `use_RAG`, and `"query"` iff not |
| `SciAgentModel.Recent` | agentscope-main/src/agentscope/agents/sci_agent.py:91 | the recalled entries are a suffix of memory of length min(n, \|memory\|), in memory order |
| `SciAgentModel.Query` | agentscope-main/src/agentscope/agents/sci_agent.py:79-85 | no messages give the empty query; one message gives its content |
| `SciAgentModel.ReplyParts` | agentscope-main/src/agentscope/agents/sci_agent.py:88-96 | the system line comes first, then one `name: content` line per recalled entry in order, then the user line exactly when the query is non-empty |
| `SciAgentModel.AppendSenderLines` | agentscope-main/src/agentscope/agents/sci_agent.py:92-93 | the loop appends one `name: content` line per message, in order |
| `SciAgentModel.SciAgent.constructor` | agentscope-main/src/agentscope/agents/sci_agent.py:18-44 | a new agent keeps name, system prompt, client presence and description (default `""`), with empty memory |
| `SciAgentModel.SciAgent.PromptReply` | agentscope-main/src/agentscope/agents/sci_agent.py:75-121 | the result is the reply for the assembled prompt and mode; memory grows by exactly that reply when the agent has memory and `add_memory` holds, and is otherwise unchanged (also when the turn raises) |
| `SciAgentModel.SciAgent.Summarize` | agentscope-main/src/agentscope/agents/sci_agent.py:124-157 | the result is the summary reply for the summary prompt, dispatched in `"query"` mode; memory is not in its frame |
| `SciAgentModel.SummaryParts` | agentscope-main/src/agentscope/agents/sci_agent.py:127-140 | without history the plain instruction comes first; with history its lines come first, then the context-aware instruction; content lines always come last, in order |
| `SciAgentModel.ReplyPromptStartsWithSystem` | agentscope-main/src/agentscope/agents/sci_agent.py:87-98 | the prompt starts with `System: sys_prompt`; with no query and nothing recalled it is the system line alone |
| `SciAgentModel.ReplyPromptEndsWithUser` | agentscope-main/src/agentscope/agents/sci_agent.py:95-98 | when the query is non-empty the prompt ends with a newline and `User: query` |
| `SciAgentModel.RecentAfterAppend` | agentscope-main/src/agentscope/agents/sci_agent.py:91-119 | after recording an entry, the recalled entries are that entry alone, or the previously newest entry followed by it |
| `SciAgentModel.ReplyPromptIgnoresMemory` | agentscope-main/src/agentscope/agents/sci_agent.py:90-93 | with `use_memory` false the prompt does not depend on memory |
| `SciAgentModel.ReplyFailures` | agentscope-main/src/agentscope/agents/sci_agent.py:77-110 | a turn raises iff the input is malformed, memory is requested but missing, or the fallback model raises; a malformed input gives its TypeError |
| `SciAgentModel.ReplyFromClient` | agentscope-main/src/agentscope/agents/sci_agent.py:101-112 | with a client the reply is attributed to the agent and carries the client's `textResponse` (or `""`) for the prompt, in mode `"chat"` iff `use_RAG` |
| `SciAgentModel.FallbackIgnoresRag` | agentscope-main/src/agentscope/agents/sci_agent.py:101-110 | without the workspace client the reply does not depend on `use_RAG`, since only the prompt reaches the fallback model |
| `SciAgentModel.NextPromptRecallsReply` | agentscope-main/src/agentscope/agents/sci_agent.py:90-119 | a recorded reply is the last line of the next input-free prompt that recalls memory, right after the entry recorded before it |
| `SciAgentModel.FirstQuestion` | agentscope-main/src/agentscope/agents/sci_agent.py:77-101 | with empty memory, a non-empty question from a user gives exactly `"System: {sys_prompt}"`, a newline and `"User: {question}"` |
| `SciAgentModel.RecallWithoutInput` | agentscope-main/src/agentscope/agents/sci_agent.py:84-98 | with two entries and no input the prompt is the system line and both entries, in order, with no user line |
| `SciAgentModel.SummaryInstruction` | agentscope-main/src/agentscope/agents/sci_agent.py:129-135 | without a history argument the prompt opens with the plain instruction; with an empty history list it opens with the context-aware one |
| `SciAgentModel.SummaryFromClient` | agentscope-main/src/agentscope/agents/sci_agent.py:144-152 | with a client the summary is the client's text for the summary prompt in `"query"` mode, attributed to the agent |
| `AnythingLLMModel.ResolveConfig` | agentscope-main/src/agentscope/models/anythingllm_model.py:42-52 | URL, workspace and key each come from a truthy argument, else a set environment variable, else the default; construction fails iff no non-empty key results; the headers are `Bearer key` and `application/json` |
| `AnythingLLMModel.Create` | agentscope-main/src/agentscope/models/anythingllm_model.py:40-52 | construction fails with ApiKeyMissing exactly when the resolved settings fail, and otherwise yields a fresh wrapper holding them |
| `AnythingLLMModel.AnythingLLMChatWrapper.constructor` | agentscope-main/src/agentscope/models/anythingllm_model.py:117-126 | the wrapper holds the given settings, headers derived from the key, and the mode |
| `AnythingLLMModel.AnythingLLMChatWrapper.PayloadMode` | agentscope-main/src/agentscope/models/anythingllm_model.py:156-159 | the payload mode is a truthy override, else the configured mode |
| `AnythingLLMModel.AnythingLLMChatWrapper.Format` | agentscope-main/src/agentscope/models/anythingllm_model.py:54-83 | the result is the normalised arguments rendered one role line per message and joined by newlines, or the normalisation's TypeError |
| `AnythingLLMModel.AnythingLLMChatWrapper.Call` | agentscope-main/src/agentscope/models/anythingllm_model.py:148-181 | a malformed list raises its TypeError; otherwise the prompt (string as is, list formatted) is posted to `api_url/v1/workspace/slug/chat` with the headers and resolved mode; any request exception or HTTP error status becomes a RuntimeError; a missing `textResponse` gives `""` |
| `AnythingLLMModel.FormatNothing` | agentscope-main/src/agentscope/models/anythingllm_model.py:74-83 | arguments that hold no message format to the empty string |
| `AnythingLLMModel.FormatSharesNormalisation` | agentscope-main/src/agentscope/models/anythingllm_model.py:59-71 | `format` fails iff some argument is rejected, and then with the TypeError naming the first rejected argument, as the agent's `format_msg` |
| `AnythingLLMModel.RenderAppend` | agentscope-main/src/agentscope/models/anythingllm_model.py:74-83 | rendering two non-empty groups of messages joins their prompts with one newline |
| `AnythingLLMModel.RenderOneLinePerMessage` | agentscope-main/src/agentscope/models/anythingllm_model.py:74-83 | for a non-empty list of messages whose texts hold no newline, exactly one line per message, in order: `System: c`, `User: c` or `name: c` by role |

## Left out

- `SciAgent.reply` (sci_agent.py:159-232): as written it is not valid Python (a dangling `),` and
  `else:` at lines 194-197) and refers to an undefined `retrieved_docs_to_string`. It is not modelled.
- `speak` (sci_agent.py:115, 155): a logging and transcript side channel with no effect on the result.
- `_save_model_invocation`, `load_dotenv` and `logger`: record keeping and environment I/O outside the decision logic.
- `temperature` (anythingllm_model.py:97, 125): stored but never read.
- The `raw` part of `ModelResponse`: only the text is modelled.
- `AnythingLLMChatWrapper.Call`: a `textResponse` entry that is present is assumed to be a string.
  A JSON `null` there would make `.get("textResponse", "")` return `None` (anythingllm_model.py:166),
  giving `ModelResponse(text=None)`; the model cannot represent that value.
- `AnythingLLMChatWrapper.Call`: an undecodable body is assumed to raise a `requests` exception
  (as `response.json()` does in requests 2.27 and later), so it becomes the RuntimeError; with older
  versions the plain `ValueError` would escape the `except` at anythingllm_model.py:179.
- `SciAgent.PromptReply` and `SciAgent.Summarize`: the client's `textResponse` is likewise assumed to be
  a string when present. A `null` would give a reply `Msg(name, None)` (sci_agent.py:106-112, 147-152),
  record it in memory and render it as `name: None` in the next prompt; this is not modelled.
- `SciAgent.PromptReply`: an input message whose content is not a string is not modelled. With such
  content the query, which joins the input contents with newlines (sci_agent.py:80-82), raises a
  TypeError, an error path the model cannot represent; the prompt lines at sci_agent.py:93, 132, 140 and anythingllm_model.py:77-81 would render such content with `str()`.
- `AnythingLLMChatWrapper.Call`: a decoded JSON body that is not an object (where `.get` would raise
  `AttributeError`) is not modelled; the body is either undecodable or an object with or without `textResponse`.
- `AnythingLLMModel.Create`: the mode is the caller's string (the source's default, `"chat"`, is
  passed explicitly when omitted); an explicit `mode=None` is not modelled.
- `AnythingLLMWrapperBase` and its subclass become one class, because the base class only contributes
  fields and `format`.
- The HTTP transport and the agent's workspace client (sci_platform/anythingllm_client.py) are parameters.
  That client returns `{"textResponse": "Error occurred during chat", ...}` instead of raising
  (anythingllm_client.py:44-50), so the `chat` parameter always returns. This assumes, as for
  `Call`, that a body which does not decode raises a `requests` exception (requests 2.27 and
  later); with older versions its `ValueError` escapes the client's `except`.
- The setup scripts (setup_anythingllm.py, sci_platform/setup_anythingllm.py) glob files, write files,
  upload and print. Their upload success/failure counters only tally I/O results.
- agentscope's `AgentBase`, memory class and `Msg` are not part of this model; the assumptions
  made about them are listed above.
