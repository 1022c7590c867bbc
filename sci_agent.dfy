/**
  The scientist agent's turn orchestration: assemble a prompt from the system prompt,
  the recent memory and the current input, pick the AnythingLLM mode, dispatch to the
  workspace client or to the fallback model, and record the reply in memory.
 */
module SciAgentModel {
  import opened Outcomes
  import opened Messages

  /** Number of memory entries a reply prompt recalls (`get_memory(recent_n=2)`). */
  const RecentN: nat := 2

  /** Role of the reply message; agentscope's `Msg` default, assumed here. */
  const ReplyRole := "assistant"

  const ContextInstruction := "System: Based on the context above, summarize the following content in a concise manner, capturing the key points of the content and any important decisions or actions discussed. Do not summarize repeated content which is already existed in the context above!"
  const PlainInstruction := "System: Summarize the following content in a concise manner, capturing the key points of the content and any important decisions or actions discussed."

  /** The AnythingLLM mode of a reply: retrieval-augmented `"chat"` or retrieval-free `"query"`. */
  function ChatMode(useRag: bool): (mode: string)
    ensures mode == "chat" <==> useRag
    ensures mode == "query" <==> !useRag
  {
    if useRag then "chat" else "query"
  }

  /**
    The most recent `n` memory entries in memory order (agentscope's
    `get_memory(recent_n=n)`, assumed to keep the last min(n, |memory|) entries).
   */
  function Recent(memory: seq<Msg>, n: nat): (r: seq<Msg>)
    ensures |r| == if n < |memory| then n else |memory|
    ensures memory == memory[..|memory| - |r|] + r
  {
    memory[|memory| - (if n < |memory| then n else |memory|)..]
  }

  function SystemLine(sys: string): string { "System: " + sys }

  function UserLine(query: string): string { "User: " + query }

  /** A message rendered as `"{name}: {content}"`. */
  function SenderLine(m: Msg): string { m.name + ": " + m.content }

  function SenderLines(ms: seq<Msg>): (r: seq<string>)
    ensures |r| == |ms| && forall i :: 0 <= i < |ms| ==> r[i] == SenderLine(ms[i])
  {
    seq(|ms|, i requires 0 <= i < |ms| => SenderLine(ms[i]))
  }

  /** The contents of the input messages joined by newlines. */
  function Query(ms: seq<Msg>): (q: string)
    ensures ms == [] ==> q == ""
    ensures |ms| == 1 ==> q == ms[0].content
  {
    Join(seq(|ms|, i requires 0 <= i < |ms| => ms[i].content))
  }

  /** The query of a reply: empty without input, else the joined contents of the normalised input. */
  function ReplyQuery(x: Arg): Result<string> {
    if x.Absent? then Ok("")
    else match Normalize([x])
      case Err(e) => Err(e)
      case Ok(ms) => Ok(Query(ms))
  }

  /** The prompt lines of a reply: the system line, one line per recalled entry, then the user line. */
  function ReplyParts(sys: string, recalled: seq<Msg>, query: string): (p: seq<string>)
    ensures |p| == 1 + |recalled| + (if query == "" then 0 else 1)
    ensures p[0] == SystemLine(sys)
    ensures forall i :: 0 <= i < |recalled| ==> p[1 + i] == SenderLine(recalled[i])
    ensures query != "" ==> p[|p| - 1] == UserLine(query)
  {
    [SystemLine(sys)] + SenderLines(recalled) + (if query == "" then [] else [UserLine(query)])
  }

  /** The entries that a reply prompt recalls. */
  function Recalled(memory: seq<Msg>, useMemory: bool): seq<Msg> {
    if useMemory then Recent(memory, RecentN) else []
  }

  /** The prompt of `prompt_reply`, or the exception raised before dispatch. */
  function ReplyPrompt(sys: string, memory: seq<Msg>, hasMemory: bool, x: Arg, useMemory: bool): Result<string> {
    match ReplyQuery(x)
    case Err(e) => Err(e)
    case Ok(q) =>
      if useMemory && !hasMemory then Err(MemoryMissing)
      else Ok(Join(ReplyParts(sys, Recalled(memory, useMemory), q)))
  }

  /** The response text: the client's `textResponse` (or `""`), or else the fallback model's text. */
  function Dispatch(hasClient: bool, chat: (string, string) -> Option<string>,
                    model: string -> Result<string>, prompt: string, mode: string): Result<string>
  {
    if hasClient then Ok(chat(prompt, mode).GetOr("")) else model(prompt)
  }

  /** The outcome of `prompt_reply`: the agent's reply message or the exception it raises. */
  function Reply(name: string, sys: string, hasClient: bool, hasMemory: bool, memory: seq<Msg>,
                 x: Arg, useRag: bool, useMemory: bool,
                 chat: (string, string) -> Option<string>, model: string -> Result<string>): Result<Msg>
  {
    match ReplyPrompt(sys, memory, hasMemory, x, useMemory)
    case Err(e) => Err(e)
    case Ok(prompt) =>
      match Dispatch(hasClient, chat, model, prompt, ChatMode(useRag))
      case Err(e) => Err(e)
      case Ok(text) => Ok(Msg(name, text, ReplyRole))
  }

  /** The summarised history: `None` when no history argument is given. */
  function SummaryHistory(history: Arg): Result<Option<seq<Msg>>> {
    if history.Absent? then Ok(None)
    else match Normalize([history])
      case Err(e) => Err(e)
      case Ok(ms) => Ok(Some(ms))
  }

  /** The history lines followed by the instruction that fits them. */
  function SummaryHead(history: Option<seq<Msg>>): seq<string> {
    match history
    case None => [PlainInstruction]
    case Some(h) => SenderLines(h) + [ContextInstruction]
  }

  /** The prompt lines of `summarize`: history lines, the instruction, then the content lines. */
  function SummaryParts(history: Option<seq<Msg>>, content: seq<Msg>): (p: seq<string>)
    ensures history.None? ==> |p| == 1 + |content| && p[0] == PlainInstruction
    ensures history.None? ==> forall j :: 0 <= j < |content| ==> p[1 + j] == SenderLine(content[j])
    ensures history.Some? ==> |p| == |history.value| + 1 + |content|
    ensures history.Some? ==> forall i :: 0 <= i < |history.value| ==> p[i] == SenderLine(history.value[i])
    ensures history.Some? ==> p[|history.value|] == ContextInstruction
    ensures history.Some? ==> forall j :: 0 <= j < |content| ==>
              p[|history.value| + 1 + j] == SenderLine(content[j])
  {
    SummaryHead(history) + SenderLines(content)
  }

  /** The prompt of `summarize`, or the TypeError of the history or of the content. */
  function SummaryPrompt(history: Arg, content: Arg): Result<string> {
    match SummaryHistory(history)
    case Err(e) => Err(e)
    case Ok(h) =>
      match Normalize([content])
      case Err(e) => Err(e)
      case Ok(c) => Ok(Join(SummaryParts(h, c)))
  }

  /** The outcome of `summarize`: always dispatched in `"query"` mode. */
  function Summary(name: string, hasClient: bool, history: Arg, content: Arg,
                   chat: (string, string) -> Option<string>, model: string -> Result<string>): Result<Msg>
  {
    match SummaryPrompt(history, content)
    case Err(e) => Err(e)
    case Ok(prompt) =>
      match Dispatch(hasClient, chat, model, prompt, "query")
      case Err(e) => Err(e)
      case Ok(text) => Ok(Msg(name, text, ReplyRole))
  }

  /** The loop that appends one `name: content` line per message, in order. */
  method AppendSenderLines(parts: seq<string>, msgs: seq<Msg>) returns (out: seq<string>)
    ensures out == parts + SenderLines(msgs)
  {
    out := parts;
    var i := 0;
    while i < |msgs|
      invariant 0 <= i <= |msgs|
      invariant out == parts + SenderLines(msgs[..i])
    {
      assert SenderLines(msgs[..i + 1]) == SenderLines(msgs[..i]) + [SenderLine(msgs[i])];
      out := out + [SenderLine(msgs[i])];
      i := i + 1;
    }
    assert msgs[..i] == msgs;
  }

  /** The scientist agent; its memory is the only state a turn changes. */
  class SciAgent {
    const name: string
    const sysPrompt: string
    const description: string
    /** Whether an AnythingLLM client was passed to the constructor. */
    const hasClient: bool
    /** Whether the agentscope base class gave the agent a memory object. */
    const hasMemory: bool
    /** The entries of the memory object, oldest first. */
    var memory: seq<Msg>

    /**
      A new agent with empty memory. `description` is `None` when the keyword is omitted, which
      gives `""`; an explicit `description=None`, which the source keeps as `None`, is not
      distinguished, as the field is never read.
     */
    constructor (name: string, sysPrompt: string, hasClient: bool, hasMemory: bool, description: Option<string>)
      ensures this.name == name && this.sysPrompt == sysPrompt
      ensures this.hasClient == hasClient && this.hasMemory == hasMemory
      ensures this.description == description.GetOr("")
      ensures memory == []
    {
      this.name := name;
      this.sysPrompt := sysPrompt;
      this.hasClient := hasClient;
      this.hasMemory := hasMemory;
      this.description := description.GetOr("");
      memory := [];
    }

    /**
      `prompt_reply`: the reply is attributed to the agent, and it becomes the newest memory
      entry when memory exists and `addMemory` holds; the input is never recorded, and a turn
      that raises leaves memory as it was.
     */
    method PromptReply(x: Arg, useRag: bool, addMemory: bool, useMemory: bool,
                       chat: (string, string) -> Option<string>, model: string -> Result<string>)
      returns (r: Result<Msg>)
      modifies this
      ensures r == Reply(name, sysPrompt, hasClient, hasMemory, old(memory), x, useRag, useMemory, chat, model)
      ensures memory == if r.Ok? && hasMemory && addMemory then old(memory) + [r.value] else old(memory)
    {
      var query := "";
      if !x.Absent? {
        var msgs := FormatMsg([x]);
        if msgs.Err? {
          return Err(msgs.error);
        }
        query := Query(msgs.value);
      }

      var promptParts := [SystemLine(sysPrompt)];
      if useMemory {
        if !hasMemory {
          return Err(MemoryMissing);
        }
        promptParts := AppendSenderLines(promptParts, Recent(memory, RecentN));
      }
      assert promptParts == [SystemLine(sysPrompt)] + SenderLines(Recalled(memory, useMemory));
      if query != "" {
        promptParts := promptParts + [UserLine(query)];
      }
      assert promptParts == ReplyParts(sysPrompt, Recalled(memory, useMemory), query);
      var prompt := Join(promptParts);
      assert ReplyQuery(x) == Ok(query);
      assert Ok(prompt) == ReplyPrompt(sysPrompt, memory, hasMemory, x, useMemory);

      var chatMode := ChatMode(useRag);
      var responseText: string;
      if hasClient {
        responseText := chat(prompt, chatMode).GetOr("");
      } else {
        var response := model(prompt);
        if response.Err? {
          return Err(response.error);
        }
        responseText := response.value;
      }

      var msg := Msg(name, responseText, ReplyRole);
      if hasMemory && addMemory {
        memory := memory + [msg];
      }
      r := Ok(msg);
    }

    /** `summarize`: history lines, instruction, content lines, dispatched in `"query"` mode. */
    method Summarize(history: Arg, content: Arg,
                     chat: (string, string) -> Option<string>, model: string -> Result<string>)
      returns (r: Result<Msg>)
      ensures r == Summary(name, hasClient, history, content, chat, model)
    {
      var promptParts: seq<string> := [];
      ghost var h: Option<seq<Msg>> := None;
      if !history.Absent? {
        var historyMsgs := FormatMsg([history]);
        if historyMsgs.Err? {
          return Err(historyMsgs.error);
        }
        h := Some(historyMsgs.value);
        promptParts := AppendSenderLines(promptParts, historyMsgs.value);
        promptParts := promptParts + [ContextInstruction];
      } else {
        promptParts := promptParts + [PlainInstruction];
      }
      assert SummaryHistory(history) == Ok(h);
      assert promptParts == SummaryHead(h);

      var c: seq<Msg> := [];
      if !content.Absent? {
        var contentMsgs := FormatMsg([content]);
        if contentMsgs.Err? {
          return Err(contentMsgs.error);
        }
        c := contentMsgs.value;
        promptParts := AppendSenderLines(promptParts, c);
      } else {
        NormalizeSingle(content);
        assert promptParts == promptParts + SenderLines(c);
      }
      assert Normalize([content]) == Ok(c);
      assert promptParts == SummaryParts(h, c);
      var prompt := Join(promptParts);
      assert SummaryPrompt(history, content) == Ok(prompt);

      var responseText: string;
      if hasClient {
        responseText := chat(prompt, "query").GetOr("");
      } else {
        var response := model(prompt);
        if response.Err? {
          return Err(response.error);
        }
        responseText := response.value;
      }
      r := Ok(Msg(name, responseText, ReplyRole));
    }
  }

  // Properties of a turn.

  /** The reply prompt starts with the system line, and is that line alone without query and recalled entries. */
  lemma ReplyPromptStartsWithSystem(sys: string, memory: seq<Msg>, hasMemory: bool, x: Arg, useMemory: bool)
    requires ReplyPrompt(sys, memory, hasMemory, x, useMemory).Ok?
    ensures ReplyQuery(x).Ok?
    ensures SystemLine(sys) <= ReplyPrompt(sys, memory, hasMemory, x, useMemory).value
    ensures ReplyQuery(x).value == "" && Recalled(memory, useMemory) == [] ==>
              ReplyPrompt(sys, memory, hasMemory, x, useMemory).value == SystemLine(sys)
  {
    var parts := ReplyParts(sys, Recalled(memory, useMemory), ReplyQuery(x).value);
    assert ReplyPrompt(sys, memory, hasMemory, x, useMemory).value == Join(parts);
    JoinFirst(parts);
  }

  /** The reply prompt ends with a newline and the user line whenever the query is non-empty. */
  lemma ReplyPromptEndsWithUser(sys: string, memory: seq<Msg>, hasMemory: bool, x: Arg, useMemory: bool)
    requires ReplyPrompt(sys, memory, hasMemory, x, useMemory).Ok?
    requires ReplyQuery(x).Ok? && ReplyQuery(x).value != ""
    ensures var p, u := ReplyPrompt(sys, memory, hasMemory, x, useMemory).value, UserLine(ReplyQuery(x).value);
            |u| < |p| && p[|p| - |u| - 1..] == "\n" + u
  {
    var u := UserLine(ReplyQuery(x).value);
    var parts := ReplyParts(sys, Recalled(memory, useMemory), ReplyQuery(x).value);
    var p := ReplyPrompt(sys, memory, hasMemory, x, useMemory).value;
    assert p == Join(parts);
    JoinLast(parts);
    var front := Join(parts[..|parts| - 1]);
    assert p == front + ("\n" + u);
    assert p[|front|..] == "\n" + u;
  }

  /** Without `useMemory` the reply prompt does not depend on memory at all. */
  lemma ReplyPromptIgnoresMemory(sys: string, m1: seq<Msg>, h1: bool, m2: seq<Msg>, h2: bool, x: Arg)
    ensures ReplyPrompt(sys, m1, h1, x, false) == ReplyPrompt(sys, m2, h2, x, false)
  {
  }

  /**
    A reply fails only with a TypeError of the input, with an AttributeError when memory is
    requested but missing, or with the fallback model's exception; the workspace client never fails it.
   */
  lemma ReplyFailures(name: string, sys: string, hasClient: bool, hasMemory: bool, memory: seq<Msg>,
                      x: Arg, useRag: bool, useMemory: bool,
                      chat: (string, string) -> Option<string>, model: string -> Result<string>)
    ensures Reply(name, sys, hasClient, hasMemory, memory, x, useRag, useMemory, chat, model).Err? <==>
      (!Accepted(x) || (useMemory && !hasMemory) ||
       (ReplyPrompt(sys, memory, hasMemory, x, useMemory).Ok? && !hasClient &&
        model(ReplyPrompt(sys, memory, hasMemory, x, useMemory).value).Err?))
    ensures !Accepted(x) ==>
      Reply(name, sys, hasClient, hasMemory, memory, x, useRag, useMemory, chat, model) == Err(TypeMismatch(TypeName(x)))
  {
    NormalizeSingle(x);
  }

  /**
    With the workspace client the reply is its text for the assembled prompt, in mode
    `"chat"` exactly when `useRag`; the reply is always attributed to the agent.
   */
  lemma ReplyFromClient(name: string, sys: string, hasMemory: bool, memory: seq<Msg>,
                        x: Arg, useRag: bool, useMemory: bool,
                        chat: (string, string) -> Option<string>, model: string -> Result<string>)
    requires ReplyPrompt(sys, memory, hasMemory, x, useMemory).Ok?
    ensures var r := Reply(name, sys, true, hasMemory, memory, x, useRag, useMemory, chat, model);
            var prompt := ReplyPrompt(sys, memory, hasMemory, x, useMemory).value;
            r.Ok? && r.value.name == name &&
            r.value.content == chat(prompt, if useRag then "chat" else "query").GetOr("")
  {
  }

  /**
    Without the workspace client `use_RAG` has no effect: the fallback model gets only the
    prompt, so the reply is the same whichever mode was selected.
   */
  lemma FallbackIgnoresRag(name: string, sys: string, hasMemory: bool, memory: seq<Msg>,
                           x: Arg, useMemory: bool,
                           chat: (string, string) -> Option<string>, model: string -> Result<string>)
    ensures Reply(name, sys, false, hasMemory, memory, x, true, useMemory, chat, model)
         == Reply(name, sys, false, hasMemory, memory, x, false, useMemory, chat, model)
  {
  }

  /** Recording an entry makes it the newest recalled one, after the entry recorded before it. */
  lemma RecentAfterAppend(memory: seq<Msg>, reply: Msg)
    ensures Recent(memory + [reply], RecentN) ==
      if memory == [] then [reply] else [memory[|memory| - 1], reply]
  {
    var m := memory + [reply];
    if memory == [] {
      assert Recent(m, RecentN) == m[0..];
    } else {
      assert Recent(m, RecentN) == m[|m| - 2..];
      assert m[|m| - 2..] == [m[|m| - 2], m[|m| - 1]];
    }
  }

  /**
    A reply that was recorded shows up as the last line of the next prompt that recalls
    memory and has no input, right after the entry recorded before it (if any).
   */
  lemma NextPromptRecallsReply(sys: string, memory: seq<Msg>, reply: Msg)
    ensures var p := ReplyPrompt(sys, memory + [reply], true, Absent, true);
            p.Ok? && |SenderLine(reply)| < |p.value| &&
            p.value[|p.value| - |SenderLine(reply)| - 1..] == "\n" + SenderLine(reply)
    ensures memory != [] ==>
      ReplyPrompt(sys, memory + [reply], true, Absent, true) ==
        Ok(Join([SystemLine(sys), SenderLine(memory[|memory| - 1]), SenderLine(reply)]))
  {
    RecentAfterAppend(memory, reply);
    var recent := Recent(memory + [reply], RecentN);
    var parts := ReplyParts(sys, recent, "");
    assert ReplyPrompt(sys, memory + [reply], true, Absent, true) == Ok(Join(parts));
    assert parts[|parts| - 1] == SenderLine(reply);
    JoinEndsWithLast(parts);
    if memory != [] {
      assert parts == [SystemLine(sys), SenderLine(memory[|memory| - 1]), SenderLine(reply)];
    }
  }

  /** A first question with empty memory: the system line directly followed by the user line. */
  lemma FirstQuestion(sys: string, asker: string, question: string)
    requires question != ""
    ensures ReplyPrompt(sys, [], true, One(Msg(asker, question, "user")), true)
         == Ok("System: " + sys + "\n" + "User: " + question)
  {
    var x := One(Msg(asker, question, "user"));
    NormalizeSingle(x);
    assert ReplyQuery(x) == Ok(question);
    var parts := ReplyParts(sys, [], question);
    assert parts == [SystemLine(sys), UserLine(question)];
    assert Join(parts) == SystemLine(sys) + "\n" + Join(parts[1..]);
    assert parts[1..] == [UserLine(question)];
    assert Recalled([], true) == [];
    assert ReplyPrompt(sys, [], true, x, true) == Ok(Join(parts));
    assert "System: " + sys + "\n" + ("User: " + question) == "System: " + sys + "\n" + "User: " + question;
  }

  /** A turn without input after two prior turns: the system line and both entries in memory order. */
  lemma RecallWithoutInput(sys: string, m1: Msg, m2: Msg)
    ensures ReplyPrompt(sys, [m1, m2], true, Absent, true)
         == Ok(SystemLine(sys) + "\n" + SenderLine(m1) + "\n" + SenderLine(m2))
  {
    assert Recalled([m1, m2], true) == [m1, m2];
    assert ReplyQuery(Absent) == Ok("");
    var parts := ReplyParts(sys, [m1, m2], "");
    assert parts == [SystemLine(sys), SenderLine(m1), SenderLine(m2)];
    assert parts[1..] == [SenderLine(m1), SenderLine(m2)];
    assert parts[1..][1..] == [SenderLine(m2)];
    assert Join(parts[1..][1..]) == SenderLine(m2);
    assert Join(parts[1..]) == SenderLine(m1) + "\n" + SenderLine(m2);
    assert Join(parts) == SystemLine(sys) + "\n" + (SenderLine(m1) + "\n" + SenderLine(m2));
    assert SystemLine(sys) + "\n" + (SenderLine(m1) + "\n" + SenderLine(m2))
        == SystemLine(sys) + "\n" + SenderLine(m1) + "\n" + SenderLine(m2);
  }

  /**
    The summary instruction opens the prompt when no history argument is given, and
    follows the history lines when one is, even an empty list of them.
   */
  lemma SummaryInstruction(history: Arg, content: Arg)
    requires SummaryPrompt(history, content).Ok?
    ensures history.Absent? ==> PlainInstruction <= SummaryPrompt(history, content).value
    ensures history == Many([]) ==> ContextInstruction <= SummaryPrompt(history, content).value
  {
    var h := SummaryHistory(history).value;
    var c := Normalize([content]).value;
    JoinFirst(SummaryParts(h, c));
    if history == Many([]) {
      NormalizeSingle(history);
      assert h == Some([]);
    }
  }

  /** Summaries never recall memory and always ask for `"query"` mode, whatever the client. */
  lemma SummaryFromClient(name: string, history: Arg, content: Arg,
                          chat: (string, string) -> Option<string>, model: string -> Result<string>)
    requires SummaryPrompt(history, content).Ok?
    ensures Summary(name, true, history, content, chat, model)
         == Ok(Msg(name, chat(SummaryPrompt(history, content).value, "query").GetOr(""), ReplyRole))
  {
  }
}
