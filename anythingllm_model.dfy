/**
  The AnythingLLM model wrapper: configuration resolution at construction, the message
  formatter that turns messages into one prompt string, and the chat request built
  around the HTTP call (which is a parameter of the model).
 */
module AnythingLLMModel {
  import opened Outcomes
  import opened Messages

  const UrlVar := "ANYTHINGLLM_API_URL"
  const SlugVar := "ANYTHINGLLM_WORKSPACE_SLUG"
  const KeyVar := "ANYTHINGLLM_API_KEY"
  const DefaultUrl := "http://localhost:3001/api"
  const DefaultSlug := "scientific-papers"

  /** Python truthiness of an optional string: present and non-empty. */
  predicate Truthy(s: Option<string>) {
    s.Some? && s.value != ""
  }

  /** `explicit or os.getenv(name, default)`: an empty variable still counts as set. */
  function Resolve(explicit: Option<string>, env: map<string, string>, name: string, default: Option<string>): Option<string> {
    if Truthy(explicit) then explicit
    else if name in env then Some(env[name])
    else default
  }

  /** The request headers for an API key. */
  function Headers(apiKey: string): map<string, string> {
    map["Authorization" := "Bearer " + apiKey, "Content-Type" := "application/json"]
  }

  /** The settings a successfully constructed wrapper holds. */
  datatype Config = Config(apiUrl: string, workspaceSlug: string, apiKey: string,
                           headers: map<string, string>, mode: string)

  /**
    Construction of the chat wrapper: URL, workspace and key each come from the explicit
    argument when it is truthy, else from the environment variable when it is set, else
    from the default; construction fails exactly when no non-empty key results.
   */
  function ResolveConfig(apiUrl: Option<string>, workspaceSlug: Option<string>, apiKey: Option<string>,
                         mode: string, env: map<string, string>): (r: Result<Config>)
    ensures r.Err? <==> !Truthy(apiKey) && (KeyVar !in env || env[KeyVar] == "")
    ensures r.Err? ==> r.error == ApiKeyMissing
    ensures r.Ok? ==> (r.value.apiUrl ==
              if Truthy(apiUrl) then apiUrl.value else if UrlVar in env then env[UrlVar] else DefaultUrl)
    ensures r.Ok? ==> (r.value.workspaceSlug ==
              if Truthy(workspaceSlug) then workspaceSlug.value
              else if SlugVar in env then env[SlugVar] else DefaultSlug)
    ensures r.Ok? ==> (r.value.apiKey != "" &&
              r.value.apiKey == if Truthy(apiKey) then apiKey.value else env[KeyVar])
    ensures r.Ok? ==> (r.value.headers.Keys == {"Authorization", "Content-Type"} &&
              r.value.headers["Authorization"] == "Bearer " + r.value.apiKey &&
              r.value.headers["Content-Type"] == "application/json")
    ensures r.Ok? ==> r.value.mode == mode
  {
    var url := Resolve(apiUrl, env, UrlVar, Some(DefaultUrl));
    var slug := Resolve(workspaceSlug, env, SlugVar, Some(DefaultSlug));
    var key := Resolve(apiKey, env, KeyVar, None);
    if !Truthy(key) then Err(ApiKeyMissing)
    else Ok(Config(url.value, slug.value, key.value, Headers(key.value), mode))
  }

  /** The line of one message: labelled by role for system and user, by sender otherwise. */
  function RoleLine(m: Msg): string {
    if m.role == "system" then "System: " + m.content
    else if m.role == "user" then "User: " + m.content
    else m.name + ": " + m.content
  }

  function RoleLines(msgs: seq<Msg>): (r: seq<string>)
    ensures |r| == |msgs| && forall i :: 0 <= i < |msgs| ==> r[i] == RoleLine(msgs[i])
  {
    seq(|msgs|, i requires 0 <= i < |msgs| => RoleLine(msgs[i]))
  }

  /** The prompt string of a list of messages: their lines joined by newlines. */
  function RenderPrompt(msgs: seq<Msg>): string {
    Join(RoleLines(msgs))
  }

  /** The outcome of `format`: the rendered prompt of the normalised arguments, or their TypeError. */
  function FormatResult(args: seq<Arg>): Result<string> {
    match Normalize(args)
    case Err(e) => Err(e)
    case Ok(msgs) => Ok(RenderPrompt(msgs))
  }

  /** What `__call__` receives: a ready prompt string or a list of format arguments. */
  datatype ModelInput = Text(prompt: string) | MessageList(args: seq<Arg>)

  /** The JSON payload of a chat request. */
  datatype Payload = Payload(message: string, mode: string)

  datatype Request = Request(url: string, headers: map<string, string>, json: Payload)

  /** The decoded JSON body of a response, reduced to its `textResponse` entry. */
  datatype JsonBody = Undecodable | Decoded(textResponse: Option<string>)

  /** What `requests.post` gives: a request exception, or a response with a status and a body. */
  datatype PostResult = ConnectionFailed | Response(status: int, body: JsonBody)

  /** The wrapper's `ModelResponse`, reduced to its text. */
  datatype ModelResponse = ModelResponse(text: string)

  /** The statuses on which `raise_for_status` raises. */
  predicate IsHttpError(status: int) {
    400 <= status < 600
  }

  /** The prompt of a call: a string passes through, a list is formatted. */
  function PromptOf(messages: ModelInput): Result<string> {
    match messages
    case Text(s) => Ok(s)
    case MessageList(args) => FormatResult(args)
  }

  /** The outcome of a post: every request exception becomes a RuntimeError; a missing `textResponse` gives `""`. */
  function Receive(response: PostResult): Result<ModelResponse> {
    match response
    case ConnectionFailed => Err(RequestFailed)
    case Response(status, body) =>
      if IsHttpError(status) then Err(RequestFailed)
      else match body
        case Undecodable => Err(RequestFailed)
        case Decoded(text) => Ok(ModelResponse(text.GetOr("")))
  }

  /** The AnythingLLM chat wrapper (the base wrapper's fields and `format` folded in). */
  class AnythingLLMChatWrapper {
    const configName: string
    const apiUrl: string
    const workspaceSlug: string
    const apiKey: string
    const headers: map<string, string>
    const mode: string

    constructor (configName: string, apiUrl: string, workspaceSlug: string, apiKey: string, mode: string)
      ensures this.configName == configName
      ensures Settings() == Config(apiUrl, workspaceSlug, apiKey, Headers(apiKey), mode)
    {
      this.configName := configName;
      this.apiUrl := apiUrl;
      this.workspaceSlug := workspaceSlug;
      this.apiKey := apiKey;
      this.headers := Headers(apiKey);
      this.mode := mode;
    }

    function Settings(): Config {
      Config(apiUrl, workspaceSlug, apiKey, headers, mode)
    }

    /** The chat endpoint of the configured workspace. */
    function ChatUrl(): string {
      apiUrl + "/v1/workspace/" + workspaceSlug + "/chat"
    }

    /** The payload mode: the override when it is truthy, else the configured mode. */
    function PayloadMode(modeOverride: Option<string>): (m: string)
      ensures Truthy(modeOverride) ==> m == modeOverride.value
      ensures !Truthy(modeOverride) ==> m == mode
    {
      if Truthy(modeOverride) then modeOverride.value else mode
    }

    /** `format`: normalise the arguments, render one line per message, join by newlines. */
    method Format(args: seq<Arg>) returns (r: Result<string>)
      ensures r == FormatResult(args)
    {
      var inputMsgs := FormatMsg(args);
      if inputMsgs.Err? {
        return Err(inputMsgs.error);
      }
      var msgs := inputMsgs.value;
      var promptParts: seq<string> := [];
      var i := 0;
      while i < |msgs|
        invariant 0 <= i <= |msgs|
        invariant |promptParts| == i
        invariant forall j :: 0 <= j < i ==> promptParts[j] == RoleLine(msgs[j])
      {
        var msg := msgs[i];
        var line: string;
        if msg.role == "system" {
          line := "System: " + msg.content;
        } else if msg.role == "user" {
          line := "User: " + msg.content;
        } else {
          line := msg.name + ": " + msg.content;
        }
        assert line == RoleLine(msg);
        promptParts := promptParts + [line];
        i := i + 1;
      }
      assert promptParts == RoleLines(msgs);
      r := Ok(Join(promptParts));
    }

    /**
      `__call__`: the prompt (passed through or formatted) is posted to the workspace's chat
      endpoint with the wrapper's headers and the resolved mode; the response is then received.
     */
    method Call(messages: ModelInput, modeOverride: Option<string>, post: Request -> PostResult)
      returns (r: Result<ModelResponse>)
      ensures PromptOf(messages).Err? ==> r == Err(PromptOf(messages).error)
      ensures PromptOf(messages).Ok? ==>
        r == Receive(post(Request(ChatUrl(), headers, Payload(PromptOf(messages).value, PayloadMode(modeOverride)))))
    {
      var prompt: string;
      if messages.MessageList? {
        var formatted := Format(messages.args);
        if formatted.Err? {
          return Err(formatted.error);
        }
        prompt := formatted.value;
      } else {
        prompt := messages.prompt;
      }

      var url := apiUrl + "/v1/workspace/" + workspaceSlug + "/chat";
      var payload := Payload(prompt, if Truthy(modeOverride) then modeOverride.value else mode);

      var response := post(Request(url, headers, payload));
      if response.ConnectionFailed? || IsHttpError(response.status) || response.body.Undecodable? {
        return Err(RequestFailed);
      }
      r := Ok(ModelResponse(response.body.textResponse.GetOr("")));
    }
  }

  /** `__init__` of the chat wrapper: resolve the settings step by step, failing without a key. */
  method Create(configName: string, apiUrl: Option<string>, workspaceSlug: Option<string>,
                apiKey: Option<string>, mode: string, env: map<string, string>)
    returns (r: Result<AnythingLLMChatWrapper>)
    ensures ResolveConfig(apiUrl, workspaceSlug, apiKey, mode, env).Err? ==> r == Err(ApiKeyMissing)
    ensures ResolveConfig(apiUrl, workspaceSlug, apiKey, mode, env).Ok? ==>
      r.Ok? && fresh(r.value) && r.value.configName == configName &&
      r.value.Settings() == ResolveConfig(apiUrl, workspaceSlug, apiKey, mode, env).value
  {
    var url := if Truthy(apiUrl) then apiUrl.value else if UrlVar in env then env[UrlVar] else DefaultUrl;
    var slug := if Truthy(workspaceSlug) then workspaceSlug.value
                else if SlugVar in env then env[SlugVar] else DefaultSlug;
    var key := if Truthy(apiKey) then apiKey else if KeyVar in env then Some(env[KeyVar]) else None;
    if !Truthy(key) {
      return Err(ApiKeyMissing);
    }
    var wrapper := new AnythingLLMChatWrapper(configName, url, slug, key.value, mode);
    r := Ok(wrapper);
  }

  // Properties of the formatter.

  /** No messages give the empty prompt. */
  lemma FormatNothing(args: seq<Arg>)
    requires forall i :: 0 <= i < |args| ==> args[i] == Absent || args[i] == Many([])
    ensures FormatResult(args) == Ok("")
  {
    if args != [] {
      NormalizeAppend([args[0]], args[1..]);
      NormalizeSingle(args[0]);
      assert [args[0]] + args[1..] == args;
      assert forall i :: 0 <= i < |args[1..]| ==> args[1..][i] == args[i + 1];
      FormatNothing(args[1..]);
      assert Contribution(args[0]) == [];
    }
  }

  /**
    `format` fails exactly as the agent's `format_msg` does: iff some argument is rejected,
    and then with the TypeError naming the first rejected argument.
   */
  lemma FormatSharesNormalisation(args: seq<Arg>)
    ensures FormatResult(args).Err? <==> exists i :: 0 <= i < |args| && !Accepted(args[i])
    ensures FormatResult(args).Err? ==> (
              exists k ::
                0 <= k < |args| && !Accepted(args[k]) &&
                (forall i :: 0 <= i < k ==> Accepted(args[i])) &&
                FormatResult(args).error == TypeMismatch(TypeName(args[k])))
  {
    NormalizeOkIff(args);
    if FormatResult(args).Err? {
      NormalizeErrNamesFirstRejected(args);
    }
  }

  /** Formatting two groups of messages puts one newline between their prompts. */
  lemma RenderAppend(x: seq<Msg>, y: seq<Msg>)
    requires x != [] && y != []
    ensures RenderPrompt(x + y) == RenderPrompt(x) + "\n" + RenderPrompt(y)
  {
    assert RoleLines(x + y) == RoleLines(x) + RoleLines(y);
    JoinAppend(RoleLines(x), RoleLines(y));
  }

  /** A line has no newline of its own when the text it shows has none. */
  predicate SingleLine(m: Msg) {
    '\n' !in m.content && (m.role != "system" && m.role != "user" ==> '\n' !in m.name)
  }

  /**
    Exactly one line per message, in order: splitting the prompt at newlines gives back
    each message's role line, as long as no message text holds a newline itself.
   */
  lemma RenderOneLinePerMessage(msgs: seq<Msg>)
    requires msgs != []
    requires forall i :: 0 <= i < |msgs| ==> SingleLine(msgs[i])
    ensures |Split(RenderPrompt(msgs))| == |msgs|
    ensures forall i :: 0 <= i < |msgs| ==> Split(RenderPrompt(msgs))[i] == RoleLine(msgs[i])
  {
    var lines := RoleLines(msgs);
    forall i | 0 <= i < |lines|
      ensures '\n' !in lines[i]
    {
      assert '\n' !in "System: " && '\n' !in "User: " && '\n' !in ": ";
    }
    SplitJoin(lines);
  }
}
