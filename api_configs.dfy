/**
 * The request-config builders of the provider gateway: each turns a prompt
 * (one string or a list of chat messages) into the record its provider's
 * client expects.
 *
 * Messages are the JSON objects of the chat format: an optional "role", an
 * optional "content" that is a string or a list of content blocks. An entry
 * of a message list may also be something other than an object.
 */
module ApiConfigs {

  import opened Wrappers
  import opened Sequences

  /** The builders' default `system_message` and `model` arguments. */
  const DefaultSystemMessage := "You are a helpful assistant."
  const DefaultChatgptModel := "gpt-3.5-turbo"
  const DefaultAnthropicModel := "claude-2.1"
  const DefaultVertexaiModel := "gemini-2.5-pro"
  /** What the Vertex builder falls back to when no project or location is given or set. */
  const DefaultProject := "triangulate-396717"
  const DefaultLocation := "us-central1"
  /** The `type` of the `cache_control` object the prompt-cache mode sets. */
  const Ephemeral := "ephemeral"

  /** A block of an Anthropic content list, `{"type": …, "text": …}` plus `cache_control` once set. */
  datatype Block = Block(kind: string, text: string, cacheControl: Option<string>)

  datatype Content = Text(text: string) | Blocks(blocks: seq<Block>)

  /** An entry of a message list: an object with optional "role" and "content", or some other value. */
  datatype Message = Message(role: Option<string>, content: Option<Content>) | NotAnObject(repr: string)

  /** The `message` argument: a single string or a list of messages. */
  datatype Prompt = PromptText(text: string) | PromptList(messages: seq<Message>)

  /** A tool description handed to the Anthropic client unchanged. */
  type Tool = string

  datatype ChatgptConfig = ChatgptConfig(
    model: string, maxTokens: int, temperature: real, n: int, messages: seq<Message>)

  datatype AnthropicConfig = AnthropicConfig(
    model: string, temperature: real, maxTokens: int, messages: seq<Message>, tools: Option<seq<Tool>>)

  datatype VertexaiConfig = VertexaiConfig(
    model: string, maxTokens: int, temperature: real, batchSize: int, message: string,
    project: string, location: string)

  function SystemMessage(content: string): Message {
    Message(Some("system"), Some(Text(content)))
  }

  function UserMessage(content: string): Message {
    Message(Some("user"), Some(Text(content)))
  }

  /** True when `m` is an object whose "role" is `role`. */
  predicate HasRole(m: Message, role: string) {
    m.Message? && m.role == Some(role)
  }

  /** The number of messages of `ms` whose role is `role`. */
  function CountRole(ms: seq<Message>, role: string): nat {
    if ms == [] then 0 else (if HasRole(ms[0], role) then 1 else 0) + CountRole(ms[1..], role)
  }

  lemma {:induction false} CountRoleAppend(a: seq<Message>, b: seq<Message>, role: string)
    ensures CountRole(a + b, role) == CountRole(a, role) + CountRole(b, role)
  {
    if a != [] {
      assert (a + b)[0] == a[0];
      assert (a + b)[1..] == a[1..] + b;
      CountRoleAppend(a[1..], b, role);
    } else {
      assert a + b == b;
    }
  }

  // ---------------------------------------------------------------------------
  // create_chatgpt_config and create_anthropic_config
  // ---------------------------------------------------------------------------

  /**
   * `create_chatgpt_config`: one system message first, then the user's text
   * as a user message or the given list unchanged; the sampling options are
   * passed through, `batch_size` as `n`.
   */
  function CreateChatgptConfig(message: Prompt, maxTokens: int, temperature: real := 1.0, batchSize: int := 1,
                               systemMessage: string := DefaultSystemMessage,
                               model: string := DefaultChatgptModel): (c: ChatgptConfig)
    ensures c.model == model && c.maxTokens == maxTokens && c.temperature == temperature && c.n == batchSize
    ensures |c.messages| >= 1 && c.messages[0] == SystemMessage(systemMessage)
    ensures message.PromptText? ==> c.messages[1..] == [UserMessage(message.text)]
    ensures message.PromptList? ==> c.messages[1..] == message.messages
  {
    var system := SystemMessage(systemMessage);
    match message
    case PromptList(ms) => ChatgptConfig(model, maxTokens, temperature, batchSize, [system] + ms)
    case PromptText(s) => ChatgptConfig(model, maxTokens, temperature, batchSize, [system, UserMessage(s)])
  }

  /** The chat config holds exactly one system message more than the prompt did. */
  lemma ChatgptAddsOneSystemMessage(message: Prompt, maxTokens: int, temperature: real, batchSize: int,
                                    systemMessage: string, model: string)
    ensures var c := CreateChatgptConfig(message, maxTokens, temperature, batchSize, systemMessage, model);
            CountRole(c.messages, "system")
              == 1 + (if message.PromptList? then CountRole(message.messages, "system") else 0)
  {
    var c := CreateChatgptConfig(message, maxTokens, temperature, batchSize, systemMessage, model);
    CountRoleAppend([c.messages[0]], c.messages[1..], "system");
    assert c.messages == [c.messages[0]] + c.messages[1..];
  }

  /** The user message the Anthropic builder makes from a string: one text block. */
  function AnthropicUserMessage(text: string): Message {
    Message(Some("user"), Some(Blocks([Block("text", text, None)])))
  }

  /**
   * `create_anthropic_config`: no system entry is added; a string becomes one
   * user message with a single text block, a list is passed through; `tools`
   * is set exactly when the given list is present and not empty.
   */
  function CreateAnthropicConfig(message: Prompt, maxTokens: int, temperature: real := 1.0, batchSize: int := 1,
                                 systemMessage: string := DefaultSystemMessage, model: string := DefaultAnthropicModel,
                                 tools: Option<seq<Tool>> := None): (c: AnthropicConfig)
    ensures c.model == model && c.maxTokens == maxTokens && c.temperature == temperature
    ensures message.PromptText? ==> c.messages == [AnthropicUserMessage(message.text)]
    ensures message.PromptList? ==> c.messages == message.messages
    ensures c.tools.Some? <==> tools.Some? && tools.value != []
    ensures c.tools.Some? ==> c.tools == tools
  {
    var messages := match message
      case PromptList(ms) => ms
      case PromptText(s) => [AnthropicUserMessage(s)];
    AnthropicConfig(model, temperature, maxTokens, messages,
                    if tools.Some? && tools.value != [] then tools else None)
  }

  /** The Anthropic builder adds no system message of its own. */
  lemma AnthropicAddsNoSystemMessage(message: Prompt, maxTokens: int, temperature: real, batchSize: int,
                                     systemMessage: string, model: string, tools: Option<seq<Tool>>)
    ensures var c := CreateAnthropicConfig(message, maxTokens, temperature, batchSize, systemMessage, model, tools);
            CountRole(c.messages, "system")
              == if message.PromptList? then CountRole(message.messages, "system") else 0
  {
  }

  // ---------------------------------------------------------------------------
  // create_vertexai_config
  // ---------------------------------------------------------------------------

  /** `str(c)` of a content value; a block list is rendered by its texts. */
  function Str(c: Content): string {
    match c
    case Text(s) => s
    case Blocks(bs) => BlockTexts(bs)
  }

  function BlockTexts(bs: seq<Block>): string {
    if bs == [] then "" else bs[0].text + BlockTexts(bs[1..])
  }

  /** `str(msg.get("content", ""))` */
  function ContentOf(m: Message): (c: string)
    requires m.Message?
    ensures m.content.None? ==> c == ""
    ensures m.content.Some? && m.content.value.Text? ==> c == m.content.value.text
  {
    if m.content.Some? then Str(m.content.value) else ""
  }

  /** The contents of the user messages of `ms`, in order. */
  function UserContents(ms: seq<Message>): seq<string> {
    if ms == [] then []
    else
      var before := UserContents(ms[..|ms| - 1]);
      var m := ms[|ms| - 1];
      if HasRole(m, "user") then before + [ContentOf(m)] else before
  }

  /** The contents of the system messages of `ms`, in order. */
  function SystemContents(ms: seq<Message>): seq<string> {
    if ms == [] then []
    else
      var before := SystemContents(ms[..|ms| - 1]);
      var m := ms[|ms| - 1];
      if HasRole(m, "system") then before + [ContentOf(m)] else before
  }

  function Reversed(s: seq<string>): (r: seq<string>)
    ensures |r| == |s|
    ensures forall i :: 0 <= i < |s| ==> r[i] == s[|s| - 1 - i]
  {
    if s == [] then [] else Reversed(s[1..]) + [s[0]]
  }

  /** `sep.join(parts)` */
  function Join(parts: seq<string>, sep: string): (s: string)
    ensures parts == [] ==> s == ""
    ensures parts != [] ==> |parts[0]| <= |s| && s[..|parts[0]|] == parts[0]
    ensures parts != [] ==> |parts[|parts| - 1]| <= |s| && s[|s| - |parts[|parts| - 1]|..] == parts[|parts| - 1]
  {
    if parts == [] then ""
    else if |parts| == 1 then parts[0]
    else parts[0] + sep + Join(parts[1..], sep)
  }

  /** `s.split("\n")` */
  function SplitLines(s: string): (r: seq<string>)
    ensures |r| >= 1
    decreases |s|
  {
    if '\n' !in s then [s]
    else
      var i := FirstIndex(s, '\n');
      [s[..i]] + SplitLines(s[i + 1..])
  }

  /**
   * The loop of `create_vertexai_config` over a message list: a user content
   * is appended, a system content inserted at the front, anything else
   * dropped.
   */
  method FlattenMessages(messages: seq<Message>) returns (contents: seq<string>)
    ensures contents == Reversed(SystemContents(messages)) + UserContents(messages)
  {
    contents := [];
    for i := 0 to |messages|
      invariant contents == Reversed(SystemContents(messages[..i])) + UserContents(messages[..i])
    {
      var msg := messages[i];
      assert messages[..i + 1] == messages[..i] + [msg];
      assert messages[..i + 1][..i] == messages[..i];
      if msg.Message? {
        if msg.role == Some("user") {
          contents := contents + [ContentOf(msg)];
        } else if msg.role == Some("system") {
          ghost var sys := SystemContents(messages[..i]);
          assert Reversed(sys + [ContentOf(msg)]) == [ContentOf(msg)] + Reversed(sys);
          contents := [ContentOf(msg)] + contents;
        }
      }
    }
    assert messages[..|messages|] == messages;
  }

  /** `os.getenv(key, default)` over an environment given as a map. */
  function GetEnv(env: map<string, string>, key: string, default: string): (v: string)
    ensures key in env ==> v == env[key]
    ensures key !in env ==> v == default
  {
    if key in env then env[key] else default
  }

  /**
   * `create_vertexai_config`: a string prompt is sent as it is; a message
   * list becomes one string, the system contents (latest first) then the user
   * contents (in order), joined by newlines. `system_message` is not used.
   * An absent project or location is read from the environment.
   */
  method CreateVertexaiConfig(env: map<string, string>, message: Prompt, maxTokens: int,
                              temperature: real := 1.0, batchSize: int := 1,
                              systemMessage: string := DefaultSystemMessage, model: string := DefaultVertexaiModel,
                              project: Option<string> := None, location: Option<string> := None)
    returns (c: VertexaiConfig)
    ensures c.model == model && c.maxTokens == maxTokens && c.temperature == temperature && c.batchSize == batchSize
    ensures message.PromptText? ==> c.message == message.text
    ensures message.PromptList? ==>
              c.message == Join(Reversed(SystemContents(message.messages)) + UserContents(message.messages), "\n")
    ensures c.project == if project.Some? then project.value else GetEnv(env, "GOOGLE_CLOUD_PROJECT", DefaultProject)
    ensures c.location == if location.Some? then location.value else GetEnv(env, "GOOGLE_CLOUD_LOCATION", DefaultLocation)
  {
    var proj := if project.Some? then project.value else GetEnv(env, "GOOGLE_CLOUD_PROJECT", DefaultProject);
    var loc := if location.Some? then location.value else GetEnv(env, "GOOGLE_CLOUD_LOCATION", DefaultLocation);
    var finalContent: string;
    match message {
      case PromptList(ms) =>
        var contents := FlattenMessages(ms);
        finalContent := Join(contents, "\n");
      case PromptText(s) =>
        finalContent := s;
    }
    c := VertexaiConfig(model, maxTokens, temperature, batchSize, finalContent, proj, loc);
  }

  // ---------------------------------------------------------------------------
  // Lemmas
  // ---------------------------------------------------------------------------

  lemma {:induction false} SplitAfterLine(line: string, rest: string)
    requires '\n' !in line
    ensures SplitLines(line + "\n" + rest) == [line] + SplitLines(rest)
  {
    var s := line + "\n" + rest;
    assert s[|line|] == '\n';
    assert s[..|line|] == line;
    var i := FirstIndex(s, '\n');
    assert i == |line|;
    assert s[..i] == line;
    assert s[i + 1..] == rest;
  }

  /**
   * Joining by newlines loses nothing when no part holds a newline: splitting
   * gives the parts back. (An empty list joins to "", which splits to [""].)
   */
  lemma {:induction false} SplitJoin(parts: seq<string>)
    requires parts != []
    requires forall k :: 0 <= k < |parts| ==> '\n' !in parts[k]
    ensures SplitLines(Join(parts, "\n")) == parts
  {
    if |parts| > 1 {
      SplitJoin(parts[1..]);
      SplitAfterLine(parts[0], Join(parts[1..], "\n"));
      assert parts == [parts[0]] + parts[1..];
    }
  }

  /**
   * The Vertex prompt built from a message list with newline-free contents
   * reads back as the system contents, latest first, then the user contents
   * in order.
   */
  lemma VertexMessageParts(ms: seq<Message>)
    requires SystemContents(ms) + UserContents(ms) != []
    requires forall s :: s in SystemContents(ms) + UserContents(ms) ==> '\n' !in s
    ensures SplitLines(Join(Reversed(SystemContents(ms)) + UserContents(ms), "\n"))
         == Reversed(SystemContents(ms)) + UserContents(ms)
  {
    var sys, user := SystemContents(ms), UserContents(ms);
    NewlineFreeParts(sys, user);
    SplitJoin(Reversed(sys) + user);
  }

  /** Reordering the system contents brings in no newline. */
  lemma NewlineFreeParts(sys: seq<string>, user: seq<string>)
    requires forall s :: s in sys + user ==> '\n' !in s
    ensures forall k :: 0 <= k < |Reversed(sys) + user| ==> '\n' !in (Reversed(sys) + user)[k]
  {
    var parts := Reversed(sys) + user;
    forall k | 0 <= k < |parts| ensures '\n' !in parts[k] {
      if k < |sys| {
        assert parts[k] == sys[|sys| - 1 - k];
        assert parts[k] in sys + user;
      } else {
        assert parts[k] == user[k - |sys|];
        assert parts[k] in sys + user;
      }
    }
  }

  /** A chat-shaped conversation for a string prompt reaches Vertex as the system text, a newline, the prompt. */
  lemma VertexOfChatgptMessages(text: string, maxTokens: int, temperature: real, batchSize: int,
                                systemMessage: string, model: string)
    ensures var c := CreateChatgptConfig(PromptText(text), maxTokens, temperature, batchSize, systemMessage, model);
            Join(Reversed(SystemContents(c.messages)) + UserContents(c.messages), "\n")
              == systemMessage + "\n" + text
  {
    var c := CreateChatgptConfig(PromptText(text), maxTokens, temperature, batchSize, systemMessage, model);
    var ms := c.messages;
    assert ms[..|ms| - 1] == [SystemMessage(systemMessage)];
    assert ms[..|ms| - 1][..0] == [];
    assert SystemContents(ms[..|ms| - 1]) == [systemMessage];
    assert UserContents(ms[..|ms| - 1]) == [];
    assert SystemContents(ms) == [systemMessage];
    assert UserContents(ms) == [text];
  }
}
