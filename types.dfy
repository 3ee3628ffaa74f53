/**
 * The shared vocabulary of the chat client: messages, conversations, artifacts, connectors
 * and the `StreamEvent` union carried on the streaming channel.
 *
 * Timestamps (`Date`) are milliseconds since the epoch. Field names `type` are renamed
 * because `type` is a keyword here: `mimeType` for attachments, `kind` for artifacts and
 * connectors.
 */
module Types {
  import opened Wrappers

  /**
   * A JSON value as `JSON.parse` produces it; object members keep their textual order, and
   * a number, with or without a fraction or exponent, is an exact real.
   */
  datatype Json =
    | JNull
    | JBool(b: bool)
    | JNum(n: real)
    | JStr(s: string)
    | JArr(items: seq<Json>)
    | JObj(members: seq<(string, Json)>)

  /**
   * `obj[key]` on an object `JSON.parse` built: when a key is repeated in the text, the
   * last member with that key wins. `None` for a missing key or a non-object.
   */
  function Member(j: Json, key: string): (r: Option<Json>)
    ensures r.Some? ==> j.JObj? && exists k :: LastWithKey(j.members, key, k) && j.members[k].1 == r.value
    ensures r.None? && j.JObj? ==> forall k :: 0 <= k < |j.members| ==> j.members[k].0 != key
    decreases if j.JObj? then |j.members| else 0
  {
    if !j.JObj? || |j.members| == 0 then None
    else
      var n := |j.members|;
      if j.members[n - 1].0 == key then
        assert LastWithKey(j.members, key, n - 1);
        Some(j.members[n - 1].1)
      else
        var r := Member(JObj(j.members[..n - 1]), key);
        assert forall k :: LastWithKey(j.members[..n - 1], key, k) ==> LastWithKey(j.members, key, k);
        r
  }

  /** Position `k` holds the last member named `key`. */
  predicate LastWithKey(members: seq<(string, Json)>, key: string, k: int) {
    0 <= k < |members| && members[k].0 == key && forall i :: k < i < |members| ==> members[i].0 != key
  }

  /** A key that occurs once reads back the value stored under it, wherever it stands. */
  lemma MemberOfUniqueKey(members: seq<(string, Json)>, k: nat, key: string, v: Json)
    requires k < |members| && members[k] == (key, v)
    requires forall i :: 0 <= i < |members| && i != k ==> members[i].0 != key
    ensures Member(JObj(members), key) == Some(v)
  {
    var r := Member(JObj(members), key);
    if r.Some? {
      var k' :| LastWithKey(members, key, k') && members[k'].1 == r.value;
    }
  }

  /** `JSON.parse('{"type":"a","type":"b"}').type` is "b": of two members with one key, the later one is read. */
  lemma DuplicateKeyLastWins(first: Json, last: Json, key: string, other: seq<(string, Json)>)
    ensures Member(JObj([(key, first)] + other + [(key, last)]), key) == Some(last)
  {
  }

  /** The string in the `type` member of an object, if it has one. */
  function TypeTag(j: Json): Option<string> {
    match Member(j, "type")
    case Some(JStr(t)) => Some(t)
    case _ => None
  }

  // ---------------------------------------------------------------- messages

  datatype Role = User | Assistant | System

  const RoleNames: set<string> := {"user", "assistant", "system"}

  /** The wire spelling of a role; three distinct names. */
  function RoleName(r: Role): (s: string)
    ensures s in RoleNames
    ensures ParseRole(s) == Some(r)
  {
    match r
    case User => "user"
    case Assistant => "assistant"
    case System => "system"
  }

  /** Reads a role back from its wire spelling; anything else is not a role. */
  function ParseRole(s: string): (r: Option<Role>)
    ensures r.Some? <==> s in RoleNames
  {
    if s == "user" then Some(User)
    else if s == "assistant" then Some(Assistant)
    else if s == "system" then Some(System)
    else None
  }

  datatype Attachment = Attachment(id: string, name: string, mimeType: string, size: nat, url: string)

  datatype ThinkingStep = ThinkingStep(id: string, step: string, timestamp: int, index: int)

  datatype ToolCall = ToolCall(id: string, tool: string, query: string, result: Option<string>)

  /** A chat message; the last four fields are optional in the source. */
  datatype Message = Message(
    id: string,
    conversationId: string,
    role: Role,
    content: string,
    timestamp: int,
    attachments: Option<seq<Attachment>>,
    thinking: Option<seq<ThinkingStep>>,
    toolCalls: Option<seq<ToolCall>>,
    artifactId: Option<string>)

  datatype Conversation = Conversation(
    id: string,
    title: string,
    createdAt: int,
    updatedAt: int,
    messageCount: int,
    preview: Option<string>)

  // ---------------------------------------------------------------- artifacts

  datatype ArtifactType = Code | Document | Chart

  const ArtifactTypeNames: set<string> := {"code", "document", "chart"}

  /** The wire spelling of an artifact type, shared by `Artifact.type` and `artifactType`. */
  function ArtifactTypeName(t: ArtifactType): (s: string)
    ensures s in ArtifactTypeNames
    ensures ParseArtifactType(s) == Some(t)
  {
    match t
    case Code => "code"
    case Document => "document"
    case Chart => "chart"
  }

  function ParseArtifactType(s: string): (r: Option<ArtifactType>)
    ensures r.Some? <==> s in ArtifactTypeNames
  {
    if s == "code" then Some(Code)
    else if s == "document" then Some(Document)
    else if s == "chart" then Some(Chart)
    else None
  }

  datatype Artifact = Artifact(
    id: string,
    kind: ArtifactType,
    title: string,
    content: string,
    language: Option<string>,
    createdAt: int)

  // ---------------------------------------------------------------- connectors and models

  datatype ConnectorType = WebSearch | Research | Style | Model

  const ConnectorTypeNames: set<string> := {"web_search", "research", "style", "model"}

  /** The wire spelling of a connector type: exactly four distinct names. */
  function ConnectorTypeName(t: ConnectorType): (s: string)
    ensures s in ConnectorTypeNames
    ensures ParseConnectorType(s) == Some(t)
  {
    match t
    case WebSearch => "web_search"
    case Research => "research"
    case Style => "style"
    case Model => "model"
  }

  function ParseConnectorType(s: string): (r: Option<ConnectorType>)
    ensures r.Some? <==> s in ConnectorTypeNames
  {
    if s == "web_search" then Some(WebSearch)
    else if s == "research" then Some(Research)
    else if s == "style" then Some(Style)
    else if s == "model" then Some(Model)
    else None
  }

  /** A value in a connector's free-form configuration record. */
  datatype ConfigValue = CStr(s: string) | CNum(n: real) | CBool(b: bool)

  datatype Connector = Connector(kind: ConnectorType, enabled: bool, config: Option<map<string, ConfigValue>>)

  /** A model description; `costPer1M` is only ever copied, never computed with. */
  datatype ModelConfig = ModelConfig(id: string, name: string, provider: string, maxTokens: int, costPer1M: real)

  // ---------------------------------------------------------------- stream events

  datatype FinishReason = Complete | Stop | Error

  const FinishReasonNames: set<string> := {"complete", "stop", "error"}

  function FinishReasonName(f: FinishReason): (s: string)
    ensures s in FinishReasonNames
    ensures ParseFinishReason(s) == Some(f)
  {
    match f
    case Complete => "complete"
    case Stop => "stop"
    case Error => "error"
  }

  function ParseFinishReason(s: string): (r: Option<FinishReason>)
    ensures r.Some? <==> s in FinishReasonNames
  {
    if s == "complete" then Some(Complete)
    else if s == "stop" then Some(Stop)
    else if s == "error" then Some(Error)
    else None
  }

  /** The declared `StreamEvent` union: exactly six variants. */
  datatype StreamEvent =
    | MessageStart(messageId: string, timestamp: int)
    | ContentDelta(delta: string, messageId: string)
    | ThinkingStepEvent(step: string, index: int)
    | ToolCallEvent(tool: string, query: string)
    | ArtifactCreated(artifactId: string, artifactType: ArtifactType, content: string)
    | MessageEnd(messageId: string, finishReason: FinishReason)

  const EventTags: set<string> :=
    {"message_start", "content_delta", "thinking_step", "tool_call", "artifact_created", "message_end"}

  /** The `type` discriminator of an event; distinct variants have distinct tags. */
  function EventTag(e: StreamEvent): (t: string)
    ensures t in EventTags
  {
    match e
    case MessageStart(_, _) => "message_start"
    case ContentDelta(_, _) => "content_delta"
    case ThinkingStepEvent(_, _) => "thinking_step"
    case ToolCallEvent(_, _) => "tool_call"
    case ArtifactCreated(_, _, _) => "artifact_created"
    case MessageEnd(_, _) => "message_end"
  }

  /** The wire form the declared type describes: `{type, data: {...}}` with the members in declaration order. */
  function EventToJson(e: StreamEvent): (j: Json)
    ensures TypeTag(j) == Some(EventTag(e))
  {
    var data := match e
      case MessageStart(id, ts) => [("messageId", JStr(id)), ("timestamp", JNum(ts as real))]
      case ContentDelta(d, id) => [("delta", JStr(d)), ("messageId", JStr(id))]
      case ThinkingStepEvent(s, i) => [("step", JStr(s)), ("index", JNum(i as real))]
      case ToolCallEvent(t, q) => [("tool", JStr(t)), ("query", JStr(q))]
      case ArtifactCreated(id, t, c) =>
        [("artifactId", JStr(id)), ("artifactType", JStr(ArtifactTypeName(t))), ("content", JStr(c))]
      case MessageEnd(id, f) => [("messageId", JStr(id)), ("finishReason", JStr(FinishReasonName(f)))];
    MemberOfUniqueKey([("type", JStr(EventTag(e))), ("data", JObj(data))], 0, "type", JStr(EventTag(e)));
    JObj([("type", JStr(EventTag(e))), ("data", JObj(data))])
  }

  /** Each of the six tags names exactly one variant: the tag of an event determines its variant. */
  lemma EventTagDeterminesVariant(e1: StreamEvent, e2: StreamEvent)
    ensures EventTag(e1) == EventTag(e2) <==>
      (e1.MessageStart? && e2.MessageStart?) || (e1.ContentDelta? && e2.ContentDelta?)
      || (e1.ThinkingStepEvent? && e2.ThinkingStepEvent?) || (e1.ToolCallEvent? && e2.ToolCallEvent?)
      || (e1.ArtifactCreated? && e2.ArtifactCreated?) || (e1.MessageEnd? && e2.MessageEnd?)
  {
  }
}
