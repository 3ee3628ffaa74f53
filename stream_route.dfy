/**
 * The simulated assistant backend (src/app/api/stream/route.ts): for one user message it
 * writes a fixed sequence of server-sent frames, `data: <json>` followed by a blank line.
 *
 * The pauses between frames and the random artifact id are left out: the id is the
 * parameter `artifactId`, and `JSON.stringify` is the parameter `stringify`.
 */
module StreamRoute {
  import opened Wrappers
  import opened Types
  import opened Strings
  import opened Seqs

  /**
   * The events the producer writes, in the payload shapes it writes them: a content delta
   * has no message id, the artifact carries `id`, `type`, `title`, `language` and
   * `content`, and the end event has only a finish reason.
   */
  datatype Emitted =
    | Thinking(step: string, index: int)
    | Tool(tool: string, query: string)
    | Delta(delta: string)
    | ArtifactMade(id: string, artifactType: string, title: string, language: string, content: string)
    | End(finishReason: string)

  /** The `type` member the producer writes for an event: one of the six declared tags, never `message_start`. */
  function Tag(e: Emitted): (t: string)
    ensures t in EventTags && t != "message_start"
  {
    match e
    case Thinking(_, _) => "thinking_step"
    case Tool(_, _) => "tool_call"
    case Delta(_) => "content_delta"
    case ArtifactMade(_, _, _, _, _) => "artifact_created"
    case End(_) => "message_end"
  }

  /** The object literal the producer serialises: `{type, data: {...}}` with members in source order. */
  function ToJson(e: Emitted): (j: Json)
    ensures TypeTag(j) == Some(Tag(e))
  {
    var data := match e
      case Thinking(s, i) => [("step", JStr(s)), ("index", JNum(i as real))]
      case Tool(t, q) => [("tool", JStr(t)), ("query", JStr(q))]
      case Delta(d) => [("delta", JStr(d))]
      case ArtifactMade(id, t, title, lang, c) =>
        [("id", JStr(id)), ("type", JStr(t)), ("title", JStr(title)), ("language", JStr(lang)), ("content", JStr(c))]
      case End(f) => [("finishReason", JStr(f))];
    MemberOfUniqueKey([("type", JStr(Tag(e))), ("data", JObj(data))], 0, "type", JStr(Tag(e)));
    JObj([("type", JStr(Tag(e))), ("data", JObj(data))])
  }

  // ---------------------------------------------------------------- framing

  const FramePrefix := "data: "
  const FrameSuffix := "\n\n"

  /** Reads the JSON text back out of a frame; `None` for text that is not framed. */
  function Unframe(f: string): Option<string> {
    if |f| >= |FramePrefix| + |FrameSuffix| && f[..|FramePrefix|] == FramePrefix
       && f[|f| - |FrameSuffix|..] == FrameSuffix
    then Some(f[|FramePrefix|..|f| - |FrameSuffix|])
    else None
  }

  /** One server-sent frame: `data: `, the JSON text, a blank line. Reading it back gives the JSON text. */
  function Frame(json: string): (f: string)
    ensures |f| == |FramePrefix| + |json| + |FrameSuffix|
    ensures f[..|FramePrefix|] == FramePrefix && f[|f| - |FrameSuffix|..] == FrameSuffix
    ensures Unframe(f) == Some(json)
  {
    var f := FramePrefix + json + FrameSuffix;
    assert f[..|FramePrefix|] == FramePrefix;
    assert f[|f| - |FrameSuffix|..] == FrameSuffix;
    assert f[|FramePrefix|..|f| - |FrameSuffix|] == json;
    f
  }

  function FrameOf(e: Emitted, stringify: Json -> string): string {
    Frame(stringify(ToJson(e)))
  }

  /** `frames` are the frames of `events`, one each, in the same order. */
  ghost predicate FramesOf(events: seq<Emitted>, frames: seq<string>, stringify: Json -> string) {
    |frames| == |events| && forall k :: 0 <= k < |frames| ==> frames[k] == FrameOf(events[k], stringify)
  }

  // ---------------------------------------------------------------- the script

  const ThinkingSteps: seq<string> :=
    ["Analyzing your request...", "Gathering relevant information...", "Formulating comprehensive response..."]

  const ArtifactTitle := "Generated Code"
  const ArtifactLanguage := "python"
  const ArtifactContent := "# Example Code\nprint(\"Hello, AgenticAI!\")"

  /** The canned answer, quoting the user's message. */
  function Response(message: string): string {
    "I understand you're asking about \"" + message + "\". Let me help you with that.\n\n"
    + "Here's a comprehensive answer based on my analysis:\n\n"
    + "1. **Key Point**: This is important information.\n"
    + "2. **Additional Context**: More details here.\n"
    + "3. **Summary**: Wrapping up the response."
  }

  predicate WantsSearch(message: string) {
    Contains(Lower(message), "search")
  }

  predicate WantsArtifact(message: string) {
    Contains(Lower(message), "code") || Contains(Lower(message), "create")
  }

  function ThinkingEvents(): (r: seq<Emitted>)
    ensures |r| == |ThinkingSteps|
    ensures forall k :: 0 <= k < |r| ==> r[k] == Thinking(ThinkingSteps[k], k + 1)
  {
    seq(|ThinkingSteps|, k requires 0 <= k < |ThinkingSteps| => Thinking(ThinkingSteps[k], k + 1))
  }

  /** One content delta per word, each word followed by a space. */
  function DeltaEvents(words: seq<string>): (r: seq<Emitted>)
    ensures |r| == |words|
    ensures forall k :: 0 <= k < |r| ==> r[k] == Delta(words[k] + " ")
  {
    seq(|words|, k requires 0 <= k < |words| => Delta(words[k] + " "))
  }

  function Words(message: string): seq<string> {
    Split(Response(message), ' ')
  }

  function TheArtifact(artifactId: string): Emitted {
    ArtifactMade(artifactId, "code", ArtifactTitle, ArtifactLanguage, ArtifactContent)
  }

  /** The event sequence for given decisions: whether to search, the words, whether to create an artifact. */
  function Assemble(search: bool, message: string, words: seq<string>, artifact: bool, artifactId: string): seq<Emitted> {
    ThinkingEvents() + (if search then [Tool("web_search", message)] else []) + DeltaEvents(words)
    + (if artifact then [TheArtifact(artifactId)] else []) + [End("complete")]
  }

  /** The whole event sequence the producer writes for one message, in order. */
  function Script(message: string, artifactId: string): seq<Emitted> {
    Assemble(WantsSearch(message), message, Words(message), WantsArtifact(message), artifactId)
  }

  /** `controller.enqueue` of one event: the event is appended together with its frame. */
  method Enqueue(events: seq<Emitted>, frames: seq<string>, e: Emitted, stringify: Json -> string)
    returns (events': seq<Emitted>, frames': seq<string>)
    requires FramesOf(events, frames, stringify)
    ensures events' == events + [e]
    ensures FramesOf(events', frames', stringify)
  {
    events', frames' := events + [e], frames + [FrameOf(e, stringify)];
  }

  /**
   * `POST`'s `start`: enqueues three thinking steps, a tool call when the lower-cased
   * message mentions "search", a delta per word of the response, an artifact when it
   * mentions "code" or "create", and the end event, each as one frame.
   */
  method Start(message: string, artifactId: string, stringify: Json -> string)
    returns (events: seq<Emitted>, frames: seq<string>)
    ensures events == Script(message, artifactId)
    ensures FramesOf(events, frames, stringify)
  {
    events, frames := [], [];
    for i := 0 to |ThinkingSteps|
      invariant events == ThinkingEvents()[..i]
      invariant FramesOf(events, frames, stringify)
    {
      events, frames := Enqueue(events, frames, Thinking(ThinkingSteps[i], i + 1), stringify);
    }
    assert events == ThinkingEvents();

    var search := Contains(Lower(message), "search");
    if search {
      events, frames := Enqueue(events, frames, Tool("web_search", message), stringify);
    }
    ghost var head := events;

    var words := Split(Response(message), ' ');
    for j := 0 to |words|
      invariant events == head + DeltaEvents(words[..j])
      invariant FramesOf(events, frames, stringify)
    {
      assert DeltaEvents(words[..j + 1]) == DeltaEvents(words[..j]) + [Delta(words[j] + " ")];
      events, frames := Enqueue(events, frames, Delta(words[j] + " "), stringify);
    }
    assert words[..|words|] == words;

    var artifact := Contains(Lower(message), "code") || Contains(Lower(message), "create");
    if artifact {
      events, frames := Enqueue(events, frames, TheArtifact(artifactId), stringify);
    }
    events, frames := Enqueue(events, frames, End("complete"), stringify);
    assert events == Assemble(search, message, words, artifact, artifactId);
  }

  // ---------------------------------------------------------------- properties of the script

  predicate IsThinking(e: Emitted) { e.Thinking? }
  predicate IsTool(e: Emitted) { e.Tool? }
  predicate IsDelta(e: Emitted) { e.Delta? }
  predicate IsArtifact(e: Emitted) { e.ArtifactMade? }

  /** The five parts of an assembled sequence, in order. */
  lemma AssembleParts(search: bool, message: string, words: seq<string>, artifact: bool, artifactId: string)
    ensures var t := ThinkingEvents();
      var u := if search then [Tool("web_search", message)] else [];
      var d := DeltaEvents(words);
      var a := if artifact then [TheArtifact(artifactId)] else [];
      Assemble(search, message, words, artifact, artifactId) == t + (u + (d + (a + [End("complete")])))
  {
  }

  /** Thinking steps carry indices 1, 2, 3 in that order, and there are no others. */
  lemma ThinkingStepsFirst(message: string, artifactId: string)
    ensures var s := Script(message, artifactId);
      && |s| > 3
      && (forall k :: 0 <= k < 3 ==> s[k] == Thinking(ThinkingSteps[k], k + 1))
      && Filter(IsThinking, s) == ThinkingEvents()
  {
    var search, words, artifact := WantsSearch(message), Words(message), WantsArtifact(message);
    AssembleParts(search, message, words, artifact, artifactId);
    var rest := (if search then [Tool("web_search", message)] else [])
      + (DeltaEvents(words) + ((if artifact then [TheArtifact(artifactId)] else []) + [End("complete")]));
    FilterAppend(IsThinking, ThinkingEvents(), rest);
    FilterKeepsAll(IsThinking, ThinkingEvents());
    FilterDropsAll(IsThinking, rest);
  }

  /** There is exactly one tool call, querying the message itself, when the lower-cased message contains "search", and none otherwise. */
  lemma ToolCallIffSearch(message: string, artifactId: string)
    ensures Filter(IsTool, Script(message, artifactId)) ==
      (if WantsSearch(message) then [Tool("web_search", message)] else [])
  {
    var search, words, artifact := WantsSearch(message), Words(message), WantsArtifact(message);
    AssembleParts(search, message, words, artifact, artifactId);
    var t := ThinkingEvents();
    var u := if search then [Tool("web_search", message)] else [];
    var c := DeltaEvents(words) + ((if artifact then [TheArtifact(artifactId)] else []) + [End("complete")]);
    FilterAppend(IsTool, t, u + c);
    FilterAppend(IsTool, u, c);
    FilterDropsAll(IsTool, t);
    FilterKeepsAll(IsTool, u);
    FilterDropsAll(IsTool, c);
  }

  /** The text of the content deltas, concatenated in order. */
  function DeltaText(events: seq<Emitted>): string
    decreases |events|
  {
    if |events| == 0 then ""
    else (if events[0].Delta? then events[0].delta else "") + DeltaText(events[1..])
  }

  lemma {:induction false} DeltaTextAppend(a: seq<Emitted>, b: seq<Emitted>)
    ensures DeltaText(a + b) == DeltaText(a) + DeltaText(b)
    decreases |a|
  {
    if |a| == 0 {
      assert a + b == b;
    } else {
      assert (a + b)[1..] == a[1..] + b;
      DeltaTextAppend(a[1..], b);
    }
  }

  lemma {:induction false} DeltaTextNone(a: seq<Emitted>)
    requires forall k :: 0 <= k < |a| ==> !a[k].Delta?
    ensures DeltaText(a) == ""
    decreases |a|
  {
    if |a| > 0 {
      DeltaTextNone(a[1..]);
    }
  }

  /** The deltas of a list of words spell the words joined by spaces, plus one trailing space. */
  lemma {:induction false} DeltaTextOfWords(words: seq<string>)
    requires |words| >= 1
    ensures DeltaText(DeltaEvents(words)) == Join(words, ' ') + " "
    decreases |words|
  {
    var d := DeltaEvents(words);
    assert d[1..] == DeltaEvents(words[1..]);
    if |words| > 1 {
      DeltaTextOfWords(words[1..]);
    } else {
      assert DeltaEvents(words[1..]) == [];
    }
  }

  /**
   * The content deltas, concatenated, are the response followed by one space, and there is
   * exactly one delta per piece of `response.split(' ')`.
   */
  lemma DeltasSpellResponse(message: string, artifactId: string)
    ensures DeltaText(Script(message, artifactId)) == Response(message) + " "
    ensures |Filter(IsDelta, Script(message, artifactId))| == |Words(message)|
  {
    var search, words, artifact := WantsSearch(message), Words(message), WantsArtifact(message);
    AssembleParts(search, message, words, artifact, artifactId);
    var t := ThinkingEvents();
    var u := if search then [Tool("web_search", message)] else [];
    var d := DeltaEvents(words);
    var c := (if artifact then [TheArtifact(artifactId)] else []) + [End("complete")];
    var s := Script(message, artifactId);
    assert s == (t + u) + (d + c);
    DeltaTextAppend(t + u, d + c);
    DeltaTextAppend(d, c);
    DeltaTextNone(t + u);
    DeltaTextNone(c);
    DeltaTextOfWords(words);
    JoinSplit(Response(message), ' ');
    FilterAppend(IsDelta, t + u, d + c);
    FilterAppend(IsDelta, d, c);
    FilterDropsAll(IsDelta, t + u);
    FilterKeepsAll(IsDelta, d);
    FilterDropsAll(IsDelta, c);
  }

  /** At most one artifact: exactly one, of type "code", when the lower-cased message contains "code" or "create". */
  lemma ArtifactIffCodeOrCreate(message: string, artifactId: string)
    ensures Filter(IsArtifact, Script(message, artifactId)) ==
      (if WantsArtifact(message) then [TheArtifact(artifactId)] else [])
  {
    var search, words, artifact := WantsSearch(message), Words(message), WantsArtifact(message);
    AssembleParts(search, message, words, artifact, artifactId);
    var t := ThinkingEvents();
    var u := if search then [Tool("web_search", message)] else [];
    var d := DeltaEvents(words);
    var a := if artifact then [TheArtifact(artifactId)] else [];
    var s := Script(message, artifactId);
    assert s == (t + u + d) + (a + [End("complete")]);
    FilterAppend(IsArtifact, t + u + d, a + [End("complete")]);
    FilterAppend(IsArtifact, a, [End("complete")]);
    FilterDropsAll(IsArtifact, t + u + d);
    FilterKeepsAll(IsArtifact, a);
    FilterDropsAll(IsArtifact, [End("complete")]);
  }

  /** The position of each kind of event in the producer's fixed order. */
  function Rank(e: Emitted): nat {
    match e
    case Thinking(_, _) => 0
    case Tool(_, _) => 1
    case Delta(_) => 2
    case ArtifactMade(_, _, _, _, _) => 3
    case End(_) => 4
  }

  /**
   * The frames come in the order thinking steps, tool call, deltas, artifact, end: in
   * particular the artifact follows every delta. The end event, "complete", is the last
   * frame and the only end event.
   */
  lemma ScriptOrder(message: string, artifactId: string)
    ensures var s := Script(message, artifactId);
      && (forall i, j :: 0 <= i < j < |s| ==> Rank(s[i]) <= Rank(s[j]))
      && s[|s| - 1] == End("complete")
      && (forall i :: 0 <= i < |s| - 1 ==> !s[i].End?)
  {
    var search, words, artifact := WantsSearch(message), Words(message), WantsArtifact(message);
    AssembleParts(search, message, words, artifact, artifactId);
    var t := ThinkingEvents();
    var u := if search then [Tool("web_search", message)] else [];
    var d := DeltaEvents(words);
    var a := if artifact then [TheArtifact(artifactId)] else [];
    var s := Script(message, artifactId);
    assert s == t + u + d + a + [End("complete")];
    forall i | 0 <= i < |s|
      ensures Rank(s[i]) == if i < |t| then 0 else if i < |t| + |u| then 1
        else if i < |t| + |u| + |d| then 2 else if i < |t| + |u| + |d| + |a| then 3 else 4
    {
      if i < |t| {
        assert s[i] == t[i];
      } else if i < |t| + |u| {
        assert s[i] == u[i - |t|];
      } else if i < |t| + |u| + |d| {
        assert s[i] == d[i - |t| - |u|];
      } else if i < |t| + |u| + |d| + |a| {
        assert s[i] == a[i - |t| - |u| - |d|];
      }
    }
  }

  /**
   * What the producer writes for thinking steps and tool calls has the declared wire shape;
   * what it writes for deltas, artifacts and the end event matches no declared event,
   * because members are missing or named differently.
   */
  lemma ProducedShapes(step: string, index: int, tool: string, query: string, delta: string,
                       id: string, kind: string, title: string, language: string, content: string,
                       reason: string, e: StreamEvent)
    ensures ToJson(Thinking(step, index)) == EventToJson(ThinkingStepEvent(step, index))
    ensures ToJson(Tool(tool, query)) == EventToJson(ToolCallEvent(tool, query))
    ensures ToJson(Delta(delta)) != EventToJson(e)
    ensures ToJson(ArtifactMade(id, kind, title, language, content)) != EventToJson(e)
    ensures ToJson(End(reason)) != EventToJson(e)
  {
    DeclaredShapes(step, index, tool, query);
    EventDataSize(e);
    ProducedDataSize(delta, id, kind, title, language, content, reason);
  }

  /** A declared event's `data` object has two or three members. */
  lemma EventDataSize(e: StreamEvent)
    ensures DataSize(EventToJson(e)) in {2, 3}
  {
    var j := EventToJson(e);
    assert j.members[1].1.JObj?;
  }

  /** The producer's delta and end payloads have one member, its artifact payload five. */
  lemma ProducedDataSize(delta: string, id: string, kind: string, title: string, language: string,
                         content: string, reason: string)
    ensures DataSize(ToJson(Delta(delta))) == 1 && DataSize(ToJson(End(reason))) == 1
    ensures DataSize(ToJson(ArtifactMade(id, kind, title, language, content))) == 5
  {
  }

  /** Thinking steps and tool calls are written exactly as the declared events describe them. */
  lemma DeclaredShapes(step: string, index: int, tool: string, query: string)
    ensures ToJson(Thinking(step, index)) == EventToJson(ThinkingStepEvent(step, index))
    ensures ToJson(Tool(tool, query)) == EventToJson(ToolCallEvent(tool, query))
  {
    var thinking := JObj([("type", JStr("thinking_step")), ("data", JObj([("step", JStr(step)), ("index", JNum(index as real))]))]);
    assert ToJson(Thinking(step, index)) == thinking;
    assert EventToJson(ThinkingStepEvent(step, index)) == thinking;
    var call := JObj([("type", JStr("tool_call")), ("data", JObj([("tool", JStr(tool)), ("query", JStr(query))]))]);
    assert ToJson(Tool(tool, query)) == call;
    assert EventToJson(ToolCallEvent(tool, query)) == call;
  }

  /** The number of members of the `data` object of an event's wire form; 0 for any other shape. */
  function DataSize(j: Json): nat {
    if j.JObj? && |j.members| == 2 && j.members[1].1.JObj? then |j.members[1].1.members| else 0
  }
}
