/**
 * The application store (src/store/appStore.ts): one `State` record and one reducer per
 * action. zustand's `set` merges the returned fields into the state; here each reducer
 * returns the whole new state, with the fields the action does not mention unchanged.
 *
 * `new Date()` in `updateConversation` is the parameter `now` (milliseconds).
 */
module AppStore {
  import opened Wrappers
  import opened Types
  import opened Seqs

  /** The generation settings attached to a response style. */
  datatype StyleConfig = StyleConfig(systemPrompt: string, temperature: real, maxTokens: int)

  datatype State = State(
    sidebarCollapsed: bool,
    artifactsPanelOpen: bool,
    activeConversationId: Option<string>,
    conversations: seq<Conversation>,
    activeConnectors: seq<Connector>,
    selectedModel: ModelConfig,
    artifacts: seq<Artifact>,
    selectedStyle: string,
    styleConfig: StyleConfig)

  /** The four predefined response styles, by name. */
  const StyleConfigurations: map<string, StyleConfig> := map[
    "Normal" := StyleConfig("Respond naturally and conversationally with balanced detail.", 0.7, 2000),
    "Concise" := StyleConfig("Be extremely brief and to the point. Use short sentences. Avoid unnecessary elaboration.", 0.5, 1000),
    "Explanatory" := StyleConfig("Provide detailed explanations with examples, context, and thorough reasoning. Break down complex concepts.", 0.8, 3000),
    "Formal" := StyleConfig("Use formal language and professional tone. Avoid contractions. Maintain business-appropriate communication.", 0.6, 2000)
  ]

  /** The first entry of the model catalogue, the default model. */
  const DefaultModel := ModelConfig("mistral-large-3", "Mistral Large 3", "Mistral AI", 128000, 8.0)

  const InitialConnectors: seq<Connector> := [
    Connector(WebSearch, false, None),
    Connector(Research, false, None),
    Connector(Style, false, None),
    Connector(Model, true, None)
  ]

  /** The state the store is created with. */
  function Initial(): (s: State)
    ensures !s.sidebarCollapsed && !s.artifactsPanelOpen && s.activeConversationId.None?
    ensures s.conversations == [] && s.artifacts == []
    ensures s.selectedModel == DefaultModel && s.selectedModel.id == "mistral-large-3"
    ensures |s.activeConnectors| == 4
    ensures forall k :: 0 <= k < 4 ==> s.activeConnectors[k].config.None?
    ensures s.activeConnectors[0].kind == WebSearch && s.activeConnectors[1].kind == Research
    ensures s.activeConnectors[2].kind == Style && s.activeConnectors[3].kind == Model
    ensures s.selectedStyle == "Normal" && s.styleConfig == StyleConfigurations["Normal"]
  {
    State(false, false, None, [], InitialConnectors, DefaultModel, [], "Normal", StyleConfigurations["Normal"])
  }

  // ---------------------------------------------------------------- UI actions

  /** Negates `sidebarCollapsed` and nothing else. */
  function ToggleSidebar(s: State): (r: State)
    ensures r.sidebarCollapsed == !s.sidebarCollapsed
    ensures r.(sidebarCollapsed := s.sidebarCollapsed) == s
  {
    s.(sidebarCollapsed := !s.sidebarCollapsed)
  }

  /** Negates `artifactsPanelOpen` and nothing else. */
  function ToggleArtifactsPanel(s: State): (r: State)
    ensures r.artifactsPanelOpen == !s.artifactsPanelOpen
    ensures r.(artifactsPanelOpen := s.artifactsPanelOpen) == s
  {
    s.(artifactsPanelOpen := !s.artifactsPanelOpen)
  }

  /** Toggling either flag twice restores the state. */
  lemma TogglesAreInvolutions(s: State)
    ensures ToggleSidebar(ToggleSidebar(s)) == s
    ensures ToggleArtifactsPanel(ToggleArtifactsPanel(s)) == s
  {
  }

  function SetActiveConversation(s: State, id: Option<string>): (r: State)
    ensures r.activeConversationId == id
    ensures r.(activeConversationId := s.activeConversationId) == s
  {
    s.(activeConversationId := id)
  }

  // ---------------------------------------------------------------- conversations

  /** Places the new conversation first; the old list follows unchanged. */
  function AddConversation(s: State, c: Conversation): (r: State)
    ensures |r.conversations| == |s.conversations| + 1
    ensures r.conversations[0] == c && r.conversations[1..] == s.conversations
    ensures r.(conversations := s.conversations) == s
  {
    s.(conversations := [c] + s.conversations)
  }

  /** A `Partial<Conversation>`: each field is either supplied or absent. */
  datatype ConversationPatch = ConversationPatch(
    id: Option<string>,
    title: Option<string>,
    createdAt: Option<int>,
    updatedAt: Option<int>,
    messageCount: Option<int>,
    preview: Option<Option<string>>)

  /**
   * `{ ...conv, ...updates, updatedAt: now }`: supplied fields replace the old ones, and
   * `updatedAt` is `now` whether or not the patch supplied one.
   */
  function Merge(conv: Conversation, patch: ConversationPatch, now: int): (r: Conversation)
    ensures r.updatedAt == now
    ensures r.id == patch.id.GetOr(conv.id) && r.title == patch.title.GetOr(conv.title)
    ensures r.createdAt == patch.createdAt.GetOr(conv.createdAt)
    ensures r.messageCount == patch.messageCount.GetOr(conv.messageCount)
    ensures r.preview == patch.preview.GetOr(conv.preview)
  {
    Conversation(
      patch.id.GetOr(conv.id),
      patch.title.GetOr(conv.title),
      patch.createdAt.GetOr(conv.createdAt),
      now,
      patch.messageCount.GetOr(conv.messageCount),
      patch.preview.GetOr(conv.preview))
  }

  /** `conversations.map(...)`: merges the patch into every entry with the given id. */
  function UpdateMatching(cs: seq<Conversation>, id: string, patch: ConversationPatch, now: int): (r: seq<Conversation>)
    ensures |r| == |cs|
    ensures forall k :: 0 <= k < |cs| && cs[k].id != id ==> r[k] == cs[k]
    ensures forall k :: 0 <= k < |cs| && cs[k].id == id ==> r[k] == Merge(cs[k], patch, now)
    decreases |cs|
  {
    if |cs| == 0 then []
    else [if cs[0].id == id then Merge(cs[0], patch, now) else cs[0]] + UpdateMatching(cs[1..], id, patch, now)
  }

  /**
   * Merges the patch into every conversation with the given id, stamping `updatedAt`
   * with `now`; the list keeps its length and the others are unchanged.
   */
  function UpdateConversation(s: State, id: string, patch: ConversationPatch, now: int): (r: State)
    ensures r.conversations == UpdateMatching(s.conversations, id, patch, now)
    ensures r.(conversations := s.conversations) == s
  {
    s.(conversations := UpdateMatching(s.conversations, id, patch, now))
  }

  /** An update whose id matches nothing changes nothing. */
  lemma {:induction false} UpdateUnknownId(cs: seq<Conversation>, id: string, patch: ConversationPatch, now: int)
    requires forall k :: 0 <= k < |cs| ==> cs[k].id != id
    ensures UpdateMatching(cs, id, patch, now) == cs
  {
    var r := UpdateMatching(cs, id, patch, now);
    assert forall k :: 0 <= k < |cs| ==> r[k] == cs[k];
  }

  function NotConversation(id: string): Conversation -> bool {
    (c: Conversation) => c.id != id
  }

  /**
   * Removes every conversation with the given id and keeps each other one as often as it
   * occurs; clears the active id exactly when it was that id.
   */
  function DeleteConversation(s: State, id: string): (r: State)
    ensures forall k :: 0 <= k < |r.conversations| ==> r.conversations[k].id != id
    ensures forall k :: 0 <= k < |s.conversations| && s.conversations[k].id != id ==> s.conversations[k] in r.conversations
    ensures forall c :: multiset(r.conversations)[c] == if c.id != id then multiset(s.conversations)[c] else 0
    ensures Subsequence(r.conversations, s.conversations)
    ensures r.activeConversationId == if s.activeConversationId == Some(id) then None else s.activeConversationId
    ensures r.(conversations := s.conversations, activeConversationId := s.activeConversationId) == s
  {
    FilterSpec(NotConversation(id), s.conversations);
    s.(conversations := Filter(NotConversation(id), s.conversations),
       activeConversationId := if s.activeConversationId == Some(id) then None else s.activeConversationId)
  }

  /** Deleting an id leaves as many conversations as there were with a different id. */
  lemma DeleteCount(s: State, id: string)
    ensures |DeleteConversation(s, id).conversations| + |Filter((c: Conversation) => c.id == id, s.conversations)|
      == |s.conversations|
  {
    FilterComplement(NotConversation(id), (c: Conversation) => c.id == id, s.conversations);
  }

  // ---------------------------------------------------------------- connectors

  /** `conn.type === type`, comparing the wire spelling with an arbitrary string. */
  predicate HasType(c: Connector, t: string) {
    ConnectorTypeName(c.kind) == t
  }

  /** `activeConnectors.map(...)`: flips `enabled` on the connectors of the given type. */
  function ToggleMatching(cs: seq<Connector>, t: string): (r: seq<Connector>)
    ensures |r| == |cs|
    ensures forall k :: 0 <= k < |cs| ==> r[k].kind == cs[k].kind && r[k].config == cs[k].config
    ensures forall k :: 0 <= k < |cs| ==> r[k].enabled == (if HasType(cs[k], t) then !cs[k].enabled else cs[k].enabled)
    decreases |cs|
  {
    if |cs| == 0 then []
    else [if HasType(cs[0], t) then cs[0].(enabled := !cs[0].enabled) else cs[0]] + ToggleMatching(cs[1..], t)
  }

  /** Flips `enabled` on every connector of the given type; order and the other connectors are unchanged. */
  function ToggleConnector(s: State, t: string): (r: State)
    ensures r.activeConnectors == ToggleMatching(s.activeConnectors, t)
    ensures r.(activeConnectors := s.activeConnectors) == s
  {
    s.(activeConnectors := ToggleMatching(s.activeConnectors, t))
  }

  /** Toggling the same type twice restores the state. */
  lemma ToggleConnectorTwice(s: State, t: string)
    ensures ToggleConnector(ToggleConnector(s, t), t) == s
  {
    var once := ToggleMatching(s.activeConnectors, t);
    var twice := ToggleMatching(once, t);
    assert forall k :: 0 <= k < |twice| ==> twice[k] == s.activeConnectors[k];
  }

  // ---------------------------------------------------------------- model and artifacts

  function SetModel(s: State, m: ModelConfig): (r: State)
    ensures r.selectedModel == m
    ensures r.(selectedModel := s.selectedModel) == s
  {
    s.(selectedModel := m)
  }

  /** Appends the artifact at the end and opens the artifacts panel. */
  function AddArtifact(s: State, a: Artifact): (r: State)
    ensures r.artifacts == s.artifacts + [a]
    ensures r.artifactsPanelOpen
    ensures r.(artifacts := s.artifacts, artifactsPanelOpen := s.artifactsPanelOpen) == s
  {
    s.(artifacts := s.artifacts + [a], artifactsPanelOpen := true)
  }

  function NotArtifact(id: string): Artifact -> bool {
    (a: Artifact) => a.id != id
  }

  /**
   * Removes every artifact with the given id and keeps each other one as often as it
   * occurs, in order; the panel flag is left alone.
   */
  function RemoveArtifact(s: State, id: string): (r: State)
    ensures forall k :: 0 <= k < |r.artifacts| ==> r.artifacts[k].id != id
    ensures forall k :: 0 <= k < |s.artifacts| && s.artifacts[k].id != id ==> s.artifacts[k] in r.artifacts
    ensures forall a :: multiset(r.artifacts)[a] == if a.id != id then multiset(s.artifacts)[a] else 0
    ensures Subsequence(r.artifacts, s.artifacts)
    ensures r.(artifacts := s.artifacts) == s
  {
    FilterSpec(NotArtifact(id), s.artifacts);
    s.(artifacts := Filter(NotArtifact(id), s.artifacts))
  }

  /** Adding an artifact with a fresh id and removing it again gives back the list, with the panel open. */
  lemma AddThenRemoveArtifact(s: State, a: Artifact)
    requires forall k :: 0 <= k < |s.artifacts| ==> s.artifacts[k].id != a.id
    ensures RemoveArtifact(AddArtifact(s, a), a.id) == s.(artifactsPanelOpen := true)
  {
    FilterAppend(NotArtifact(a.id), s.artifacts, [a]);
    FilterKeepsAll(NotArtifact(a.id), s.artifacts);
    assert Filter(NotArtifact(a.id), [a]) == [];
  }

  // ---------------------------------------------------------------- styles

  function SetSelectedStyle(s: State, style: string): (r: State)
    ensures r.selectedStyle == style
    ensures r.(selectedStyle := s.selectedStyle) == s
  {
    s.(selectedStyle := style)
  }

  function SetStyleConfig(s: State, config: StyleConfig): (r: State)
    ensures r.styleConfig == config
    ensures r.(styleConfig := s.styleConfig) == s
  {
    s.(styleConfig := config)
  }

  /**
   * Selects a predefined style and its configuration together; an unknown name changes
   * nothing (the source only logs a warning).
   */
  function UpdateStyleFromSelection(s: State, name: string): (r: State)
    ensures name !in StyleConfigurations ==> r == s
    ensures name in StyleConfigurations ==> r.selectedStyle == name && r.styleConfig == StyleConfigurations[name]
    ensures r.(selectedStyle := s.selectedStyle, styleConfig := s.styleConfig) == s
  {
    if name in StyleConfigurations then s.(selectedStyle := name, styleConfig := StyleConfigurations[name])
    else s
  }

  /** The selected style is a predefined one and the configuration is the one it names. */
  predicate StyleConsistent(s: State) {
    s.selectedStyle in StyleConfigurations && s.styleConfig == StyleConfigurations[s.selectedStyle]
  }

  /**
   * The store starts style-consistent and `updateStyleFromSelection` keeps it so; only the
   * two raw setters can separate the name from its configuration.
   */
  lemma StyleConsistency(s: State, name: string)
    ensures StyleConsistent(Initial())
    ensures StyleConsistent(s) ==> StyleConsistent(UpdateStyleFromSelection(s, name))
    ensures name in StyleConfigurations ==> StyleConsistent(UpdateStyleFromSelection(s, name))
  {
  }

  // ---------------------------------------------------------------- selectors

  predicate IsEnabled(c: Connector) {
    c.enabled
  }

  /** `getEnabledConnectors`: the enabled connectors, in their order, each as often as it occurs. */
  function GetEnabledConnectors(s: State): (r: seq<Connector>)
    ensures forall k :: 0 <= k < |r| ==> r[k].enabled
    ensures forall k :: 0 <= k < |s.activeConnectors| && s.activeConnectors[k].enabled ==> s.activeConnectors[k] in r
    ensures forall c :: multiset(r)[c] == if c.enabled then multiset(s.activeConnectors)[c] else 0
    ensures Subsequence(r, s.activeConnectors)
  {
    FilterSpec(IsEnabled, s.activeConnectors);
    Filter(IsEnabled, s.activeConnectors)
  }

  /** Position `k` holds the first connector of type `t`. */
  predicate FirstOfType(cs: seq<Connector>, t: string, k: int) {
    0 <= k < |cs| && HasType(cs[k], t) && forall j :: 0 <= j < k ==> !HasType(cs[j], t)
  }

  /** `find(conn => conn.type === type)?.enabled || false`, over a list of connectors. */
  function FirstEnabled(cs: seq<Connector>, t: string): (r: bool)
    ensures r <==> exists k :: FirstOfType(cs, t, k) && cs[k].enabled
    ensures (forall k :: 0 <= k < |cs| ==> !HasType(cs[k], t)) ==> !r
    decreases |cs|
  {
    if |cs| == 0 then false
    else if HasType(cs[0], t) then
      assert FirstOfType(cs, t, 0);
      assert forall k :: FirstOfType(cs, t, k) ==> k == 0;
      cs[0].enabled
    else
      var r := FirstEnabled(cs[1..], t);
      assert forall k :: FirstOfType(cs[1..], t, k) <==> FirstOfType(cs, t, k + 1) by {
        forall k ensures FirstOfType(cs[1..], t, k) <==> FirstOfType(cs, t, k + 1) {
          if 0 <= k < |cs| - 1 {
            assert forall j :: 0 <= j < k ==> cs[1..][j] == cs[j + 1];
            assert forall j :: 0 < j < k + 1 ==> cs[j] == cs[1..][j - 1];
          }
        }
      }
      assert forall k :: FirstOfType(cs, t, k) ==> k > 0 && FirstOfType(cs[1..], t, k - 1);
      r
  }

  /** `isConnectorEnabled(type)`: the first connector of that type is enabled; false when there is none. */
  function IsConnectorEnabled(s: State, t: string): (r: bool)
    ensures r <==> exists k :: FirstOfType(s.activeConnectors, t, k) && s.activeConnectors[k].enabled
  {
    FirstEnabled(s.activeConnectors, t)
  }

  /** Toggling a type that some connector has flips whether that type counts as enabled. */
  lemma {:induction false} ToggleFlipsEnabled(cs: seq<Connector>, t: string)
    requires exists k :: 0 <= k < |cs| && HasType(cs[k], t)
    ensures FirstEnabled(ToggleMatching(cs, t), t) == !FirstEnabled(cs, t)
    decreases |cs|
  {
    var r := ToggleMatching(cs, t);
    assert r[1..] == ToggleMatching(cs[1..], t);
    if !HasType(cs[0], t) {
      var k :| 0 <= k < |cs| && HasType(cs[k], t);
      assert HasType(cs[1..][k - 1], t);
      ToggleFlipsEnabled(cs[1..], t);
    }
  }

  /** The same, on the store: toggling an existing type flips `isConnectorEnabled` for it. */
  lemma ToggleConnectorFlips(s: State, t: string)
    requires exists k :: 0 <= k < |s.activeConnectors| && HasType(s.activeConnectors[k], t)
    ensures IsConnectorEnabled(ToggleConnector(s, t), t) == !IsConnectorEnabled(s, t)
  {
    ToggleFlipsEnabled(s.activeConnectors, t);
  }

  /** Initially only the "model" connector is enabled. */
  lemma InitialConnectorsEnabled(t: string)
    ensures GetEnabledConnectors(Initial()) == [Connector(Model, true, None)]
    ensures IsConnectorEnabled(Initial(), t) <==> t == "model"
  {
    InitialEnabledList();
    InitialFirstEnabled(t);
  }

  /** Among the initial connectors, the first one of type `t` is enabled exactly when `t` is "model". */
  lemma InitialFirstEnabled(t: string)
    ensures FirstEnabled(InitialConnectors, t) <==> t == "model"
  {
    var cs := InitialConnectors;
    if FirstEnabled(cs, t) {
      var k :| FirstOfType(cs, t, k) && cs[k].enabled;
      assert k == 3;
    }
    if t == "model" {
      assert FirstOfType(cs, t, 3);
    }
  }

  /** Of the four initial connectors, only the last one passes the `enabled` filter. */
  lemma InitialEnabledList()
    ensures Filter(IsEnabled, InitialConnectors) == [Connector(Model, true, None)]
  {
    var cs := InitialConnectors;
    assert cs[1..][1..][1..][1..] == [];
  }

  /** What a request carries: the model id, the style name and configuration, the enabled connector types. */
  datatype RequestConfig = RequestConfig(model: string, style: string, styleConfig: StyleConfig, enabledConnectors: seq<string>)

  /** `getRequestConfig`: the enabled connectors are reported by their wire names, in order. */
  function GetRequestConfig(s: State): (r: RequestConfig)
    ensures r.model == s.selectedModel.id && r.style == s.selectedStyle && r.styleConfig == s.styleConfig
    ensures |r.enabledConnectors| == |GetEnabledConnectors(s)|
    ensures forall k :: 0 <= k < |r.enabledConnectors| ==>
      r.enabledConnectors[k] in ConnectorTypeNames && ParseConnectorType(r.enabledConnectors[k]) == Some(GetEnabledConnectors(s)[k].kind)
  {
    var enabled := GetEnabledConnectors(s);
    RequestConfig(s.selectedModel.id, s.selectedStyle, s.styleConfig,
      seq(|enabled|, k requires 0 <= k < |enabled| => ConnectorTypeName(enabled[k].kind)))
  }
}
