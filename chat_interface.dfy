/**
 * The project chat screen (`ChatInterface.jsx`): the agent chain the user
 * edits, the chain chosen when the page loads, the two payloads sent to the
 * server and the send gate with its transcript. Each handler is one atomic
 * step on the component's state; the HTTP calls are parameters (the data a
 * request returned, or whether it failed).
 */
module ChatInterface {
  import opened Wrappers
  import opened Strings
  import opened Models
  import Api
  import ChatService

  // ---------------------------------------------------------------------------
  // Agent logo

  datatype Logo = DocumentLogo | CodeLogo | GeneralLogo

  /** `getAgentLogo`: document and RAG agents first, then code agents, everything else general. */
  function AgentLogo(agentType: Option<string>): Logo {
    var t := Lower(agentType.GetOr(""));
    if Contains(t, "document") || Contains(t, "rag") then DocumentLogo
    else if Contains(t, "code") then CodeLogo
    else GeneralLogo
  }

  // ---------------------------------------------------------------------------
  // Chain resolution when the page loads

  /** The first position of the chain whose agent is `id`, if any (`Array.find`). */
  function FindAgent(chain: seq<ChainAgentConfig>, id: string): (r: Option<nat>)
    ensures r.Some? ==> r.value < |chain| && chain[r.value].agentId == id
    ensures r.Some? ==> forall j :: 0 <= j < r.value ==> chain[j].agentId != id
    ensures r.None? <==> forall j :: 0 <= j < |chain| ==> chain[j].agentId != id
    decreases |chain|
  {
    if chain == [] then None
    else if chain[0].agentId == id then Some(0)
    else
      match FindAgent(chain[1..], id)
      case None => None
      case Some(k) => Some(k + 1)
  }

  /** The stand-in for an agent of the legacy list: an id, a name and a type, but no context and no files. */
  function Placeholder(id: string): ChainAgentConfig {
    ChainAgentConfig(id, Some("Loading..."), Some("general"), None, None)
  }

  /** The `agent` query parameter counts only when present and non-empty. */
  predicate Selects(selector: Option<string>) { selector.Some? && selector.value != "" }

  /**
   * The chain the load effect sets, or `None` when it leaves the chain as it
   * was: the selected agent's first `chain_config` entry, else a placeholder
   * when the legacy list names it; with no selector the saved chat chain
   * when non-empty, else the project's `chain_config`.
   */
  function ResolveChain(selector: Option<string>, project: Project, historyChain: seq<ChainAgentConfig>): Option<seq<ChainAgentConfig>> {
    var projectChain := project.chainConfig.GetOr([]);
    if Selects(selector) then
      match FindAgent(projectChain, selector.value)
      case Some(i) => Some([projectChain[i]])
      case None =>
        if project.agents.Some? && selector.value in project.agents.value then Some([Placeholder(selector.value)])
        else None
    else if |historyChain| > 0 then Some(historyChain)
    else Some(projectChain)
  }

  // ---------------------------------------------------------------------------
  // Messages and payloads

  /** A transcript entry as the screen holds it. */
  datatype UiMessage = UiMessage(role: string, content: string, sources: Option<seq<string>>, agentType: Option<string>)

  const ErrorReply: string := "Sorry, I encountered an error."

  function StoredMessages(messages: seq<ChatMessage>): seq<UiMessage>
  {
    seq(|messages|, i requires 0 <= i < |messages| => UiMessage(messages[i].role, messages[i].content, messages[i].sources, None))
  }

  /** The assistant's entry for a reply, or the apology when the request failed. */
  function BotMessage(reply: Option<ChatService.ChatResponse>): UiMessage {
    match reply
    case Some(r) => UiMessage("assistant", r.answer, Some(r.sourceDocuments), Some(r.agentType))
    case None => UiMessage("assistant", ErrorReply, None, None)
  }

  /** The five fields of a chain step as the send handler copies them. */
  function Projection(item: ChainAgentConfig): ChainAgentConfig {
    ChainAgentConfig(item.agentId, item.name, item.agentType, item.context, item.files)
  }

  /** The `chain` field of a chat request: the projected steps in order, or nothing for an empty chain. */
  function SendPayload(chain: seq<ChainAgentConfig>): Option<seq<ChainAgentConfig>> {
    if |chain| > 0 then Some(seq(|chain|, i requires 0 <= i < |chain| => Projection(chain[i]))) else None
  }

  /** A chain step as the Apply button stores it: a missing context becomes `""` and missing files `[]`. */
  function Normalized(item: ChainAgentConfig): ChainAgentConfig {
    ChainAgentConfig(item.agentId, item.name, item.agentType, Some(item.context.GetOr("")), Some(item.files.GetOr([])))
  }

  function NormalizedChain(chain: seq<ChainAgentConfig>): seq<ChainAgentConfig>
  {
    seq(|chain|, i requires 0 <= i < |chain| => Normalized(chain[i]))
  }

  function AgentIds(chain: seq<ChainAgentConfig>): seq<string>
  {
    seq(|chain|, i requires 0 <= i < |chain| => chain[i].agentId)
  }

  /** The body of the Apply request: both fields always sent, even for an empty chain. */
  function ApplyPayload(chain: seq<ChainAgentConfig>): Api.ProjectUpdate {
    Api.ProjectUpdate(agents := Some(AgentIds(chain)), chainConfig := Some(NormalizedChain(chain)))
  }

  /** The fields of an `/agents` entry the add button reads. */
  datatype AgentCard = AgentCard(id: string, name: string, agentType: string)

  function NewStep(agent: AgentCard): ChainAgentConfig {
    ChainAgentConfig(agent.id, Some(agent.name), Some(agent.agentType), Some(""), Some([]))
  }

  /** `xs.filter((_, i) => i !== index)`. */
  function RemoveAt<T>(xs: seq<T>, index: nat): (r: seq<T>)
    decreases |xs|
  {
    if xs == [] then []
    else RemoveAt(xs[..|xs| - 1], index) + (if |xs| - 1 != index then [xs[|xs| - 1]] else [])
  }

  predicate IsBlank(s: string) { Strip(s, JsSpace) == "" }

  // ---------------------------------------------------------------------------
  // The component's state

  class ChatView {
    var chain: seq<ChainAgentConfig>
    var activeIndex: Option<nat>
    var messages: seq<UiMessage>
    var input: string
    var isLoading: bool
    var projectConfig: Option<Project>

    constructor ()
      ensures chain == [] && activeIndex == None && messages == [] && input == "" && !isLoading && projectConfig == None
    {
      chain := [];
      activeIndex := None;
      messages := [];
      input := "";
      isLoading := false;
      projectConfig := None;
    }

    /**
     * The load effect: once the project has been read it is kept; once the
     * chat has been read too, its messages are shown and the chain is
     * resolved. A failed read leaves the rest as it was.
     */
    method Load(project: Option<Project>, history: Option<Api.History>, selector: Option<string>)
      modifies this
      ensures projectConfig == if project.Some? then project else old(projectConfig)
      ensures project.Some? && history.Some? ==>
        && messages == StoredMessages(history.value.messages)
        && chain == ResolveChain(selector, project.value, history.value.chain).GetOr(old(chain))
      ensures project.None? || history.None? ==> chain == old(chain) && messages == old(messages)
      ensures activeIndex == old(activeIndex) && input == old(input) && isLoading == old(isLoading)
    {
      if project.Some? {
        projectConfig := project;
        if history.Some? {
          messages := StoredMessages(history.value.messages);
          var resolved := ResolveChain(selector, project.value, history.value.chain);
          if resolved.Some? {
            chain := resolved.value;
          }
        }
      }
    }

    /** `addToChain`. */
    method AddToChain(agent: AgentCard)
      modifies this
      ensures chain == old(chain) + [NewStep(agent)]
      ensures activeIndex == old(activeIndex) && messages == old(messages) && input == old(input)
      ensures isLoading == old(isLoading) && projectConfig == old(projectConfig)
    {
      chain := chain + [NewStep(agent)];
    }

    /** `removeFromChain`: the selection is cleared when it is the removed step and is otherwise kept as it is. */
    method RemoveFromChain(index: nat)
      modifies this
      ensures chain == RemoveAt(old(chain), index)
      ensures activeIndex == if old(activeIndex) == Some(index) then None else old(activeIndex)
      ensures messages == old(messages) && input == old(input) && isLoading == old(isLoading) && projectConfig == old(projectConfig)
    {
      chain := RemoveAt(chain, index);
      if activeIndex == Some(index) {
        activeIndex := None;
      }
    }

    /** `updateChainItem(index, 'context', value)`, the one field the screen edits; the panel exists only for a step of the chain. */
    method UpdateContext(index: nat, value: string)
      requires index < |chain|
      modifies this
      ensures chain == old(chain)[index := old(chain)[index].(context := Some(value))]
      ensures activeIndex == old(activeIndex) && messages == old(messages) && input == old(input)
      ensures isLoading == old(isLoading) && projectConfig == old(projectConfig)
    {
      chain := chain[index := chain[index].(context := Some(value))];
    }

    /** `handleFileUpload`: the file's name is added only once the upload succeeded. */
    method AttachFile(index: nat, file: Option<string>, uploaded: bool)
      requires index < |chain|
      modifies this
      ensures file.Some? && uploaded ==>
        chain == old(chain)[index := old(chain)[index].(files := Some(old(chain)[index].files.GetOr([]) + [file.value]))]
      ensures file.None? || !uploaded ==> chain == old(chain)
      ensures activeIndex == old(activeIndex) && messages == old(messages) && input == old(input)
      ensures isLoading == old(isLoading) && projectConfig == old(projectConfig)
    {
      if file.Some? && uploaded {
        var current := chain[index].files.GetOr([]);
        chain := chain[index := chain[index].(files := Some(current + [file.value]))];
      }
    }

    /** The remove button of the `position`-th file of the selected step, whose file list the panel shows. */
    method RemoveFile(index: nat, position: nat)
      requires index < |chain| && chain[index].files.Some?
      modifies this
      ensures chain == old(chain)[index := old(chain)[index].(files := Some(RemoveAt(old(chain)[index].files.value, position)))]
      ensures activeIndex == old(activeIndex) && messages == old(messages) && input == old(input)
      ensures isLoading == old(isLoading) && projectConfig == old(projectConfig)
    {
      chain := chain[index := chain[index].(files := Some(RemoveAt(chain[index].files.value, position)))];
    }

    /** A click on a step selects it, or clears the selection when it was the selected one. */
    method ToggleActive(index: nat)
      modifies this
      ensures activeIndex == if old(activeIndex) == Some(index) then None else Some(index)
      ensures chain == old(chain) && messages == old(messages) && input == old(input)
      ensures isLoading == old(isLoading) && projectConfig == old(projectConfig)
    {
      if activeIndex == Some(index) {
        activeIndex := None;
      } else {
        activeIndex := Some(index);
      }
    }

    /**
     * The synchronous half of `handleSendMessage`: refused for a blank input
     * or while a request is in flight; otherwise shows the user's message,
     * clears the input, marks the screen busy and gives the request to send.
     */
    method BeginSend() returns (request: Option<ChatRequest>)
      modifies this
      ensures IsBlank(old(input)) || old(isLoading) ==>
        request.None? && messages == old(messages) && input == old(input) && isLoading == old(isLoading)
      ensures !IsBlank(old(input)) && !old(isLoading) ==>
        && request == Some(ChatRequest(old(input), SendPayload(old(chain))))
        && messages == old(messages) + [UiMessage("user", old(input), None, None)]
        && input == "" && isLoading
      ensures chain == old(chain) && activeIndex == old(activeIndex) && projectConfig == old(projectConfig)
    {
      if IsBlank(input) || isLoading {
        return None;
      }
      var query := input;
      messages := messages + [UiMessage("user", query, None, None)];
      input := "";
      isLoading := true;
      request := Some(ChatRequest(query, SendPayload(chain)));
    }

    /** The rest of `handleSendMessage`: the reply, or the apology, and the screen is no longer busy. */
    method FinishSend(reply: Option<ChatService.ChatResponse>)
      modifies this
      ensures messages == old(messages) + [BotMessage(reply)]
      ensures !isLoading
      ensures chain == old(chain) && activeIndex == old(activeIndex) && input == old(input) && projectConfig == old(projectConfig)
    {
      messages := messages + [BotMessage(reply)];
      isLoading := false;
    }

    /** A whole send, the request answered with `reply` (`None` when it failed). */
    method SendMessage(reply: Option<ChatService.ChatResponse>) returns (request: Option<ChatRequest>)
      modifies this
      ensures request.None? <==> IsBlank(old(input)) || old(isLoading)
      ensures request.None? ==> messages == old(messages) && input == old(input) && isLoading == old(isLoading)
      ensures request.Some? ==>
        && request.value == ChatRequest(old(input), SendPayload(old(chain)))
        && messages == old(messages) + [UiMessage("user", old(input), None, None), BotMessage(reply)]
        && input == "" && !isLoading
      ensures chain == old(chain) && activeIndex == old(activeIndex) && projectConfig == old(projectConfig)
    {
      request := BeginSend();
      if request.Some? {
        FinishSend(reply);
      }
    }
  }

  // ---------------------------------------------------------------------------
  // Properties

  lemma LowerIdempotent(s: string)
    ensures Lower(Lower(s)) == Lower(s)
  {
  }

  /** The logo ignores letter case, and an agent without a type gets the general logo. */
  lemma AgentLogoCases(agentType: string)
    ensures AgentLogo(Some(agentType)) == AgentLogo(Some(Lower(agentType)))
    ensures AgentLogo(None) == GeneralLogo
  {
    LowerIdempotent(agentType);
  }

  /** A selected agent listed in the project's chain becomes the whole chain, whatever the saved chat holds. */
  lemma SelectedAgentWins(id: string, project: Project, historyChain: seq<ChainAgentConfig>, i: nat)
    requires id != "" && project.chainConfig.Some?
    requires i < |project.chainConfig.value| && project.chainConfig.value[i].agentId == id
    requires forall j :: 0 <= j < i ==> project.chainConfig.value[j].agentId != id
    ensures ResolveChain(Some(id), project, historyChain) == Some([project.chainConfig.value[i]])
  {
  }

  /** A selected agent missing from the chain gets a placeholder when the legacy list has it, and changes nothing otherwise. */
  lemma SelectedAgentElsewhere(id: string, project: Project, historyChain: seq<ChainAgentConfig>)
    requires id != ""
    requires forall j :: 0 <= j < |project.chainConfig.GetOr([])| ==> project.chainConfig.GetOr([])[j].agentId != id
    ensures project.agents.Some? && id in project.agents.value ==>
      ResolveChain(Some(id), project, historyChain) == Some([ChainAgentConfig(id, Some("Loading..."), Some("general"), None, None)])
    ensures !(project.agents.Some? && id in project.agents.value) ==> ResolveChain(Some(id), project, historyChain).None?
  {
  }

  /** Without a selector the saved chat chain wins when non-empty; else the project's chain, or none. */
  lemma NoSelector(selector: Option<string>, project: Project, historyChain: seq<ChainAgentConfig>)
    requires !Selects(selector)
    ensures |historyChain| > 0 ==> ResolveChain(selector, project, historyChain) == Some(historyChain)
    ensures |historyChain| == 0 && project.chainConfig.Some? ==> ResolveChain(selector, project, historyChain) == project.chainConfig
    ensures |historyChain| == 0 && project.chainConfig.None? ==> ResolveChain(selector, project, historyChain) == Some([])
  {
  }

  lemma {:induction false} RemoveAtSlices<T>(xs: seq<T>, index: nat)
    ensures index < |xs| ==> RemoveAt(xs, index) == xs[..index] + xs[index + 1..]
    ensures index >= |xs| ==> RemoveAt(xs, index) == xs
    decreases |xs|
  {
    if xs != [] {
      var init, last := xs[..|xs| - 1], xs[|xs| - 1];
      RemoveAtSlices(init, index);
      if index < |init| {
        assert init[..index] == xs[..index];
        assert init[index + 1..] + [last] == xs[index + 1..];
      } else if index == |init| {
        assert xs[..index] == init;
        assert xs[index + 1..] == [];
      } else {
        assert init + [last] == xs;
      }
    }
  }

  /**
   * Removing a step keeps the others in their order and drops exactly the
   * one at `index`; a position past the end changes nothing.
   */
  lemma RemoveFromChainShape<T>(xs: seq<T>, index: nat)
    ensures index < |xs| ==> |RemoveAt(xs, index)| == |xs| - 1
    ensures index < |xs| ==> forall j :: 0 <= j < index ==> RemoveAt(xs, index)[j] == xs[j]
    ensures index < |xs| ==> forall j :: index <= j < |xs| - 1 ==> RemoveAt(xs, index)[j] == xs[j + 1]
    ensures index >= |xs| ==> RemoveAt(xs, index) == xs
  {
    RemoveAtSlices(xs, index);
  }

  /** The send payload loses nothing: it is the chain itself, and nothing at all for an empty chain. */
  lemma SendPayloadIsChain(chain: seq<ChainAgentConfig>)
    ensures SendPayload(chain).None? <==> chain == []
    ensures chain != [] ==> SendPayload(chain) == Some(chain)
  {
    if chain != [] {
      assert SendPayload(chain).value == chain;
    }
  }

  /** Applying twice stores the same chain as applying once. */
  lemma NormalizedIdempotent(chain: seq<ChainAgentConfig>)
    ensures NormalizedChain(NormalizedChain(chain)) == NormalizedChain(chain)
    ensures forall i :: 0 <= i < |chain| ==>
      NormalizedChain(chain)[i].context.Some? && NormalizedChain(chain)[i].files.Some?
  {
  }

  /**
   * After Apply the project holds the chain (with its defaults filled in)
   * and the agents' ids in order, so a user opening the chat without a
   * selector or a saved chain gets that chain, and the server runs it as
   * the project's chain.
   */
  lemma ApplyThenLoad(projectId: string, chain: seq<ChainAgentConfig>, stored: Project)
    requires IsValidObjectId(projectId)
    ensures var result := Api.UpdateProject(projectId, ApplyPayload(chain), Some(stored));
      && result == Ok(("Project updated successfully", result.value.1))
      && result.value.1.Some?
      && result.value.1.value.chainConfig == Some(NormalizedChain(chain))
      && result.value.1.value.agents == Some(AgentIds(chain))
      && ResolveChain(None, result.value.1.value, []) == Some(NormalizedChain(chain))
      && (chain != [] ==> ChatService.DefaultChain(result.value.1.value) == NormalizedChain(chain))
  {
    var update := ApplyPayload(chain);
    Api.UpdateProjectEffect(projectId, update, Some(stored));
    assert update != Api.ProjectUpdate();
  }

  /**
   * A normalised step builds the same context prompt: an empty context and an
   * empty file list add nothing, exactly as a missing one does.
   */
  lemma NormalizedPromptSame(item: ChainAgentConfig, env: ChatService.Env)
    ensures ChatService.ContextPrompt(Normalized(item), env) == ChatService.ContextPrompt(item, env)
  {
    assert ChatService.HasContext(Normalized(item)) == ChatService.HasContext(item);
    assert ChatService.HasFiles(Normalized(item)) == ChatService.HasFiles(item);
  }

  /** The chain Apply stores runs exactly as the chain on the screen: same answer, same error. */
  lemma {:induction false} NormalizedRunsTheSame(query: string, chain: seq<ChainAgentConfig>,
                                                 agents: string -> Option<Agent>, env: ChatService.Env)
    ensures ChatService.Pipeline(query, NormalizedChain(chain), agents, env) == ChatService.Pipeline(query, chain, agents, env)
    decreases |chain|
  {
    if chain != [] {
      var n := |chain| - 1;
      assert NormalizedChain(chain)[..n] == NormalizedChain(chain[..n]);
      NormalizedRunsTheSame(query, chain[..n], agents, env);
      NormalizedPromptSame(chain[n], env);
    }
  }

  /**
   * The `agents` field names exactly the agents of the chain, and the stored
   * copy uses the same agents, so the server's check of a requested chain
   * against the project's agents is unchanged by Apply.
   */
  lemma AgentIdsCoverChain(chain: seq<ChainAgentConfig>)
    ensures (set k | 0 <= k < |AgentIds(chain)| :: AgentIds(chain)[k]) == ChatService.ChainIds(chain)
    ensures ChatService.ChainIds(NormalizedChain(chain)) == ChatService.ChainIds(chain)
  {
    var ids := AgentIds(chain);
    var norm := NormalizedChain(chain);
    forall x | x in ChatService.ChainIds(chain)
      ensures x in (set k | 0 <= k < |ids| :: ids[k]) && x in ChatService.ChainIds(norm)
    {
      var k :| 0 <= k < |chain| && chain[k].agentId == x;
      assert ids[k] == x && norm[k].agentId == x;
    }
  }

  /**
   * Reloading the chat after a turn the server saved shows the transcript
   * the screen showed live: the user's message, then the reply with its
   * sources, minus the agent type label, which the server does not store.
   */
  lemma ReloadAfterTurn(saved: seq<ChatMessage>, query: string, now: Timestamp, response: ChatService.ChatResponse)
    ensures StoredMessages(saved + [ChatMessage("user", query, now), ChatMessage("assistant", response.answer, now, Some(response.sourceDocuments))])
      == StoredMessages(saved) + [UiMessage("user", query, None, None), BotMessage(Some(response)).(agentType := None)]
  {
  }

  /** Every step added by the add button carries an empty context and no files, so Apply stores it unchanged. */
  lemma NewStepNormal(agent: AgentCard)
    ensures Normalized(NewStep(agent)) == NewStep(agent)
    ensures NewStep(agent).agentId == agent.id
  {
  }
}
