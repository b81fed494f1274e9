/**
 * The server side of a chat turn (`process_chat_request`): the permission
 * checks, the choice of the agent chain to run, the pipeline that feeds each
 * agent's answer to the next one, and the shape of the stored session and of
 * the result. The database, the file system, the retrieval service and the
 * agents' own code are parameters.
 */
module ChatService {
  import opened Wrappers
  import opened Strings
  import opened Models

  /** The exceptions `process_chat_request` lets escape. */
  datatype ChatError =
    | ValueError(message: string)
    /** `ObjectId(agent_id)` on a chain step whose agent id is not a valid ObjectId. */
    | InvalidId(id: string)

  /**
   * What the steps of a chain can observe outside the request: whether a
   * referenced file exists, the text a loader gives for a .pdf or .txt file
   * (`None` when it raises), the retrieval service's answer to a query, and
   * the `run` of a code agent on an input (`Err` carrying the exception).
   */
  datatype Env = Env(
    fileExists: string -> bool,
    loadFile: string -> Option<string>,
    rag: string -> Result<string, string>,
    run: (Agent, string) -> Result<string, string>)

  // ---------------------------------------------------------------------------
  // Permissions and the choice of chain

  /** The three checks, in order; `None` when the request may go on. */
  function CheckAccess(projectId: string, project: Option<Project>, role: string, allowed: seq<string>): Option<ChatError> {
    if !IsValidObjectId(projectId) then Some(ValueError("Invalid Project ID"))
    else if project.None? then Some(ValueError("Project not found"))
    else if role != "admin" && projectId !in allowed then Some(ValueError("Not authorized to access this project"))
    else None
  }

  /** One bare chain step per legacy agent id that is a valid ObjectId, in order. */
  function LegacyChain(agents: seq<string>): (r: seq<ChainAgentConfig>)
    ensures |r| <= |agents|
    decreases |agents|
  {
    if agents == [] then []
    else (if IsValidObjectId(agents[0]) then [ChainAgentConfig(agents[0])] else []) + LegacyChain(agents[1..])
  }

  /** The project's own chain: its `chain_config` when non-empty, else its legacy agents, else nothing. */
  function DefaultChain(project: Project): seq<ChainAgentConfig> {
    if project.chainConfig.Some? && |project.chainConfig.value| > 0 then project.chainConfig.value
    else if project.agents.Some? && |project.agents.value| > 0 then LegacyChain(project.agents.value)
    else []
  }

  function ChainIds(chain: seq<ChainAgentConfig>): set<string> {
    set i | 0 <= i < |chain| :: chain[i].agentId
  }

  /**
   * The chain that runs: a non-empty requested chain as given for an admin,
   * or for anyone else when it uses no agent outside the project's chain;
   * the project's chain in every other case.
   */
  function ExecutionChain(requested: Option<seq<ChainAgentConfig>>, role: string, default: seq<ChainAgentConfig>): seq<ChainAgentConfig> {
    if requested.Some? && |requested.value| > 0 then
      if role == "admin" then requested.value
      else if ChainIds(requested.value) <= ChainIds(default) then requested.value
      else default
    else default
  }

  // ---------------------------------------------------------------------------
  // The context prompt of one step

  predicate HasContext(item: ChainAgentConfig) { item.context.Some? && item.context.value != "" }

  predicate HasFiles(item: ChainAgentConfig) { item.files.Some? && |item.files.value| > 0 }

  /** The block one referenced file adds, or `None` when it is missing or cannot be read. */
  function FileBlock(filename: string, env: Env): Option<string> {
    if !env.fileExists(filename) then None
    else
      var loaded :=
        if EndsWith(filename, ".pdf") || EndsWith(filename, ".txt") then env.loadFile(filename) else Some("");
      match loaded
      case None => None
      case Some(content) => Some("\n--- Content of " + filename + " ---\n" + RemoveChar(content, '\0') + "\n")
  }

  /** `file_context`: the blocks of the readable files, in order. */
  function FileContext(files: seq<string>, env: Env): string
    decreases |files|
  {
    if files == [] then ""
    else FileContext(files[..|files| - 1], env) + FileBlock(files[|files| - 1], env).GetOr("")
  }

  function ContextLine(context: string): string { "\nContext: " + context + "\n" }

  function ContentsBlock(fileContext: string): string { "\nFile Contents:\n" + fileContext + "\n" }

  function UnreadLine(files: seq<string>): string {
    "\nReferenced Files: " + Join(files, ", ") + " (Could not read content)\n"
  }

  function ContextPart(item: ChainAgentConfig): string {
    if HasContext(item) then ContextLine(item.context.value) else ""
  }

  function FilesPart(item: ChainAgentConfig, env: Env): string {
    if !HasFiles(item) then ""
    else
      var fileContext := FileContext(item.files.value, env);
      if fileContext != "" then ContentsBlock(fileContext) else UnreadLine(item.files.value)
  }

  /** The text added to a step's input: its context, then what its files give. */
  function ContextPrompt(item: ChainAgentConfig, env: Env): string {
    ContextPart(item) + FilesPart(item, env)
  }

  /** The loop over the referenced files, growing `file_context` one block at a time. */
  method ReadFiles(files: seq<string>, env: Env) returns (fileContext: string)
    ensures fileContext == FileContext(files, env)
  {
    fileContext := "";
    var i := 0;
    while i < |files|
      invariant 0 <= i <= |files|
      invariant fileContext == FileContext(files[..i], env)
    {
      assert files[..i + 1][..i] == files[..i];
      var filename := files[i];
      if env.fileExists(filename) {
        var content: Option<string> := Some("");
        if EndsWith(filename, ".pdf") || EndsWith(filename, ".txt") {
          content := env.loadFile(filename);
        }
        if content.Some? {
          fileContext := fileContext + ("\n--- Content of " + filename + " ---\n" + RemoveChar(content.value, '\0') + "\n");
        }
      }
      i := i + 1;
    }
    assert files[..i] == files;
  }

  /** The statements that build `context_prompt` for one step. */
  method BuildContextPrompt(item: ChainAgentConfig, env: Env) returns (prompt: string)
    ensures prompt == ContextPrompt(item, env)
  {
    prompt := "";
    if HasContext(item) {
      prompt := prompt + ContextLine(item.context.value);
    }
    assert prompt == ContextPart(item);
    if HasFiles(item) {
      var fileContext := ReadFiles(item.files.value, env);
      if fileContext != "" {
        assert FilesPart(item, env) == ContentsBlock(fileContext);
        prompt := prompt + ContentsBlock(fileContext);
      } else {
        assert FilesPart(item, env) == UnreadLine(item.files.value);
        prompt := prompt + UnreadLine(item.files.value);
      }
    } else {
      assert prompt == ContextPart(item) + FilesPart(item, env);
    }
  }

  // ---------------------------------------------------------------------------
  // The pipeline

  /** An agent answered by the retrieval service: type "rag", or a type mentioning "document". */
  predicate IsRagAgent(agent: Agent) {
    Lower(agent.agentType) == "rag" || Contains(Lower(agent.agentType), "document")
  }

  /** What one chain step makes of the current input. */
  function Step(current: string, item: ChainAgentConfig, agents: string -> Option<Agent>, env: Env): Result<string, ChatError> {
    if !IsValidObjectId(item.agentId) then Err(InvalidId(item.agentId))
    else match agents(item.agentId)
      case None => Ok(current)
      case Some(agent) =>
        var prompt := ContextPrompt(item, env);
        if IsRagAgent(agent) then
          match env.rag(current + " " + prompt)
          case Ok(answer) => Ok(answer)
          case Err(e) => Ok("Error executing agent " + agent.name + ": " + e)
        else if agent.filePath.None? || agent.filePath == Some("") then
          Ok("Error: Agent " + agent.name + " has no file path.")
        else
          match env.run(agent, current + prompt)
          case Ok(answer) => Ok(answer)
          case Err(e) => Ok("Error executing agent " + agent.name + ": " + e)
  }

  /** The chain as a fold: the query goes in, each step's result is the next step's input. */
  function Pipeline(query: string, chain: seq<ChainAgentConfig>, agents: string -> Option<Agent>, env: Env): Result<string, ChatError>
    decreases |chain|
  {
    if chain == [] then Ok(query)
    else match Pipeline(query, chain[..|chain| - 1], agents, env)
      case Err(e) => Err(e)
      case Ok(current) => Step(current, chain[|chain| - 1], agents, env)
  }

  /** The body of the loop for one chain step. */
  method RunStep(current: string, item: ChainAgentConfig, agents: string -> Option<Agent>, env: Env)
    returns (r: Result<string, ChatError>)
    ensures r == Step(current, item, agents, env)
  {
    if !IsValidObjectId(item.agentId) {
      return Err(InvalidId(item.agentId));
    }
    var found := agents(item.agentId);
    if found.None? {
      return Ok(current);
    }
    var agent := found.value;
    var prompt := BuildContextPrompt(item, env);
    if IsRagAgent(agent) {
      var res := env.rag(current + " " + prompt);
      r := Ok(if res.Ok? then res.value else "Error executing agent " + agent.name + ": " + res.error);
    } else if agent.filePath.None? || agent.filePath == Some("") {
      r := Ok("Error: Agent " + agent.name + " has no file path.");
    } else {
      var res := env.run(agent, current + prompt);
      r := Ok(if res.Ok? then res.value else "Error executing agent " + agent.name + ": " + res.error);
    }
  }

  /** The loop of `process_chat_request` over the execution chain. */
  method RunChain(query: string, chain: seq<ChainAgentConfig>, agents: string -> Option<Agent>, env: Env)
    returns (r: Result<string, ChatError>)
    ensures r == Pipeline(query, chain, agents, env)
  {
    var current := query;
    var i := 0;
    while i < |chain|
      invariant 0 <= i <= |chain|
      invariant Pipeline(query, chain[..i], agents, env) == Ok(current)
    {
      assert chain[..i + 1][..i] == chain[..i];
      var step := RunStep(current, chain[i], agents, env);
      if step.Err? {
        PipelineErrorSticks(query, chain, agents, env, i + 1);
        return step;
      }
      current := step.value;
      i := i + 1;
    }
    assert chain[..i] == chain;
    r := Ok(current);
  }

  lemma {:induction false} PipelineErrorSticks(query: string, chain: seq<ChainAgentConfig>, agents: string -> Option<Agent>, env: Env, i: nat)
    requires i <= |chain| && Pipeline(query, chain[..i], agents, env).Err?
    ensures Pipeline(query, chain, agents, env) == Pipeline(query, chain[..i], agents, env)
    decreases |chain| - i
  {
    if i < |chain| {
      assert chain[..i + 1][..i] == chain[..i];
      PipelineErrorSticks(query, chain, agents, env, i + 1);
    } else {
      assert chain[..i] == chain;
    }
  }

  // ---------------------------------------------------------------------------
  // The whole request

  datatype ChatResponse = ChatResponse(answer: string, sourceDocuments: seq<string>, agentType: string)

  /** The session after the turn: the existing one with the two messages and the chain, or a new one. */
  function SaveTurn(existing: Option<ChatSession>, projectId: string, userEmail: string,
                    userMsg: ChatMessage, aiMsg: ChatMessage, chain: seq<ChainAgentConfig>, now: Timestamp): ChatSession {
    match existing
    case Some(s) => s.(messages := s.messages + [userMsg, aiMsg], currentChain := Some(chain))
    case None => ChatSession(projectId, now, userEmail := Some(userEmail), messages := [userMsg, aiMsg], currentChain := Some(chain))
  }

  /**
   * `process_chat_request`. `project` is the project found under the id,
   * `agents` the agent lookup, `ragAnswer` what the retrieval service answers
   * (with its sources) when no chain runs, `existing` the user's session on
   * this project, `now` the clock.
   */
  function ProcessChat(projectId: string, query: string, userEmail: string, requested: Option<seq<ChainAgentConfig>>,
                       role: string, allowed: seq<string>, project: Option<Project>, agents: string -> Option<Agent>,
                       env: Env, ragAnswer: (string, seq<string>), existing: Option<ChatSession>, now: Timestamp)
    : Result<(ChatResponse, ChatSession), ChatError>
  {
    match CheckAccess(projectId, project, role, allowed)
    case Some(e) => Err(e)
    case None =>
      var chain := ExecutionChain(requested, role, DefaultChain(project.value));
      var outcome := if chain != [] then Pipeline(query, chain, agents, env) else Ok(ragAnswer.0);
      match outcome
      case Err(e) => Err(e)
      case Ok(answer) =>
        var sources := if chain != [] then [] else ragAnswer.1;
        var userMsg := ChatMessage("user", query, now);
        var aiMsg := ChatMessage("assistant", answer, now, Some(sources));
        Ok((ChatResponse(answer, sources, if chain != [] then "chain" else "rag"),
            SaveTurn(existing, projectId, userEmail, userMsg, aiMsg, chain, now)))
  }

  /** `process_chat_request`, with the chain run by its loop. */
  method ProcessChatRequest(projectId: string, query: string, userEmail: string, requested: Option<seq<ChainAgentConfig>>,
                            role: string, allowed: seq<string>, project: Option<Project>, agents: string -> Option<Agent>,
                            env: Env, ragAnswer: (string, seq<string>), existing: Option<ChatSession>, now: Timestamp)
    returns (r: Result<(ChatResponse, ChatSession), ChatError>)
    ensures r == ProcessChat(projectId, query, userEmail, requested, role, allowed, project, agents, env, ragAnswer, existing, now)
  {
    var denied := CheckAccess(projectId, project, role, allowed);
    if denied.Some? {
      return Err(denied.value);
    }
    var chain := ExecutionChain(requested, role, DefaultChain(project.value));
    var answer := ragAnswer.0;
    var sources := ragAnswer.1;
    if chain != [] {
      var outcome := RunChain(query, chain, agents, env);
      if outcome.Err? {
        return Err(outcome.error);
      }
      answer := outcome.value;
      sources := [];
    }
    var userMsg := ChatMessage("user", query, now);
    var aiMsg := ChatMessage("assistant", answer, now, Some(sources));
    var session := SaveTurn(existing, projectId, userEmail, userMsg, aiMsg, chain, now);
    r := Ok((ChatResponse(answer, sources, if chain != [] then "chain" else "rag"), session));
  }

  // ---------------------------------------------------------------------------
  // Properties

  /** The checks come in order: id format, then existence, then the caller's rights. */
  lemma AccessOrder(projectId: string, project: Option<Project>, role: string, allowed: seq<string>)
    ensures !IsValidObjectId(projectId) ==> CheckAccess(projectId, project, role, allowed) == Some(ValueError("Invalid Project ID"))
    ensures IsValidObjectId(projectId) && project.None? ==> CheckAccess(projectId, project, role, allowed) == Some(ValueError("Project not found"))
    ensures CheckAccess(projectId, project, role, allowed) == None
      <==> IsValidObjectId(projectId) && project.Some? && (role == "admin" || projectId in allowed)
  {
  }

  /** A refused request runs no chain and stores nothing. */
  lemma DeniedChat(projectId: string, query: string, userEmail: string, requested: Option<seq<ChainAgentConfig>>,
                   role: string, allowed: seq<string>, project: Option<Project>, agents: string -> Option<Agent>,
                   env: Env, ragAnswer: (string, seq<string>), existing: Option<ChatSession>, now: Timestamp)
    requires IsValidObjectId(projectId) && project.Some? && role != "admin" && projectId !in allowed
    ensures ProcessChat(projectId, query, userEmail, requested, role, allowed, project, agents, env, ragAnswer, existing, now)
      == Err(ValueError("Not authorized to access this project"))
  {
  }

  /** The legacy chain keeps exactly the valid ids, in order, as bare steps. */
  lemma {:induction false} LegacyChainShape(agents: seq<string>)
    ensures forall k :: 0 <= k < |LegacyChain(agents)| ==> LegacyChain(agents)[k] == ChainAgentConfig(LegacyChain(agents)[k].agentId)
    ensures forall k :: 0 <= k < |LegacyChain(agents)| ==> IsValidObjectId(LegacyChain(agents)[k].agentId)
    ensures ChainIds(LegacyChain(agents)) == set i | 0 <= i < |agents| && IsValidObjectId(agents[i]) :: agents[i]
    decreases |agents|
  {
    if agents != [] {
      LegacyChainShape(agents[1..]);
      var head: seq<ChainAgentConfig> := if IsValidObjectId(agents[0]) then [ChainAgentConfig(agents[0])] else [];
      var rest := LegacyChain(agents[1..]);
      assert LegacyChain(agents) == head + rest;
      forall k | 0 <= k < |head + rest|
        ensures (head + rest)[k] == ChainAgentConfig((head + rest)[k].agentId) && IsValidObjectId((head + rest)[k].agentId)
      {
        if k >= |head| {
          assert (head + rest)[k] == rest[k - |head|];
        }
      }
      ChainIdsAppend(head, rest);
      assert forall i :: 0 <= i < |agents| - 1 ==> agents[1..][i] == agents[i + 1];
      var valid := set i | 0 <= i < |agents| && IsValidObjectId(agents[i]) :: agents[i];
      var validRest := set i | 0 <= i < |agents[1..]| && IsValidObjectId(agents[1..][i]) :: agents[1..][i];
      assert valid == ChainIds(head) + validRest by {
        forall x | x in valid ensures x in ChainIds(head) + validRest {
          var i :| 0 <= i < |agents| && IsValidObjectId(agents[i]) && agents[i] == x;
          if i > 0 {
            assert agents[1..][i - 1] == x;
          } else {
            assert head[0].agentId == x;
          }
        }
      }
    }
  }

  lemma ChainIdsAppend(a: seq<ChainAgentConfig>, b: seq<ChainAgentConfig>)
    ensures ChainIds(a + b) == ChainIds(a) + ChainIds(b)
  {
    forall x | x in ChainIds(a) ensures x in ChainIds(a + b) {
      var i :| 0 <= i < |a| && a[i].agentId == x;
      assert (a + b)[i].agentId == x;
    }
    forall x | x in ChainIds(a + b) ensures x in ChainIds(a) + ChainIds(b) {
      var i :| 0 <= i < |a + b| && (a + b)[i].agentId == x;
      if i >= |a| {
        assert b[i - |a|].agentId == x;
      }
    }
    forall x | x in ChainIds(b) ensures x in ChainIds(a + b) {
      var i :| 0 <= i < |b| && b[i].agentId == x;
      assert (a + b)[i + |a|].agentId == x;
    }
  }

  /** A non-admin never runs an agent outside the project's own chain. */
  lemma NonAdminStaysInProject(requested: Option<seq<ChainAgentConfig>>, role: string, default: seq<ChainAgentConfig>)
    requires role != "admin"
    ensures ChainIds(ExecutionChain(requested, role, default)) <= ChainIds(default)
  {
  }

  /** Without a non-empty request the project's chain runs, whoever asks; an admin's request always runs. */
  lemma ExecutionChainCases(requested: Option<seq<ChainAgentConfig>>, role: string, default: seq<ChainAgentConfig>)
    ensures requested.None? || requested == Some([]) ==> ExecutionChain(requested, role, default) == default
    ensures requested.Some? && requested.value != [] && role == "admin" ==> ExecutionChain(requested, role, default) == requested.value
    ensures requested.Some? && requested.value != [] && role != "admin" ==>
      (ExecutionChain(requested, role, default) == requested.value <==> ChainIds(requested.value) <= ChainIds(default) || requested.value == default)
  {
  }

  /** Running a chain in two parts is running it whole: the second part starts from the first part's answer. */
  lemma {:induction false} PipelineAppend(query: string, a: seq<ChainAgentConfig>, b: seq<ChainAgentConfig>, agents: string -> Option<Agent>, env: Env)
    requires Pipeline(query, a, agents, env).Ok?
    ensures Pipeline(query, a + b, agents, env) == Pipeline(Pipeline(query, a, agents, env).value, b, agents, env)
    decreases |b|
  {
    if b == [] {
      assert a + b == a;
    } else {
      var b' := b[..|b| - 1];
      assert (a + b)[..|a + b| - 1] == a + b';
      PipelineAppend(query, a, b', agents, env);
    }
  }

  /** Steps whose agent is not found leave the input as it is. */
  lemma {:induction false} PipelineUnknownAgents(query: string, chain: seq<ChainAgentConfig>, agents: string -> Option<Agent>, env: Env)
    requires forall k :: 0 <= k < |chain| ==> IsValidObjectId(chain[k].agentId) && agents(chain[k].agentId).None?
    ensures Pipeline(query, chain, agents, env) == Ok(query)
    decreases |chain|
  {
    if chain != [] {
      PipelineUnknownAgents(query, chain[..|chain| - 1], agents, env);
    }
  }

  /** A chain step with an invalid agent id makes the whole request fail. */
  lemma PipelineInvalidId(query: string, chain: seq<ChainAgentConfig>, agents: string -> Option<Agent>, env: Env, k: nat)
    requires k < |chain| && !IsValidObjectId(chain[k].agentId)
    ensures Pipeline(query, chain, agents, env).Err?
  {
    var prefix := Pipeline(query, chain[..k], agents, env);
    assert chain[..k + 1][..k] == chain[..k];
    PipelineErrorSticks(query, chain, agents, env, k + 1);
  }

  lemma {:induction false} FileContextEmpty(files: seq<string>, env: Env)
    ensures FileContext(files, env) == "" <==> forall k :: 0 <= k < |files| ==> FileBlock(files[k], env).None?
    decreases |files|
  {
    if files != [] {
      var init := files[..|files| - 1];
      FileContextEmpty(init, env);
      assert forall k :: 0 <= k < |init| ==> init[k] == files[k];
      var b := FileBlock(files[|files| - 1], env);
      if b.Some? {
        assert |b.value| > 0;
      }
    }
  }

  /** The context line opens the prompt exactly when the step has a context. */
  lemma ContextPromptContext(item: ChainAgentConfig, env: Env)
    ensures HasContext(item) ==> StartsWith(ContextPrompt(item, env), ContextLine(item.context.value))
    ensures !HasContext(item) ==> ContextPrompt(item, env) == FilesPart(item, env)
    ensures !HasFiles(item) ==> ContextPrompt(item, env) == ContextPart(item)
  {
    if HasContext(item) {
      StartsWithAppend(ContextLine(item.context.value), FilesPart(item, env));
    } else {
      assert ContextPart(item) == "";
    }
  }

  /**
   * With files, the prompt carries the contents of the readable ones, and the
   * "Could not read content" line exactly when none of them can be read.
   */
  lemma ContextPromptFiles(item: ChainAgentConfig, env: Env)
    requires HasFiles(item)
    ensures var none := forall k :: 0 <= k < |item.files.value| ==> FileBlock(item.files.value[k], env).None?;
      && (none ==> FilesPart(item, env) == UnreadLine(item.files.value))
      && (!none ==> FilesPart(item, env) == ContentsBlock(FileContext(item.files.value, env)))
  {
    FileContextEmpty(item.files.value, env);
  }

  /** The prompt is empty exactly when the step has neither a context nor files. */
  lemma ContextPromptEmpty(item: ChainAgentConfig, env: Env)
    ensures ContextPrompt(item, env) == "" <==> !HasContext(item) && !HasFiles(item)
  {
    if HasContext(item) {
      assert |ContextLine(item.context.value)| > 0;
    }
    if HasFiles(item) {
      var fc := FileContext(item.files.value, env);
      assert |ContentsBlock(fc)| > 0 && |UnreadLine(item.files.value)| > 0;
    }
  }

  /** The result names the chain exactly when one ran, and the session gains the two messages of the turn. */
  lemma ChatResultShape(projectId: string, query: string, userEmail: string, requested: Option<seq<ChainAgentConfig>>,
                        role: string, allowed: seq<string>, project: Option<Project>, agents: string -> Option<Agent>,
                        env: Env, ragAnswer: (string, seq<string>), existing: Option<ChatSession>, now: Timestamp)
    requires ProcessChat(projectId, query, userEmail, requested, role, allowed, project, agents, env, ragAnswer, existing, now).Ok?
    ensures var (response, session) := ProcessChat(projectId, query, userEmail, requested, role, allowed, project, agents, env, ragAnswer, existing, now).value;
      var chain := ExecutionChain(requested, role, DefaultChain(project.value));
      && (response.agentType == "chain" <==> chain != [])
      && (response.agentType == "rag" <==> chain == [])
      && (chain == [] ==> response.answer == ragAnswer.0 && response.sourceDocuments == ragAnswer.1)
      && (chain != [] ==> Ok(response.answer) == Pipeline(query, chain, agents, env) && response.sourceDocuments == [])
      && session.currentChain == Some(chain)
      && (existing.Some? ==> session.messages == existing.value.messages + [ChatMessage("user", query, now), ChatMessage("assistant", response.answer, now, Some(response.sourceDocuments))])
      && (existing.None? ==> session.messages == [ChatMessage("user", query, now), ChatMessage("assistant", response.answer, now, Some(response.sourceDocuments))] && session.userEmail == Some(userEmail))
  {
  }
}
