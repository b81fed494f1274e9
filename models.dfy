/**
 * The records the backend stores and exchanges (`models.py`), as values.
 * A field the source declares `Optional` is an `Option`; a default the
 * source gives is the constructor's default. Timestamps made by
 * `datetime.utcnow` are a `created` parameter without a default, and an
 * `ObjectId` is its 24-character hexadecimal text.
 */
module Models {
  import opened Wrappers

  type Timestamp = int

  predicate IsHexDigit(c: char) { '0' <= c <= '9' || 'a' <= c <= 'f' || 'A' <= c <= 'F' }

  /** `ObjectId.is_valid` applied to a string: exactly 24 hexadecimal digits. */
  predicate IsValidObjectId(s: string) { |s| == 24 && forall i :: 0 <= i < |s| ==> IsHexDigit(s[i]) }

  datatype ProjectCreate = ProjectCreate(
    name: string,
    description: Option<string> := None,
    agents: Option<seq<string>> := Some([]))

  datatype ChatMessage = ChatMessage(
    role: string,
    content: string,
    created: Timestamp,
    sources: Option<seq<string>> := None)

  /** One step of an agent chain: the agent to run and the per-step context and files. */
  datatype ChainAgentConfig = ChainAgentConfig(
    agentId: string,
    name: Option<string> := None,
    agentType: Option<string> := None,
    context: Option<string> := None,
    files: Option<seq<string>> := Some([]))

  datatype ChatSession = ChatSession(
    projectId: string,
    created: Timestamp,
    id: Option<string> := None,
    userEmail: Option<string> := None,
    title: Option<string> := Some("New Chat"),
    messages: seq<ChatMessage> := [],
    currentChain: Option<seq<ChainAgentConfig>> := Some([]))

  /** A chat request; `chain == None` (no chain sent) differs from an explicit list, even an empty one. */
  datatype ChatRequest = ChatRequest(
    query: string,
    chain: Option<seq<ChainAgentConfig>> := None)

  datatype Agent = Agent(
    name: string,
    agentType: string,
    created: Timestamp,
    id: Option<string> := None,
    description: Option<string> := None,
    config: Option<map<string, string>> := Some(map[]),
    filePath: Option<string> := None)

  datatype ProjectScreen = ProjectScreen(
    name: string,
    description: string,
    codePath: Option<string> := None,
    codeContent: Option<string> := None)

  datatype Project = Project(
    name: string,
    created: Timestamp,
    id: Option<string> := None,
    description: Option<string> := None,
    agents: Option<seq<string>> := Some([]),
    chainConfig: Option<seq<ChainAgentConfig>> := Some([]),
    screens: Option<seq<ProjectScreen>> := Some([]),
    allowUserChaining: bool := false)

  datatype User = User(
    email: string,
    hashedPassword: string,
    created: Timestamp,
    id: Option<string> := None,
    role: string := "user",
    allowedProjects: seq<string> := [],
    isActive: bool := true)

  datatype UserCreate = UserCreate(
    email: string,
    password: string,
    role: string := "user",
    allowedProjects: Option<seq<string>> := Some([]))

  datatype Token = Token(accessToken: string, tokenType: string)

  /** A chain step built from its agent id alone has no name, type or context and no files. */
  lemma ChainAgentConfigDefaults(agentId: string)
    ensures var c := ChainAgentConfig(agentId);
      c.agentId == agentId && c.name == None && c.agentType == None && c.context == None && c.files == Some([])
  {
  }

  /** A request without a chain carries `None`, which is not the empty chain. */
  lemma ChatRequestDefaults(query: string)
    ensures ChatRequest(query).chain == None
    ensures ChatRequest(query) != ChatRequest(query, Some([]))
  {
  }

  /** A new project has no agents, an empty chain, no screens and disallows user chaining. */
  lemma ProjectDefaults(name: string, created: Timestamp)
    ensures var p := Project(name, created);
      p.agents == Some([]) && p.chainConfig == Some([]) && p.screens == Some([]) && !p.allowUserChaining
  {
  }

  /** A new user is an active "user" with no allowed projects. */
  lemma UserDefaults(email: string, hashedPassword: string, created: Timestamp)
    ensures var u := User(email, hashedPassword, created);
      u.role == "user" && u.allowedProjects == [] && u.isActive
  {
  }

  /** A new session is titled "New Chat", with no messages and an empty chain. */
  lemma ChatSessionDefaults(projectId: string, created: Timestamp)
    ensures var s := ChatSession(projectId, created);
      s.title == Some("New Chat") && s.messages == [] && s.currentChain == Some([]) && s.userEmail == None
  {
  }
}
