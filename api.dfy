/**
 * The decisions of the HTTP endpoints (`main.py`): which status code a
 * request ends with and what it returns or writes. The database reads are
 * parameters (the project found under an id, the stored projects in their
 * natural order, the user's chat session), and so are password hashing,
 * token signing and the clock. The signed-in user is the one the
 * authentication dependency gives.
 */
module Api {
  import opened Wrappers
  import opened Strings
  import opened Models
  import ChatService

  /** An `HTTPException`: a status code and its detail. */
  datatype HttpError = HttpError(status: nat, detail: string)

  /** The largest number of documents `to_list(1000)` returns. */
  const ListLimit: nat := 1000

  predicate IsAdmin(user: User) { user.role == "admin" }

  /** The membership test of the endpoints: the id exactly as sent, among the user's allowed ids. */
  predicate IsAllowed(user: User, projectId: string) { projectId in user.allowedProjects }

  // ---------------------------------------------------------------------------
  // get_project

  function GetProject(projectId: string, project: Option<Project>, user: User): Result<Project, HttpError> {
    if !IsValidObjectId(projectId) then Err(HttpError(400, "Invalid Project ID"))
    else if project.None? then Err(HttpError(404, "Project not found"))
    else if !IsAdmin(user) && !IsAllowed(user, projectId) then Err(HttpError(403, "Not authorized to view this project"))
    else Ok(project.value)
  }

  // ---------------------------------------------------------------------------
  // update_project

  /** The body of `PUT /projects/{id}`: any of the three fields may be left out. */
  datatype ProjectUpdate = ProjectUpdate(
    agents: Option<seq<string>> := None,
    chainConfig: Option<seq<ChainAgentConfig>> := None,
    allowUserChaining: Option<bool> := None)

  /** A value of the `$set` document. */
  datatype FieldValue = AgentsValue(agents: seq<string>) | ChainValue(chain: seq<ChainAgentConfig>) | FlagValue(flag: bool)

  /** `update_data`: one entry per field the body carries. */
  function UpdateData(update: ProjectUpdate): map<string, FieldValue> {
    var m0: map<string, FieldValue> := map[];
    var m1 := if update.agents.Some? then m0["agents" := AgentsValue(update.agents.value)] else m0;
    var m2 := if update.chainConfig.Some? then m1["chain_config" := ChainValue(update.chainConfig.value)] else m1;
    if update.allowUserChaining.Some? then m2["allow_user_chaining" := FlagValue(update.allowUserChaining.value)] else m2
  }

  /** `$set`: the project with the fields of the update document replaced. */
  function ApplySet(project: Project, data: map<string, FieldValue>): Project {
    var p1 := if "agents" in data && data["agents"].AgentsValue? then project.(agents := Some(data["agents"].agents)) else project;
    var p2 := if "chain_config" in data && data["chain_config"].ChainValue? then p1.(chainConfig := Some(data["chain_config"].chain)) else p1;
    if "allow_user_chaining" in data && data["allow_user_chaining"].FlagValue? then p2.(allowUserChaining := data["allow_user_chaining"].flag) else p2
  }

  /**
   * `update_project`: the message and the stored project afterwards. With
   * nothing to change the answer comes before the project is even looked up.
   */
  function UpdateProject(projectId: string, update: ProjectUpdate, stored: Option<Project>): Result<(string, Option<Project>), HttpError> {
    if !IsValidObjectId(projectId) then Err(HttpError(400, "Invalid Project ID"))
    else
      var data := UpdateData(update);
      if data == map[] then Ok(("No changes provided", stored))
      else if stored.None? then Err(HttpError(404, "Project not found"))
      else Ok(("Project updated successfully", Some(ApplySet(stored.value, data))))
  }

  // ---------------------------------------------------------------------------
  // ingest_document

  /** Who may upload to a project: an admin, or a user allowed on it when the project allows user chaining. */
  predicate MayUpload(user: User, projectId: string, project: Project) {
    IsAdmin(user) || (IsAllowed(user, projectId) && project.allowUserChaining)
  }

  /** `ingest_document`; `copyError` is the exception the copies or the ingestion raise, if any. */
  function IngestDocument(projectId: string, filename: string, project: Option<Project>, user: User, copyError: Option<string>): Result<string, HttpError> {
    if !IsValidObjectId(projectId) then Err(HttpError(400, "Invalid Project ID"))
    else if project.None? then Err(HttpError(404, "Project not found"))
    else if !MayUpload(user, projectId, project.value) then Err(HttpError(403, "Not authorized to upload files to this project"))
    else if copyError.Some? then Err(HttpError(500, copyError.value))
    else Ok("Successfully ingested " + filename)
  }

  // ---------------------------------------------------------------------------
  // list_projects

  /** `str(ObjectId(pid))`: the id with its hexadecimal digits in lower case. */
  function CanonicalId(pid: string): string { Lower(pid) }

  function Take<T>(xs: seq<T>, n: nat): (r: seq<T>)
    ensures |r| == (if |xs| <= n then |xs| else n)
    ensures r == xs[..|r|]
  {
    if |xs| <= n then xs else xs[..n]
  }

  /** The ObjectIds the user's valid allowed ids denote, in order. */
  function AllowedIds(allowed: seq<string>): (r: seq<string>)
    decreases |allowed|
  {
    if allowed == [] then []
    else
      var rest := AllowedIds(allowed[..|allowed| - 1]);
      var pid := allowed[|allowed| - 1];
      if IsValidObjectId(pid) then rest + [CanonicalId(pid)] else rest
  }

  /** The loop building `allowed_ids`. */
  method CollectAllowedIds(allowed: seq<string>) returns (ids: seq<string>)
    ensures ids == AllowedIds(allowed)
  {
    ids := [];
    var i := 0;
    while i < |allowed|
      invariant 0 <= i <= |allowed|
      invariant ids == AllowedIds(allowed[..i])
    {
      assert allowed[..i + 1][..i] == allowed[..i];
      var pid := allowed[i];
      if IsValidObjectId(pid) {
        ids := ids + [CanonicalId(pid)];
      }
      i := i + 1;
    }
    assert allowed[..i] == allowed;
  }

  predicate HasIdIn(p: Project, ids: seq<string>) { p.id.Some? && p.id.value in ids }

  /** The stored projects, in order, whose id is one of `ids` (`{"_id": {"$in": ids}}`). */
  function WithIds(projects: seq<Project>, ids: seq<string>): (r: seq<Project>)
    ensures |r| <= |projects|
    decreases |projects|
  {
    if projects == [] then []
    else (if HasIdIn(projects[0], ids) then [projects[0]] else []) + WithIds(projects[1..], ids)
  }

  /** `list_projects` over the stored projects, in their natural order. */
  function ListProjects(user: User, stored: seq<Project>): seq<Project> {
    if IsAdmin(user) then Take(stored, ListLimit)
    else
      var ids := AllowedIds(user.allowedProjects);
      if ids == [] then [] else Take(WithIds(stored, ids), ListLimit)
  }

  // ---------------------------------------------------------------------------
  // chat and get_chat_history

  /** The chat endpoint's own check, before the id is even looked at. */
  function ChatGate(projectId: string, user: User): Option<HttpError> {
    if !IsAdmin(user) && !IsAllowed(user, projectId) then Some(HttpError(403, "Not authorized to access this project chat"))
    else if !IsValidObjectId(projectId) then Some(HttpError(400, "Invalid Project ID"))
    else None
  }

  /**
   * `chat`: the gate, then the chat service; a `ValueError` becomes 403 and
   * any other exception 500. `describe` is the text of the invalid-id exception.
   */
  function Chat(projectId: string, request: ChatRequest, user: User, project: Option<Project>,
                agents: string -> Option<Agent>, env: ChatService.Env, ragAnswer: (string, seq<string>),
                existing: Option<ChatSession>, now: Timestamp, describe: string -> string)
    : Result<(ChatService.ChatResponse, ChatSession), HttpError>
  {
    match ChatGate(projectId, user)
    case Some(e) => Err(e)
    case None =>
      match ChatService.ProcessChat(projectId, request.query, user.email, request.chain, user.role,
                                    user.allowedProjects, project, agents, env, ragAnswer, existing, now)
      case Ok(r) => Ok(r)
      case Err(e) =>
        if e.ValueError? then Err(HttpError(403, e.message)) else Err(HttpError(500, describe(e.id)))
  }

  /** What `GET /projects/{id}/chat` returns. */
  datatype History = History(messages: seq<ChatMessage>, chain: seq<ChainAgentConfig>)

  function GetChatHistory(projectId: string, user: User, session: Option<ChatSession>): Result<History, HttpError> {
    match ChatGate(projectId, user)
    case Some(e) => Err(e)
    case None =>
      match session
      case None => Ok(History([], []))
      case Some(s) => Ok(History(s.messages, s.currentChain.GetOr([])))
  }

  // ---------------------------------------------------------------------------
  // create_user and login_for_access_token

  /** `create_user` (admins only): refuses a known e-mail, else stores an active user with the hashed password. */
  function CreateUser(request: UserCreate, emailTaken: bool, hash: string -> string, now: Timestamp): Result<User, HttpError> {
    if emailTaken then Err(HttpError(400, "Email already registered"))
    else
      var allowed := if request.allowedProjects.Some? then request.allowedProjects.value else [];
      Ok(User(request.email, hash(request.password), now, role := request.role, allowedProjects := allowed, isActive := true))
  }

  /** `login_for_access_token`: the user stored under the name, the password check, and the token for the user's e-mail. */
  function Login(password: string, user: Option<User>, verify: (string, string) -> bool, sign: string -> string): Result<Token, HttpError> {
    if user.None? || !verify(password, user.value.hashedPassword) then Err(HttpError(401, "Incorrect username or password"))
    else Ok(Token(sign(user.value.email), "bearer"))
  }

  // ---------------------------------------------------------------------------
  // Properties

  /** `get_project` decides in order: id format (400), existence (404), rights (403). */
  lemma GetProjectOrder(projectId: string, project: Option<Project>, user: User)
    ensures !IsValidObjectId(projectId) ==> GetProject(projectId, project, user) == Err(HttpError(400, "Invalid Project ID"))
    ensures IsValidObjectId(projectId) && project.None? ==> GetProject(projectId, project, user) == Err(HttpError(404, "Project not found"))
    ensures GetProject(projectId, project, user).Ok? <==>
      IsValidObjectId(projectId) && project.Some? && (IsAdmin(user) || IsAllowed(user, projectId))
    ensures GetProject(projectId, project, user).Ok? ==> GetProject(projectId, project, user).value == project.value
  {
  }

  /** The update document holds exactly the fields the body carries, each with the value sent. */
  lemma UpdateDataFields(update: ProjectUpdate)
    ensures "agents" in UpdateData(update) <==> update.agents.Some?
    ensures "chain_config" in UpdateData(update) <==> update.chainConfig.Some?
    ensures "allow_user_chaining" in UpdateData(update) <==> update.allowUserChaining.Some?
    ensures UpdateData(update).Keys <= {"agents", "chain_config", "allow_user_chaining"}
    ensures update.agents.Some? ==> UpdateData(update)["agents"] == AgentsValue(update.agents.value)
    ensures update.chainConfig.Some? ==> UpdateData(update)["chain_config"] == ChainValue(update.chainConfig.value)
    ensures update.allowUserChaining.Some? ==> UpdateData(update)["allow_user_chaining"] == FlagValue(update.allowUserChaining.value)
  {
  }

  /**
   * A partial update sets the fields sent and leaves every other field of the
   * project as it was; an empty body answers "No changes provided" and writes
   * nothing, even when no project has the id.
   */
  lemma UpdateProjectEffect(projectId: string, update: ProjectUpdate, stored: Option<Project>)
    requires IsValidObjectId(projectId)
    ensures update == ProjectUpdate() ==> UpdateProject(projectId, update, stored) == Ok(("No changes provided", stored))
    ensures update != ProjectUpdate() && stored.None? ==> UpdateProject(projectId, update, stored) == Err(HttpError(404, "Project not found"))
    ensures update != ProjectUpdate() && stored.Some? ==>
      && UpdateProject(projectId, update, stored).Ok?
      && UpdateProject(projectId, update, stored).value.0 == "Project updated successfully"
      && UpdateProject(projectId, update, stored).value.1.Some?
      && var after := UpdateProject(projectId, update, stored).value.1.value;
      && after.agents == (if update.agents.Some? then update.agents else stored.value.agents)
      && after.chainConfig == (if update.chainConfig.Some? then update.chainConfig else stored.value.chainConfig)
      && after.allowUserChaining == update.allowUserChaining.GetOr(stored.value.allowUserChaining)
      && after.(agents := stored.value.agents, chainConfig := stored.value.chainConfig, allowUserChaining := stored.value.allowUserChaining) == stored.value
  {
    UpdateDataFields(update);
    if update != ProjectUpdate() {
      assert UpdateData(update) != map[] by {
        if update.agents.Some? { assert "agents" in UpdateData(update); }
        else if update.chainConfig.Some? { assert "chain_config" in UpdateData(update); }
        else { assert "allow_user_chaining" in UpdateData(update); }
      }
    }
  }

  /** Upload is allowed exactly to admins and to allowed users of projects that allow user chaining. */
  lemma IngestPermission(projectId: string, filename: string, project: Project, user: User)
    requires IsValidObjectId(projectId)
    ensures IngestDocument(projectId, filename, Some(project), user, None).Ok?
      <==> IsAdmin(user) || (projectId in user.allowedProjects && project.allowUserChaining)
    ensures !MayUpload(user, projectId, project) ==>
      IngestDocument(projectId, filename, Some(project), user, None) == Err(HttpError(403, "Not authorized to upload files to this project"))
  {
  }

  /** Every collected id is the canonical form of a valid allowed id; none is collected exactly when none is valid. */
  lemma {:induction false} AllowedIdsValid(allowed: seq<string>)
    ensures forall k :: 0 <= k < |AllowedIds(allowed)| ==> exists j :: 0 <= j < |allowed| && IsValidObjectId(allowed[j]) && AllowedIds(allowed)[k] == CanonicalId(allowed[j])
    ensures AllowedIds(allowed) == [] <==> forall j :: 0 <= j < |allowed| ==> !IsValidObjectId(allowed[j])
    decreases |allowed|
  {
    if allowed != [] {
      var init, pid := allowed[..|allowed| - 1], allowed[|allowed| - 1];
      AllowedIdsValid(init);
      var rest := AllowedIds(init);
      var ids := AllowedIds(allowed);
      assert ids == if IsValidObjectId(pid) then rest + [CanonicalId(pid)] else rest;
      forall k | 0 <= k < |ids|
        ensures exists j :: 0 <= j < |allowed| && IsValidObjectId(allowed[j]) && ids[k] == CanonicalId(allowed[j])
      {
        if k < |rest| {
          assert ids[k] == rest[k];
          var j :| 0 <= j < |init| && IsValidObjectId(init[j]) && rest[k] == CanonicalId(init[j]);
          assert allowed[j] == init[j];
        } else {
          assert ids[k] == CanonicalId(allowed[|allowed| - 1]);
        }
      }
      if IsValidObjectId(pid) {
        assert ids != [];
      } else if rest == [] {
        forall j | 0 <= j < |allowed| ensures !IsValidObjectId(allowed[j]) {
          if j < |init| { assert allowed[j] == init[j]; }
        }
      } else {
        var j :| 0 <= j < |init| && IsValidObjectId(init[j]);
        assert allowed[j] == init[j];
      }
    } else {
      assert AllowedIds(allowed) == [];
    }
  }

  lemma {:induction false} WithIdsMembers(projects: seq<Project>, ids: seq<string>)
    ensures forall k :: 0 <= k < |WithIds(projects, ids)| ==> WithIds(projects, ids)[k] in projects && HasIdIn(WithIds(projects, ids)[k], ids)
    ensures forall p :: p in projects && HasIdIn(p, ids) ==> p in WithIds(projects, ids)
    decreases |projects|
  {
    if projects != [] {
      WithIdsMembers(projects[1..], ids);
      var head := if HasIdIn(projects[0], ids) then [projects[0]] else [];
      assert WithIds(projects, ids) == head + WithIds(projects[1..], ids);
      forall p | p in projects && HasIdIn(p, ids) ensures p in WithIds(projects, ids) {
        if p != projects[0] {
          assert p in projects[1..];
        }
      }
    }
  }

  /**
   * An admin sees the stored projects (at most 1000); anyone else sees only
   * projects whose id is one of their valid allowed ids, all of them when
   * there are at most 1000, and nothing when no allowed id is valid.
   */
  lemma ListProjectsVisibility(user: User, stored: seq<Project>)
    ensures IsAdmin(user) ==> ListProjects(user, stored) == stored[..if |stored| <= ListLimit then |stored| else ListLimit]
    ensures !IsAdmin(user) ==> forall p :: p in ListProjects(user, stored) ==> p in stored && HasIdIn(p, AllowedIds(user.allowedProjects))
    ensures !IsAdmin(user) && (forall j :: 0 <= j < |user.allowedProjects| ==> !IsValidObjectId(user.allowedProjects[j])) ==> ListProjects(user, stored) == []
    ensures !IsAdmin(user) && |stored| <= ListLimit ==>
      forall p :: p in stored && HasIdIn(p, AllowedIds(user.allowedProjects)) ==> p in ListProjects(user, stored)
  {
    var ids := AllowedIds(user.allowedProjects);
    AllowedIdsValid(user.allowedProjects);
    WithIdsMembers(stored, ids);
    if !IsAdmin(user) && ids != [] {
      var w := WithIds(stored, ids);
      forall p | p in Take(w, ListLimit) ensures p in w {
        var k :| 0 <= k < |Take(w, ListLimit)| && Take(w, ListLimit)[k] == p;
        assert w[k] == p;
      }
    }
  }

  /** The chat endpoint checks the caller's rights before the id's format, and maps the service's refusals to 403. */
  lemma ChatOrder(projectId: string, request: ChatRequest, user: User, project: Option<Project>,
                  agents: string -> Option<Agent>, env: ChatService.Env, ragAnswer: (string, seq<string>),
                  existing: Option<ChatSession>, now: Timestamp, describe: string -> string)
    ensures !IsAdmin(user) && !IsAllowed(user, projectId) ==>
      Chat(projectId, request, user, project, agents, env, ragAnswer, existing, now, describe) == Err(HttpError(403, "Not authorized to access this project chat"))
    ensures (IsAdmin(user) || IsAllowed(user, projectId)) && !IsValidObjectId(projectId) ==>
      Chat(projectId, request, user, project, agents, env, ragAnswer, existing, now, describe) == Err(HttpError(400, "Invalid Project ID"))
    ensures (IsAdmin(user) || IsAllowed(user, projectId)) && IsValidObjectId(projectId) && project.None? ==>
      Chat(projectId, request, user, project, agents, env, ragAnswer, existing, now, describe) == Err(HttpError(403, "Project not found"))
    ensures var served := ChatService.ProcessChat(projectId, request.query, user.email, request.chain, user.role,
                                                  user.allowedProjects, project, agents, env, ragAnswer, existing, now);
      && (ChatGate(projectId, user).None? && served.Ok? ==>
            Chat(projectId, request, user, project, agents, env, ragAnswer, existing, now, describe) == Ok(served.value))
      && (ChatGate(projectId, user).None? && served.Err? && served.error.ValueError? ==>
            Chat(projectId, request, user, project, agents, env, ragAnswer, existing, now, describe) == Err(HttpError(403, served.error.message)))
      && (ChatGate(projectId, user).None? && served.Err? && served.error.InvalidId? ==>
            Chat(projectId, request, user, project, agents, env, ragAnswer, existing, now, describe) == Err(HttpError(500, describe(served.error.id))))
  {
  }

  /**
   * A caller the gate refuses gets the gate's error, whatever is stored.
   * Otherwise, without a session the history is empty; with one it is the
   * stored messages and the stored chain as they are, the chain defaulting
   * to none.
   */
  lemma HistoryDefault(projectId: string, user: User, session: Option<ChatSession>)
    ensures ChatGate(projectId, user).Some? ==> GetChatHistory(projectId, user, session) == Err(ChatGate(projectId, user).value)
    ensures !IsAdmin(user) && !IsAllowed(user, projectId) ==>
      GetChatHistory(projectId, user, session) == Err(HttpError(403, "Not authorized to access this project chat"))
    ensures (IsAdmin(user) || IsAllowed(user, projectId)) && !IsValidObjectId(projectId) ==>
      GetChatHistory(projectId, user, session) == Err(HttpError(400, "Invalid Project ID"))
    ensures ChatGate(projectId, user).None? ==> GetChatHistory(projectId, user, session).Ok?
    ensures ChatGate(projectId, user).None? && session.None? ==> GetChatHistory(projectId, user, session) == Ok(History([], []))
    ensures ChatGate(projectId, user).None? && session.Some? ==>
      GetChatHistory(projectId, user, session).value.messages == session.value.messages
    ensures ChatGate(projectId, user).None? && session.Some? && session.value.currentChain.Some? ==>
      GetChatHistory(projectId, user, session).value.chain == session.value.currentChain.value
    ensures ChatGate(projectId, user).None? && session.Some? && session.value.currentChain.None? ==>
      GetChatHistory(projectId, user, session).value.chain == []
  {
  }

  /** A new user is active, keeps the requested role and allowed projects (none when left out), and never stores the password itself. */
  lemma CreateUserShape(request: UserCreate, emailTaken: bool, hash: string -> string, now: Timestamp)
    ensures emailTaken <==> CreateUser(request, emailTaken, hash, now) == Err(HttpError(400, "Email already registered"))
    ensures !emailTaken ==>
      var u := CreateUser(request, emailTaken, hash, now).value;
      && u.email == request.email && u.hashedPassword == hash(request.password) && u.isActive && u.role == request.role
      && u.allowedProjects == request.allowedProjects.GetOr([])
  {
  }

  /** A token is issued exactly for a known user with a matching password, and it names that user. */
  lemma LoginCases(password: string, user: Option<User>, verify: (string, string) -> bool, sign: string -> string)
    ensures Login(password, user, verify, sign).Ok? <==> user.Some? && verify(password, user.value.hashedPassword)
    ensures Login(password, user, verify, sign).Ok? ==> Login(password, user, verify, sign).value == Token(sign(user.value.email), "bearer")
    ensures Login(password, user, verify, sign).Err? ==> Login(password, user, verify, sign).error.status == 401
  {
  }
}
