# Agent orchestration framework — a Dafny model of its decision logic

The framework lets an administrator build projects out of chains of agents.
A chain is an ordered list of steps, and each step names an agent and may carry a context and some files.
Users are allowed on some projects and chat with a project's chain.
The query goes through the steps one after another, and each agent's answer becomes the next agent's input.

The system has a FastAPI/Mongo back end and a React front end.
This project models the sequential logic of both sides, one Dafny module per source file:

- **Chat service** (`ChatService`): the access checks of a chat request and the derivation of the project's default chain.
  It also covers the choice of the chain that runs (admin versus user subset rule), the pipeline fold with its skip and error rules, the context prompt of a step, and the saved session and result.
- **API endpoints** (`Api`):
  - the order of the 400/404/403 checks;
  - the partial-update document of `PUT /projects/{id}`;
  - the upload permission;
  - the project listing with its `allowed_ids` loop;
  - the chat endpoint's error mapping, the history default, user creation and login.
- **Records** (`Models`): the pydantic records with their defaults.
- **Chat screen** (`ChatInterface`): chain resolution from the URL selector, the saved chat and the project.
  It also covers the chain editor as a class (add, remove, context edit, file attach and remove, selection), the send handler with its busy flag, and the send and Apply payloads.
- **Shell and small screens**:
  - the route table with its guards and the sidebar refresh key (`AppRoutes`);
  - the session state of the auth context (`AuthContext`);
  - the sidebar's expand flags and agent sub-list (`Sidebar`);
  - the user-creation form and project multi-select (`AccessLog`);
  - the three-step create-project dialog (`CreateProjectModal`);
  - the landing page's launch target and word carousel (`Landing`).
- **String-processing agents**:
  - the text-to-binary encoder (`TextToBinary`);
  - the chunked translator (`ChunkTranslate`);
  - the line/word editor (`LineEditor`);
  - the e-mail sender's header parsing and address search (`EmailSender`);
  - the attachment downloader's file-name cleaning and answer selection (`EmailAttachment`);
  - the project generator's fence stripping, component map and agent-code cleanup (`ProjectGenerator`).

External effects are parameters of the model:
- database reads, HTTP answers, SMTP/IMAP sessions and file reads;
- the language model's reply and the translator's answer;
- password hashing, token signing and the clock.

`Wrappers` holds `Option` and `Result`.
`Strings` holds the Python and JavaScript string operations the code uses: `split`, `strip`, `lower`, `isalnum`, `join` and `trim`.

Two points about the code, which the model follows as written:

- **The prompt of the screen analysis is always the goal.** The create-project dialog sends `about || description`, but the dialog has no input for `description`. Since `about` must be non-empty to enable the button, the prompt is always `about`; `CreateProjectModal.Walkthrough` states this.
- **The "Successfully downloaded N attachments" answer is never reached.** Every saved attachment adds a non-empty section to the extracted text, so the downloader never gives that answer after a complete run (`EmailAttachment.RunOutcome`).

## Model

| member | source | states |
|---|---|---|
| Models.ChainAgentConfigDefaults | framework/backend/models.py:35-40 | a step built from an agent id alone has no name, type or context and an empty file list |
| Models.ChatRequestDefaults | framework/backend/models.py:54-56 | a request without a chain carries "no chain", which differs from an explicit empty chain |
| Models.ProjectDefaults | framework/backend/models.py:76-84 | a new project has no agents, an empty chain, no screens and disallows user chaining |
| Models.UserDefaults | framework/backend/models.py:90-97 | a new user is an active "user" with no allowed projects |
| Models.ChatSessionDefaults | framework/backend/models.py:42-49 | a new session is titled "New Chat" with no messages and an empty chain |
| ChatService.LegacyChain | framework/backend/chat_service.py:46-48 | the legacy chain is never longer than the legacy agent list |
| ChatService.LegacyChainShape | framework/backend/chat_service.py:46-48 | the legacy chain keeps exactly the valid ObjectId strings as bare steps (no name, type, context), and its ids are exactly the valid ids of the list |
| ChatService.AccessOrder | framework/backend/chat_service.py:29-40 | an invalid id, then a missing project, then a non-admin caller not allowed on the id, each raise ValueError, in that order; otherwise the request goes on |
| ChatService.DeniedChat | framework/backend/chat_service.py:39-40 | a non-admin caller without the project gets the authorization error and no chain runs |
| ChatService.ChainIdsAppend | framework/backend/chat_service.py:58-59 | the agent-id set of two joined chains is the union of their id sets |
| ChatService.NonAdminStaysInProject | framework/backend/chat_service.py:56-65 | a non-admin's execution chain never uses an agent outside the project's default chain |
| ChatService.ExecutionChainCases | framework/backend/chat_service.py:53-68 | an absent or empty request runs the default chain; an admin's non-empty request runs as sent; a user's non-empty request runs as sent exactly when its agent ids are a subset of the default's (or it is the default itself), else the default runs |
| ChatService.ReadFiles | framework/backend/chat_service.py:90-111 | the file loop builds exactly the concatenated blocks of the referenced files that exist and can be read, in order |
| ChatService.BuildContextPrompt | framework/backend/chat_service.py:85-116 | the statements that grow `context_prompt` produce exactly the step's context prompt |
| ChatService.FileContextEmpty | framework/backend/chat_service.py:90-113 | the file context is empty exactly when none of the referenced files can be read |
| ChatService.ContextPromptContext | framework/backend/chat_service.py:85-87 | with a non-empty context the prompt opens with the "Context:" line; without one it is only the files' part, and without files only the context's part |
| ChatService.ContextPromptFiles | framework/backend/chat_service.py:89-116 | with files, the prompt holds the "File Contents" block of the readable files, or the "Referenced Files … (Could not read content)" line exactly when none is readable |
| ChatService.ContextPromptEmpty | framework/backend/chat_service.py:85-116 | the prompt is empty exactly when the step has neither a context nor files |
| ChatService.RunStep | framework/backend/chat_service.py:78-164 | one loop iteration yields the step function's result: unknown agent keeps the input, RAG agents use the retrieval answer, a missing file path or a raised exception becomes an error string |
| ChatService.RunChain | framework/backend/chat_service.py:74-166 | the loop over the execution chain computes the pipeline fold: the query goes in and each step's output is the next input |
| ChatService.PipelineErrorSticks | framework/backend/chat_service.py:77-79 | once a step fails with an invalid agent id, the later steps do not change the outcome |
| ChatService.PipelineAppend | framework/backend/chat_service.py:75-166 | running a chain in two parts equals running it whole, the second part starting from the first part's answer |
| ChatService.PipelineUnknownAgents | framework/backend/chat_service.py:81-82 | steps whose agent is not found leave the query unchanged |
| ChatService.PipelineInvalidId | framework/backend/chat_service.py:79 | a step with an agent id that is not a valid ObjectId makes the whole request fail |
| ChatService.ProcessChatRequest | framework/backend/chat_service.py:15-222 | the request procedure with its loop computes the same result and session as the functional model of `process_chat_request` |
| ChatService.ChatResultShape | framework/backend/chat_service.py:188-222 | the agent type is "chain" exactly when a chain ran; the answer is the pipeline's; the session gains the user message then the assistant message and stores the executed chain |
| Api.GetProjectOrder | framework/backend/main.py:204-217 | invalid id gives 400, then a missing project 404, then a non-admin without the id 403; success exactly for a valid, found, permitted request, returning the project |
| Api.UpdateDataFields | framework/backend/main.py:230-238 | the update document holds exactly the fields the body carries, each with the value sent |
| Api.UpdateProjectEffect | framework/backend/main.py:224-251 | an empty body returns "No changes provided" without a write, even for a missing project; otherwise a missing project is 404 and an existing one gets exactly the sent fields replaced, the rest kept |
| Api.IngestPermission | framework/backend/main.py:264-313 | upload succeeds exactly for admins and for allowed users of projects that allow user chaining; others get 403 |
| Api.Take | framework/backend/main.py:189 | `to_list(1000)` returns the first min(1000, stored) documents: all of them when there are fewer, exactly 1000 otherwise |
| Api.CollectAllowedIds | framework/backend/main.py:193-196 | the append loop builds the canonical ids of the valid allowed ids, in order |
| Api.AllowedIdsValid | framework/backend/main.py:193-199 | every collected id comes from a valid allowed id; none is collected exactly when no allowed id is valid |
| Api.WithIds | framework/backend/main.py:201 | the `$in` query never returns more projects than are stored |
| Api.WithIdsMembers | framework/backend/main.py:201 | the `$in` query returns exactly the stored projects whose id is among the ids |
| Api.ListProjectsVisibility | framework/backend/main.py:185-202 | admins see the first 1000 projects; others see only stored projects whose id is among their valid allowed ids, and nothing when none is valid |
| Api.ChatOrder | framework/backend/main.py:317-346 | the chat endpoint refuses a caller without rights on the id (403) before it looks at the id's format (400); a missing project then comes back as the service's ValueError, mapped to 403; an invalid agent id in the chain becomes 500 with the id's description, and a successful turn passes through unchanged |
| Api.HistoryDefault | framework/backend/main.py:348-370 | a caller without rights on the project gets 403, then a malformed id 400, whatever is stored; otherwise no session gives an empty history, and a session gives its stored messages and its stored chain unchanged, the chain defaulting to empty |
| Api.CreateUserShape | framework/backend/main.py:116-132 | a known e-mail is refused with 400 exactly; a new user is active, keeps the role and allowed projects (none when left out) and stores only the hash of the password |
| Api.LoginCases | framework/backend/main.py:96-110 | a token is issued exactly for a known user with a matching password, it names that user's e-mail with type "bearer", and every refusal is 401 |
| ChatInterface.FindAgent | framework/frontend/src/components/ChatInterface.jsx:71 | `find` returns the first step with the agent id, and nothing exactly when no step has it |
| ChatInterface.AgentLogoCases | framework/frontend/src/components/ChatInterface.jsx:13-17 | the logo ignores the letter case of the type, and a missing type gets the general logo |
| ChatInterface.LowerIdempotent | framework/frontend/src/components/ChatInterface.jsx:14-15 | lower-casing twice is lower-casing once |
| ChatInterface.SelectedAgentWins | framework/frontend/src/components/ChatInterface.jsx:68-74 | a selector naming a step of the project's chain makes the first such step the whole chain, whatever the saved chat holds |
| ChatInterface.SelectedAgentElsewhere | framework/frontend/src/components/ChatInterface.jsx:73-84 | a selector absent from the chain gives one "Loading..." placeholder of type "general" (no context, no files) when the legacy list has it, and leaves the chain unassigned otherwise |
| ChatInterface.NoSelector | framework/frontend/src/components/ChatInterface.jsx:55-59 | without a selector a non-empty saved chain wins; otherwise the project's chain, or the empty chain |
| ChatInterface.ReloadAfterTurn | framework/frontend/src/components/ChatInterface.jsx:61-62 | reloading after a saved turn shows the transcript the screen showed live (the user's message, then the reply with its sources), minus only the reply's agent type label |
| ChatInterface.ChatView.constructor | framework/frontend/src/components/ChatInterface.jsx:21-46 | the screen starts with no chain, no selection, no messages, an empty input, not busy and no project |
| ChatInterface.ChatView.Load | framework/frontend/src/components/ChatInterface.jsx:48-99 | after both fetches the screen holds the project, the saved messages and the resolved chain (kept when unresolved); a failed fetch leaves chain and transcript alone |
| ChatInterface.ChatView.AddToChain | framework/frontend/src/components/ChatInterface.jsx:152-162 | exactly one new step (the agent's id, name and type, empty context, no files) is appended; nothing else changes |
| ChatInterface.RemoveAtSlices | framework/frontend/src/components/ChatInterface.jsx:165 | the index filter drops exactly position i, and changes nothing for an index out of range |
| ChatInterface.RemoveFromChainShape | framework/frontend/src/components/ChatInterface.jsx:165 | after a removal in range the chain is one shorter, earlier steps are in place and later steps move up by one |
| ChatInterface.ChatView.RemoveFromChain | framework/frontend/src/components/ChatInterface.jsx:164-167 | the step at the index is removed; the selection is cleared only when it is that index, and a larger selection is not shifted |
| ChatInterface.ChatView.UpdateContext | framework/frontend/src/components/ChatInterface.jsx:169-175 | only the context of step i changes, to the value typed; the chain keeps its length |
| ChatInterface.ChatView.AttachFile | framework/frontend/src/components/ChatInterface.jsx:177-197 | the file name is appended to step i's files (a missing list counting as empty) only after a successful upload; no file or a failed upload changes nothing |
| ChatInterface.ChatView.RemoveFile | framework/frontend/src/components/ChatInterface.jsx:331-336 | only step i's file list changes, losing exactly the clicked position |
| ChatInterface.ChatView.ToggleActive | framework/frontend/src/components/ChatInterface.jsx:234 | a click selects the step, or clears the selection when it was already selected |
| ChatInterface.ChatView.BeginSend | framework/frontend/src/components/ChatInterface.jsx:113-134 | a blank input or a send in flight does nothing; otherwise the user message is appended, the input cleared, the screen busy and the request carries the query and the send payload |
| ChatInterface.ChatView.FinishSend | framework/frontend/src/components/ChatInterface.jsx:136-149 | exactly one assistant message (the reply, or "Sorry, I encountered an error.") is appended and the screen is no longer busy |
| ChatInterface.ChatView.SendMessage | framework/frontend/src/components/ChatInterface.jsx:113-150 | a send is refused exactly for a blank input or while busy; otherwise the user message and one assistant message follow the transcript and the busy flag ends false |
| ChatInterface.SendPayloadIsChain | framework/frontend/src/components/ChatInterface.jsx:123-133 | the send payload is nothing exactly for an empty chain, and otherwise the chain itself (the five-field copy loses nothing) |
| ChatInterface.NormalizedPromptSame | framework/frontend/src/components/ChatInterface.jsx:276-282 | filling in "" and [] for a missing context and file list leaves the step's context prompt unchanged |
| ChatInterface.NormalizedRunsTheSame | framework/frontend/src/components/ChatInterface.jsx:276-282 | the chain Apply stores runs on the server exactly as the chain on the screen: same answer, same error |
| ChatInterface.AgentIdsCoverChain | framework/frontend/src/components/ChatInterface.jsx:275-282 | the `agents` field names exactly the chain's agents, and the stored copy uses the same set of agents |
| ChatInterface.NormalizedIdempotent | framework/frontend/src/components/ChatInterface.jsx:276-282 | normalising twice gives the same chain as once, and every normalised step has a context and a file list |
| ChatInterface.ApplyThenLoad | framework/frontend/src/components/ChatInterface.jsx:275-287 | after Apply the server answers "Project updated successfully" and stores the chain's agent ids and its normalised copy; reloading the chat without a selector shows that copy, and a non-empty one becomes the chain the server runs by default |
| ChatInterface.NewStepNormal | framework/frontend/src/components/ChatInterface.jsx:152-159 | a step added by the add button is already normalised, so Apply stores it unchanged |
| AppRoutes.Shell.constructor | framework/frontend/src/App.jsx:20-25 | the sidebar key starts at 0 and the dialog closed |
| AppRoutes.Shell.HandleProjectCreated | framework/frontend/src/App.jsx:27-29 | a created project increments the sidebar key by exactly one and leaves the dialog flag alone |
| AppRoutes.Shell.OpenCreateModal | framework/frontend/src/App.jsx:48 | the dialog opens and the sidebar key is kept |
| AppRoutes.Shell.CloseCreateModal | framework/frontend/src/App.jsx:95 | the dialog closes and the sidebar key is kept |
| AppRoutes.PrefixedPaths | framework/frontend/src/App.jsx:79-88 | a path under "/agent/" or "/project/" never equals one of the fixed routes, and its parameter is the rest of the path |
| AppRoutes.RenderPathOf | framework/frontend/src/App.jsx:31-88 | every page is rendered again at its own path, with the sidebar exactly off the landing and login pages, behind the guard the table gives it |
| AppRoutes.ExcludedPages | framework/frontend/src/App.jsx:22-42 | the sidebar is left out exactly on "/" and "/login", and only the landing and login pages are shown there |
| AppRoutes.AdminGuards | framework/frontend/src/App.jsx:54-88 | a route requires an admin exactly when it is an administration page or an agent page; every matched route of the main layout is protected |
| AuthContext.AuthState.constructor | framework/frontend/src/context/AuthContext.jsx:7-9 | the token starts as the stored one, with no user and loading |
| AuthContext.AuthState.Logout | framework/frontend/src/context/AuthContext.jsx:60-64 | the token leaves storage and state and the user is cleared |
| AuthContext.AuthState.FetchUser | framework/frontend/src/context/AuthContext.jsx:20-35 | a fetched user is stored and returned; a failed fetch logs out and returns nothing; loading ends either way |
| AuthContext.AuthState.Start | framework/frontend/src/context/AuthContext.jsx:11-18 | with a token the user is fetched; without one loading ends with nothing fetched |
| AuthContext.AuthState.Login | framework/frontend/src/context/AuthContext.jsx:37-58 | a successful login stores the token in storage and state and then fetches the user; a failed one changes nothing and throws the server's detail or "Login failed" |
| AuthContext.ReloadKeepsSession | framework/frontend/src/context/AuthContext.jsx:8-18 | after a login, a reload with the stored token brings the same user back with the same token |
| Sidebar.SidebarState.constructor | framework/frontend/src/components/Sidebar.jsx:8-12 | no project is expanded and none is listed |
| Sidebar.SidebarState.ToggleProjectExpand | framework/frontend/src/components/Sidebar.jsx:14-20 | the project's flag is set to the negation of its current value (a missing key counting as collapsed) |
| Sidebar.SidebarState.FetchProjects | framework/frontend/src/components/Sidebar.jsx:28-35 | the listed projects replace the current ones; a failed call keeps them |
| Sidebar.ToggleFlags | framework/frontend/src/components/Sidebar.jsx:14-20 | a toggle flips that project's flag only, and toggling twice restores it |
| Sidebar.ChainEntryLabels | framework/frontend/src/components/Sidebar.jsx:145-160 | every chain entry has a non-empty label: the step's name when it has one, "Unknown Agent" otherwise |
| Sidebar.LegacyLabelsDistinct | framework/frontend/src/components/Sidebar.jsx:162-174 | two legacy entries never share a label |
| Sidebar.SubListShown | framework/frontend/src/components/Sidebar.jsx:117-143 | the sub-list shows something exactly when the project is expanded and has agents |
| Sidebar.SubListSources | framework/frontend/src/components/Sidebar.jsx:143-174 | a non-empty chain_config is listed alone; the legacy ids are listed only when chain_config is missing or empty |
| Sidebar.EntryOpensChat | framework/frontend/src/components/Sidebar.jsx:150 | each entry opens the project's chat route with the agent in the query |
| Sidebar.AdminPartsGuarded | framework/frontend/src/components/Sidebar.jsx:54-112 | only admins get the administration links and the create button, and every such link leads to an admin-only route |
| AccessLog.Without | framework/frontend/src/pages/AccessLog.jsx:86 | the removed id is gone from the result, which is never longer |
| AccessLog.WithoutAppend | framework/frontend/src/pages/AccessLog.jsx:86 | filtering distributes over concatenation |
| AccessLog.WithoutKeeps | framework/frontend/src/pages/AccessLog.jsx:86 | filtering removes every occurrence of the id and keeps all other ids with their counts; an absent id changes nothing |
| AccessLog.CreateUserForm.constructor | framework/frontend/src/pages/AccessLog.jsx:12-17 | the form starts empty with the role "user" and no messages |
| AccessLog.CreateUserForm.Edit | framework/frontend/src/pages/AccessLog.jsx:120-141 | the inputs set e-mail, password and role only |
| AccessLog.CreateUserForm.ToggleProjectSelection | framework/frontend/src/pages/AccessLog.jsx:84-90 | the selection becomes the toggled selection: the id removed everywhere when present, else appended |
| AccessLog.ToggleMembership | framework/frontend/src/pages/AccessLog.jsx:84-90 | after a toggle the id is selected exactly when it was not before, and no other id changes |
| AccessLog.ToggleTwice | framework/frontend/src/pages/AccessLog.jsx:84-90 | selecting an unselected id and deselecting it again restores the list |
| AccessLog.CreateUserForm.SubmitCreateUser | framework/frontend/src/pages/AccessLog.jsx:48-82 | both messages are cleared and the form is sent; success names the e-mail and empties e-mail, password and selection but keeps the role; failure shows the detail or "Failed to create user" |
| AccessLog.AllowedLabelCases | framework/frontend/src/pages/AccessLog.jsx:208-214 | "All Access" exactly for admins, "None" exactly for other users without projects, the count otherwise |
| AccessLog.FormCreatesUser | framework/frontend/src/pages/AccessLog.jsx:60-65 | the user the server creates from the form is allowed on exactly the selected projects, with the chosen role and e-mail |
| CreateProjectModal.ModalState.constructor | framework/frontend/src/components/CreateProjectModal.jsx:7-12 | the dialog starts at step 1 with every field empty and chaining off |
| CreateProjectModal.ModalState.Edit | framework/frontend/src/components/CreateProjectModal.jsx:99-109 | the inputs of step 1 set name, goal and chaining flag only |
| CreateProjectModal.ModalState.StartAnalyze | framework/frontend/src/components/CreateProjectModal.jsx:27-37 | with the button disabled (no name or no goal) nothing happens; otherwise step 2, and the prompt is the goal, or else the description |
| CreateProjectModal.ModalState.FinishAnalyze | framework/frontend/src/components/CreateProjectModal.jsx:39-48 | step 3 after success or failure, with the suggested screens or exactly the two fallback screens |
| CreateProjectModal.ModalState.Back | framework/frontend/src/components/CreateProjectModal.jsx:209 | "Back to Edit" returns to step 1 with every field kept |
| CreateProjectModal.ModalState.Close | framework/frontend/src/components/CreateProjectModal.jsx:15-23 | every field returns to its initial value and the step to 1 |
| CreateProjectModal.ModalState.Create | framework/frontend/src/components/CreateProjectModal.jsx:51-65 | the body carries the five fields; a successful create notifies the caller and resets, a failed one changes nothing |
| CreateProjectModal.Walkthrough | framework/frontend/src/components/CreateProjectModal.jsx:27-65 | a full pass always sends the goal as the prompt and creates the project with the suggested screens, or Dashboard then Settings when the analysis failed |
| Landing.TextCarousel.constructor | framework/frontend/src/pages/LandingPage.jsx:15-16 | the carousel starts on the first word |
| Landing.TextCarousel.Tick | framework/frontend/src/pages/LandingPage.jsx:19-21 | one tick moves to the next word modulo the number of words, staying in range |
| Landing.AfterTicksCycle | framework/frontend/src/pages/LandingPage.jsx:15-23 | after n ticks the carousel shows word n mod the number of words |
| Landing.LaunchRoutes | framework/frontend/src/pages/LandingPage.jsx:55-67 | no user goes to the login page, an admin to the admin dashboard and any other user to the user dashboard, each a route of the table with the right guard |
| TextToBinary.DecodeAllTokens | framework/backend/agents/695e192fe5ff389404acadc9.py:4 | the tokens, read back one by one, give exactly the message |
| TextToBinary.ByteToken | framework/backend/agents/695e192fe5ff389404acadc9.py:4 | each token has at least eight binary digits and denotes its character's code point |
| TextToBinary.ByteTokenOfOctet | framework/backend/agents/695e192fe5ff389404acadc9.py:4 | below 256 a token has exactly eight digits |
| TextToBinary.EncodeEmpty | framework/backend/agents/695e192fe5ff389404acadc9.py:4 | an empty message gives "" |
| TextToBinary.EncodeAlphabet | framework/backend/agents/695e192fe5ff389404acadc9.py:4 | the output holds only '0', '1' and ' ' |
| TextToBinary.EncodeTokens | framework/backend/agents/695e192fe5ff389404acadc9.py:4 | splitting a non-empty output at its spaces gives exactly one token per character |
| TextToBinary.EncodeRoundTrip | framework/backend/agents/695e192fe5ff389404acadc9.py:4 | decoding the output gives back the message |
| ChunkTranslate.Chunks | framework/backend/agents/695e2f5359a7f75e5064d5d4.py:10-11 | no chunks exactly for an empty message; ceil(n/2000) chunks; every chunk non-empty and at most 2000 long, all but the last exactly 2000 |
| ChunkTranslate.ChunksConcat | framework/backend/agents/695e2f5359a7f75e5064d5d4.py:11 | the chunks concatenate back to the message |
| ChunkTranslate.Piece | framework/backend/agents/695e2f5359a7f75e5064d5d4.py:15-21 | a chunk whose translation raised contributes "" |
| ChunkTranslate.Run | framework/backend/agents/695e2f5359a7f75e5064d5d4.py:5-26 | the translation loop produces the pieces joined by single spaces, or the "Translation Error" answer |
| ChunkTranslate.TranslateEmpty | framework/backend/agents/695e2f5359a7f75e5064d5d4.py:11-24 | an empty message has no chunks and translates to "" |
| ChunkTranslate.ChunksFront | framework/backend/agents/695e2f5359a7f75e5064d5d4.py:10-11 | past 2000 characters, the slices are the first 2000 characters followed by the slices of the rest |
| ChunkTranslate.TranslationFront | framework/backend/agents/695e2f5359a7f75e5064d5d4.py:10-24 | for every translator, one slice gives its piece, and a longer message gives the first slice's piece, one space, then the answer for the rest |
| ChunkTranslate.TranslationPieces | framework/backend/agents/695e2f5359a7f75e5064d5d4.py:14-24 | when no piece holds a space, splitting the answer at spaces gives back the pieces, one per chunk |
| LineEditor.Emit | framework/backend/agents/6960bb509d7bf661d7a0f7d9.py:10-13 | every word's contribution is non-empty and ends with a space |
| LineEditor.EditWord | framework/backend/agents/6960bb509d7bf661d7a0f7d9.py:9-13 | the loop body produces the word's contribution to the line |
| LineEditor.BuildLine | framework/backend/agents/6960bb509d7bf661d7a0f7d9.py:7-13 | the inner loop builds the concatenation of the words' contributions |
| LineEditor.Run | framework/backend/agents/6960bb509d7bf661d7a0f7d9.py:3-15 | the agent's loops compute the edited lines joined by newlines |
| LineEditor.EditLineWords | framework/backend/agents/6960bb509d7bf661d7a0f7d9.py:8-14 | an edited line splits into the line's cleaned words, the empty ones dropped |
| LineEditor.BlankLine | framework/backend/agents/6960bb509d7bf661d7a0f7d9.py:8-14 | a whitespace-only line becomes an empty line |
| LineEditor.EditLineStripped | framework/backend/agents/6960bb509d7bf661d7a0f7d9.py:14 | an edited line neither starts nor ends with whitespace |
| LineEditor.EditLineNoNewline | framework/backend/agents/6960bb509d7bf661d7a0f7d9.py:8-14 | an edited line holds no line break |
| LineEditor.EditedLines | framework/backend/agents/6960bb509d7bf661d7a0f7d9.py:4-15 | the answer has as many lines as the message, the i-th being the edit of the i-th |
| EmailSender.ScanFrom | framework/backend/agents/email_sender_agent.py:36-45 | the loop stops at a blank line only after a non-empty recipient, and the body starts after that line |
| EmailSender.ParseHeaders | framework/backend/agents/email_sender_agent.py:30-45 | the header loop with its break computes the recipient, subject and body start of the scan |
| EmailSender.SubjectDefault | framework/backend/agents/email_sender_agent.py:32 | without a "Subject:" line the subject stays "No Subject" |
| EmailSender.HeaderForms | framework/backend/agents/email_sender_agent.py:37-40 | a line is a "to:" (or "subject:") header exactly when its first letters spell the word in any mix of letter case |
| EmailSender.HeaderCase | framework/backend/agents/email_sender_agent.py:37-40 | a "to:" line in any letter case sets the recipient to the stripped rest after three characters; a "subject:" line sets the subject to the stripped rest after eight |
| EmailSender.ExplicitRecipient | framework/backend/agents/email_sender_agent.py:36-61 | with a first "to:" line i holding an address and a blank line j after it (no "to:" or blank line between), the mail goes to that address with the scanned subject and the lines after j as body |
| EmailSender.FallbackRecipient | framework/backend/agents/email_sender_agent.py:48-57 | without a recipient header the first address found is used and the body is the whole stripped message |
| EmailSender.WholeBody | framework/backend/agents/email_sender_agent.py:33-61 | when the loop found no blank line after a recipient, the body is the whole stripped message |
| EmailSender.NoRecipientCase | framework/backend/agents/email_sender_agent.py:58-59 | nothing is sent and the fixed error is the answer exactly when neither the headers nor the search give a recipient |
| EmailSender.Run | framework/backend/agents/email_sender_agent.py:17-84 | a mail is sent exactly when there is a recipient and SMTP succeeds; the answer is then "Email sent successfully to <to> with subject '<subject>'.", "Error sending email: <e>" when SMTP raises, and the fixed recipient error when there is no recipient |
| EmailSender.FoundAddressShaped | framework/backend/agents/email_sender_agent.py:50 | the address found has the shape of the pattern: address characters, '@', address characters, '.', word characters |
| EmailSender.SearchLeftmost | framework/backend/agents/email_sender_agent.py:50 | the search returns the match at the leftmost position where the pattern matches, and no piece of the text before that position has the address shape |
| EmailSender.MatchComplete | framework/backend/agents/email_sender_agent.py:50 | wherever a piece of the text has the address shape, the pattern matches at its start |
| EmailSender.SearchNothing | framework/backend/agents/email_sender_agent.py:50-51 | the search finds nothing only when no piece of the text after the start has the address shape |
| EmailSender.NoAddressAnywhere | framework/backend/agents/email_sender_agent.py:48-59 | the recipient error is given only for a message none of whose pieces has the address shape |
| EmailSender.LastDotGreedy | framework/backend/agents/email_sender_agent.py:50 | the pattern's backtracking takes the last '.' followed by a word character |
| EmailAttachment.Configure | framework/backend/agents/email_attachment_agent.py:11-20 | each setting comes from the configuration when present; the IMAP server defaults to "imap.gmail.com" and the folder to "email_attachments" |
| EmailAttachment.CleanFilenameCases | framework/backend/agents/email_attachment_agent.py:22-25 | a missing or empty name becomes "untitled"; any other name is filtered, then stripped |
| EmailAttachment.CleanFilenameChars | framework/backend/agents/email_attachment_agent.py:25 | a cleaned name holds only alphanumerics, ' ', '.', '_' and '-', so no path separator |
| EmailAttachment.CleanFilenameIdempotent | framework/backend/agents/email_attachment_agent.py:22-25 | cleaning a cleaned non-empty name gives it back |
| EmailAttachment.CleanFilenameCanBeEmpty | framework/backend/agents/email_attachment_agent.py:24-25 | a non-empty name can clean to "" |
| EmailAttachment.Section | framework/backend/agents/email_attachment_agent.py:99-111 | the text a saved attachment adds is never empty, whatever its extension and whether its reading failed |
| EmailAttachment.ProcessParts | framework/backend/agents/email_attachment_agent.py:75-111 | the loop over a mail's parts computes the accumulated files, log and text, or stops at the first save error |
| EmailAttachment.FetchFailureAnswer | framework/backend/agents/email_attachment_agent.py:64-116 | when fetching a mail raises after the earlier mails went through, the answer is "IMAP Error: <e>. Please check your credentials." for an IMAP error and "Error: <e>" otherwise, whatever the later mails hold |
| EmailAttachment.SaveFailureAnswer | framework/backend/agents/email_attachment_agent.py:92-116 | when saving an attachment raises after everything before it went through, the answer is "Error: " and the exception's text |
| EmailAttachment.SaveErrorSticks | framework/backend/agents/email_attachment_agent.py:92-93 | once saving raises, the parts after it change nothing |
| EmailAttachment.MailErrorSticks | framework/backend/agents/email_attachment_agent.py:64-111 | once a mail raises, the mails after it change nothing |
| EmailAttachment.StepConsistent | framework/backend/agents/email_attachment_agent.py:87-111 | processing a part keeps the bookkeeping consistent: one log line per download, only cleaned names, and non-empty text once something was downloaded |
| EmailAttachment.Run | framework/backend/agents/email_attachment_agent.py:27-133 | the agent's loops and early returns compute the answer of the model: folder error, a session or fetch exception, a save error, no mail, or the result selection |
| EmailAttachment.RunOutcome | framework/backend/agents/email_attachment_agent.py:126-133 | after a complete run, no download gives the log plus "No attachments found"; otherwise the text is non-empty and is the answer |
| ProjectGenerator.UnfenceFenced | framework/backend/project_generator.py:29-37 | a body wrapped in the language fence and a closing fence comes back unchanged |
| ProjectGenerator.UnfencePlain | framework/backend/project_generator.py:29-37 | a reply without fences is only stripped |
| ProjectGenerator.AnalyzeFallback | framework/backend/project_generator.py:41-44 | any failure gives exactly the single "Dashboard" screen |
| ProjectGenerator.GenerateCode | framework/backend/project_generator.py:46-70 | the loop fills the dictionary with one component per screen name, a later screen overwriting an earlier one |
| ProjectGenerator.IdentifierShape | framework/backend/project_generator.py:54 | the component identifier has no spaces, and a name without spaces is its own identifier |
| ProjectGenerator.ComponentNames | framework/backend/project_generator.py:52-67 | each component declares the identifier first and exports it last |
| ProjectGenerator.CodeMapKeys | framework/backend/project_generator.py:49-68 | the dictionary has exactly one key per distinct screen name |
| ProjectGenerator.CodeMapLastWins | framework/backend/project_generator.py:51-68 | each name maps to the component of the last screen carrying it |
| ProjectGenerator.ClassNameShape | framework/backend/project_generator.py:82 | the class name has no spaces and ends with "Agent" |
| ProjectGenerator.EnsureImportProperties | framework/backend/project_generator.py:110-112 | the import is added exactly when it is missing, the result always holds it, and a second pass changes nothing |
| ProjectGenerator.AgentCodeImports | framework/backend/project_generator.py:97-122 | whatever the model answers, or when it fails, the agent code imports BaseAgent |
| ProjectGenerator.ReplaceRemovesQualified | framework/backend/project_generator.py:108 | after the replacement no "(agents.base.BaseAgent)" is left, even where a replacement meets the text around it |
| ProjectGenerator.CleanAgentCodeUnqualified | framework/backend/project_generator.py:105-112 | the cleaned agent code never names the fully qualified base class, also after the import line is put in front |
| ProjectGenerator.FallbackDeclaresClass | framework/backend/project_generator.py:115-122 | the fallback template declares the class under the class name, inheriting from BaseAgent |

## Left out

- I/O is not modelled: Mongo, HTTP, SMTP, IMAP, the file system, the language model, the translator and the retrieval service. Their outcomes are parameters.
  - The clock is a parameter `now`.
  - The agents' built-in account and password are parameters `builtinUser` and `builtinPassword` rather than values of the model.
- JSON parsing of the model's replies is a parameter `parse`.
- `decode_header` is left out, as is a fetch answer with several message tuples: a mail is what fetching it raises (if anything), its subject and its parts. An exception while decoding a subject or a file name is not modelled apart; it would end the run with "Error: " like a save error.
- Python's `lower`, `isalnum` and `\w`, and JavaScript's `toLowerCase`, are restricted to ASCII; Unicode case mapping and letter classes are not modelled.
- `ObjectId.is_valid` is modelled for strings only (24 hexadecimal digits), and `str(ObjectId(id))` as lower-casing the digits.
- Async interleavings are not modelled: each handler is one atomic step. This leaves out:
  - the second user fetch the token effect starts after a login;
  - stale responses after a route change;
  - the two-second minimum delay of the analysis.
- AuthContext.AuthState.Login: the failure carries only the detail text of the server's error body. The source rethrows the whole body (or `{detail: 'Login failed'}` when there is none), so the model does not distinguish a body that has no `detail` from a missing body: both become "Login failed".
- `ProtectedRoute.jsx`, `Login.jsx`, `auth.py` and `database.py` are not part of this model. The route table records the guard each route carries, not what the guard does.
- React Router's matching details are not modelled: a trailing slash, letter case and URL decoding.
- ChatInterface.ChatView.UpdateContext: models `updateChainItem` for the field `context` only, the one field the screen passes.
- ChatInterface.ChatView.UpdateContext, AttachFile and RemoveFile require an index inside the chain, because the panel that calls them exists only for a selected step that is in the chain.
- ChatInterface.ChatView.RemoveFile requires the step to have a file list: the panel renders `files.map`, which fails for a placeholder step without files, so the button cannot be reached there.
- The chain editors copy the array but mutate the shared step object. That aliasing of React state is not modelled: steps are values.
- The agent drawer, `fetchAgents`, the scroll effects and all rendering are left out.
- Landing.TextCarousel.constructor requires a non-empty word list. With an empty list the source computes `NaN` indices; the page always passes ten words.
- AccessLog: the list refresh after a create, and `fetchData`, are left out.
- ChatService.ProcessChat: the retrieval service's answer when no chain runs is a parameter, as is the agent lookup.
- ChatService.ProcessChat: dynamic loading of agent modules (`importlib`) is modelled as a `run` function per agent that returns a result or an exception; the search for the class by name is not modelled.
- These endpoints of `main.py` are left out: `create_project`, the agent endpoints, `list_repositories`, `read_users` and the Teams bot. They only pass data through to storage or to the generator.
- The project generator's LLM prompts are left out; only the cleanup of the reply and the fallbacks are modelled.
- EmailAttachment.Run: a mail is processed as a whole list of parts; Python's `msg.walk()` order is taken as given.
