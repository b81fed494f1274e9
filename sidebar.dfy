/**
 * The sidebar (`Sidebar.jsx`): the administration links, the per-project
 * expand flags, and the agent sub-list under an expanded project with the
 * location each entry opens.
 */
module Sidebar {
  import opened Wrappers
  import opened Strings
  import opened Models
  import AppRoutes

  /** One button of a project's agent sub-list: its text and where it navigates. */
  datatype SubEntry = SubEntry(text: string, target: string)

  /** `expandedProjects[id]` as a condition: a missing key is collapsed. */
  predicate IsExpanded(expanded: map<string, bool>, key: string) { key in expanded && expanded[key] }

  /** The flags after `toggleProjectExpand(key)`. */
  function Toggled(expanded: map<string, bool>, key: string): map<string, bool> {
    expanded[key := !IsExpanded(expanded, key)]
  }

  /** `hasAgents`: a non-empty `chain_config` or a non-empty legacy agent list. */
  predicate HasAgents(project: Project) {
    (project.chainConfig.Some? && |project.chainConfig.value| > 0) || (project.agents.Some? && |project.agents.value| > 0)
  }

  /** The chat of project `projectId` with agent `agentId` selected. */
  function AgentHref(projectId: string, agentId: string): string {
    AppRoutes.ProjectPrefix + projectId + "?agent=" + agentId
  }

  /** `agent.name || 'Unknown Agent'`: an empty name counts as missing. */
  function ChainLabel(step: ChainAgentConfig): string {
    if step.name.Some? && step.name.value != "" then step.name.value else "Unknown Agent"
  }

  function ChainEntries(projectId: string, chain: seq<ChainAgentConfig>): seq<SubEntry>
  {
    seq(|chain|, k requires 0 <= k < |chain| => SubEntry(ChainLabel(chain[k]), AgentHref(projectId, chain[k].agentId)))
  }

  /** The legacy ids, numbered from 1. */
  function LegacyEntries(projectId: string, agents: seq<string>): seq<SubEntry>
  {
    seq(|agents|, k requires 0 <= k < |agents| => SubEntry("Agent " + NatToString(k + 1), AgentHref(projectId, agents[k])))
  }

  /**
   * The sub-list under project `projectId`: nothing unless it is expanded and
   * has agents; then its `chain_config` entries, followed by the legacy ids
   * when `chain_config` is missing or empty.
   */
  function SubList(projectId: string, project: Project, expanded: bool): seq<SubEntry> {
    if !(expanded && HasAgents(project)) then []
    else
      var chain := project.chainConfig.GetOr([]);
      var legacy := if |chain| == 0 && project.agents.Some? then LegacyEntries(projectId, project.agents.value) else [];
      ChainEntries(projectId, chain) + legacy
  }

  /** The administration links, in order. */
  const AdminLinks: seq<string> := ["/admin", "/admin/access-log", "/agent-store", "/repositories"]

  /** The admin-only parts of the sidebar: its links and the create-project button. */
  datatype AdminParts = AdminParts(links: seq<string>, createButton: bool)

  function AdminPartsFor(isAdmin: bool): AdminParts {
    if isAdmin then AdminParts(AdminLinks, true) else AdminParts([], false)
  }

  class SidebarState {
    var expanded: map<string, bool>
    var projects: seq<Project>

    constructor ()
      ensures expanded == map[] && projects == []
    {
      expanded := map[];
      projects := [];
    }

    /** `toggleProjectExpand`. */
    method ToggleProjectExpand(key: string)
      modifies this
      ensures expanded == Toggled(old(expanded), key)
      ensures projects == old(projects)
    {
      var flag := key in expanded && expanded[key];
      expanded := expanded[key := !flag];
    }

    /** `fetchProjects`: the list `/projects` returned; a failed call keeps the current one. */
    method FetchProjects(listed: Option<seq<Project>>)
      modifies this
      ensures projects == listed.GetOr(old(projects))
      ensures expanded == old(expanded)
    {
      if listed.Some? {
        projects := listed.value;
      }
    }
  }

  // ---------------------------------------------------------------------------
  // Properties

  /** A toggle flips the one project's flag and no other; toggling twice restores every flag. */
  lemma ToggleFlags(expanded: map<string, bool>, key: string, other: string)
    requires other != key
    ensures IsExpanded(Toggled(expanded, key), key) == !IsExpanded(expanded, key)
    ensures IsExpanded(Toggled(expanded, key), other) == IsExpanded(expanded, other)
    ensures IsExpanded(Toggled(Toggled(expanded, key), key), key) == IsExpanded(expanded, key)
    ensures IsExpanded(Toggled(Toggled(expanded, key), key), other) == IsExpanded(expanded, other)
  {
  }

  /** The sub-list shows something exactly when the project is expanded and has agents. */
  lemma SubListShown(projectId: string, project: Project, expanded: bool)
    ensures |SubList(projectId, project, expanded)| > 0 <==> expanded && HasAgents(project)
  {
    if expanded && HasAgents(project) {
      var chain := project.chainConfig.GetOr([]);
      if |chain| == 0 {
        assert |project.agents.value| > 0;
      }
    }
  }

  /** A project with a `chain_config` lists its steps alone, in order; the legacy ids only stand in when it has none. */
  lemma SubListSources(projectId: string, project: Project)
    requires HasAgents(project)
    ensures project.chainConfig.Some? && |project.chainConfig.value| > 0 ==>
      SubList(projectId, project, true) == ChainEntries(projectId, project.chainConfig.value)
    ensures (project.chainConfig.None? || |project.chainConfig.value| == 0) ==>
      SubList(projectId, project, true) == LegacyEntries(projectId, project.agents.value)
  {
    var chain := project.chainConfig.GetOr([]);
    if |chain| == 0 {
      assert ChainEntries(projectId, chain) == [];
    }
  }

  /** Every chain entry has a visible label: the step's name when it has one, "Unknown Agent" otherwise. */
  lemma ChainEntryLabels(projectId: string, chain: seq<ChainAgentConfig>, k: nat)
    requires k < |chain|
    ensures ChainEntries(projectId, chain)[k].text != ""
    ensures chain[k].name.Some? && chain[k].name.value != "" ==> ChainEntries(projectId, chain)[k].text == chain[k].name.value
    ensures chain[k].name.None? || chain[k].name == Some("") ==> ChainEntries(projectId, chain)[k].text == "Unknown Agent"
  {
  }

  /** Legacy entries are told apart by their labels: two positions never share one. */
  lemma LegacyLabelsDistinct(projectId: string, agents: seq<string>, k: nat, l: nat)
    requires k < |agents| && l < |agents| && k != l
    ensures LegacyEntries(projectId, agents)[k].text != LegacyEntries(projectId, agents)[l].text
  {
    var entries := LegacyEntries(projectId, agents);
    if entries[k].text == entries[l].text {
      assert NatToString(k + 1) == entries[k].text[|"Agent "|..] == entries[l].text[|"Agent "|..] == NatToString(l + 1);
      NatToStringInjective(k + 1, l + 1);
      assert false;
    }
  }

  /** Every entry opens the project's chat (under its own route) with the agent named in the query. */
  lemma EntryOpensChat(projectId: string, agentId: string)
    requires AppRoutes.IsSegment(projectId)
    ensures var path := AppRoutes.PathOf(AppRoutes.ProjectChat(projectId));
      && AgentHref(projectId, agentId) == path + "?agent=" + agentId
      && AppRoutes.Render(path).page == Some(AppRoutes.ProjectChat(projectId))
      && AppRoutes.Render(path).guard == AppRoutes.Protected(false)
  {
    AppRoutes.RenderPathOf(AppRoutes.ProjectChat(projectId));
  }

  /** Only admins see the administration links and the create button, and each link leads to an admin-only page. */
  lemma AdminPartsGuarded(isAdmin: bool)
    ensures !isAdmin ==> AdminPartsFor(isAdmin).links == [] && !AdminPartsFor(isAdmin).createButton
    ensures isAdmin ==> AdminPartsFor(isAdmin).createButton
    ensures forall link :: link in AdminPartsFor(isAdmin).links ==> AppRoutes.Render(link).guard == AppRoutes.Protected(true)
  {
    AppRoutes.RenderPathOf(AppRoutes.AdminDashboard);
    AppRoutes.RenderPathOf(AppRoutes.AccessLogPage);
    AppRoutes.RenderPathOf(AppRoutes.AgentStore);
    AppRoutes.RenderPathOf(AppRoutes.Repositories);
  }
}
