/**
 * What the sidebar shows for a given store and query state: which panels are
 * mounted, whether New Chat is enabled, what the mode panel holds, and how the
 * collapse toggle changes the picture.
 */
module SidebarGating {
  import opened Wrappers

  /** How many placeholder rows the mode panel shows while the endpoint loads. */
  const SkeletonRows: nat := 3

  /** Everything the sidebar's markup depends on. `selectedModel` is a plain
      string in the store; `agentId` and `teamId` are query-string values,
      `None` for `null`. */
  datatype SidebarInputs = SidebarInputs(
    messageCount: nat,
    isMounted: bool,
    isEndpointActive: bool,
    isEndpointLoading: bool,
    selectedModel: string,
    agentId: Option<string>,
    teamId: Option<string>,
    isCollapsed: bool)

  /** The body of the mode panel: placeholder rows while loading, else the mode
      and entity selectors followed by the model shown, if any. */
  datatype ModePanel = Loading(skeletons: nat) | Selectors(modelDisplay: Option<string>)

  /**
   * The rendered sidebar. `panels` stands for the endpoint, auth token, ports
   * and agent status panels, which are mounted together; `collapsed` is the
   * narrow, transparent, click-through state of the aside.
   */
  datatype SidebarView = SidebarView(
    collapsed: bool,
    toggleLabel: string,
    newChatDisabled: bool,
    panels: bool,
    mode: Option<ModePanel>,
    sessions: bool)

  /** JavaScript truthiness of a query value: `null` and `''` are falsy. */
  predicate Truthy(s: Option<string>) {
    s.Some? && s.value != ""
  }

  /** The model display condition `selectedModel && (agentId || teamId)`. */
  predicate ShowsModel(i: SidebarInputs) {
    i.selectedModel != "" && (Truthy(i.agentId) || Truthy(i.teamId))
  }

  /** The mode panel's body once the endpoint is active. */
  function ModeBody(i: SidebarInputs): (p: ModePanel)
    ensures i.isEndpointLoading <==> p == Loading(SkeletonRows)
    ensures !i.isEndpointLoading ==> p.Selectors? && (p.modelDisplay.Some? <==> ShowsModel(i))
    ensures p.Selectors? && p.modelDisplay.Some? ==> p.modelDisplay.value == i.selectedModel
  {
    if i.isEndpointLoading then Loading(SkeletonRows)
    else if ShowsModel(i) then Selectors(Some(i.selectedModel))
    else Selectors(None)
  }

  /** The sidebar's markup for the given state. */
  function Render(i: SidebarInputs): (v: SidebarView)
    ensures v.newChatDisabled <==> i.messageCount == 0
    ensures v.panels <==> i.isMounted
    ensures v.mode.Some? <==> i.isMounted && i.isEndpointActive
    ensures v.sessions <==> v.mode.Some?
    ensures v.mode.Some? ==> v.mode.value == ModeBody(i)
    ensures v.collapsed <==> i.isCollapsed
    ensures v.toggleLabel == (if i.isCollapsed then "Expand sidebar" else "Collapse sidebar")
  {
    var active := i.isMounted && i.isEndpointActive;
    SidebarView(
      i.isCollapsed,
      if i.isCollapsed then "Expand sidebar" else "Collapse sidebar",
      i.messageCount == 0,
      i.isMounted,
      if active then Some(ModeBody(i)) else None,
      active)
  }

  /** The model name is on screen exactly when the sidebar is mounted, the
      endpoint is active and loaded, a model is selected and an agent or a team
      is chosen. */
  lemma ModelShownIff(i: SidebarInputs)
    ensures (Render(i).mode.Some? && Render(i).mode.value.Selectors? && Render(i).mode.value.modelDisplay.Some?)
        <==> i.isMounted && i.isEndpointActive && !i.isEndpointLoading && ShowsModel(i)
  {
  }

  /** The toggle's click handler. */
  function ToggleCollapse(i: SidebarInputs): (r: SidebarInputs)
    ensures r.isCollapsed == !i.isCollapsed
    ensures r.(isCollapsed := i.isCollapsed) == i
  {
    i.(isCollapsed := !i.isCollapsed)
  }

  /** Clicking the toggle twice restores the sidebar. */
  lemma ToggleTwice(i: SidebarInputs)
    ensures ToggleCollapse(ToggleCollapse(i)) == i
    ensures Render(ToggleCollapse(ToggleCollapse(i))) == Render(i)
  {
  }

  /** Collapsing only hides the content: nothing is unmounted, so every panel
      keeps its state, and only the aside's look and the toggle's label change. */
  lemma CollapseKeepsContent(i: SidebarInputs)
    ensures var v := Render(ToggleCollapse(i));
      && v.collapsed != Render(i).collapsed
      && v.(collapsed := Render(i).collapsed, toggleLabel := Render(i).toggleLabel) == Render(i)
  {
  }

  /** Before the sidebar's mount effect, only the header and New Chat are there. */
  lemma FirstRenderIsBare(i: SidebarInputs)
    requires !i.isMounted
    ensures !Render(i).panels && Render(i).mode == None && !Render(i).sessions
  {
  }
}
