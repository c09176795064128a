/**
 * The pure rendering decisions of the `Sidebar` and `SidebarMenuButton` components:
 * which of three forms the sidebar takes, its `data-collapsible` attribute, and
 * whether a menu button is wrapped in a tooltip that can show.
 */
module Render {
  import opened Wrappers
  import opened ViewState

  /** The `collapsible` prop; `offcanvas` when omitted. */
  datatype Collapsible = Offcanvas | Icon | NoCollapse

  function CollapsibleOrDefault(c: Option<Collapsible>): (r: Collapsible)
    ensures c.Some? ==> r == c.value
    ensures c.None? ==> r == Offcanvas
  {
    match c
    case Some(v) => v
    case None => Offcanvas
  }

  /** The prop's string value as it appears in attributes. */
  function CollapsibleName(c: Collapsible): (name: string)
    ensures name != ""
  {
    match c
    case Offcanvas => "offcanvas"
    case Icon => "icon"
    case NoCollapse => "none"
  }

  /**
   * The three forms `Sidebar` renders:
   *   PlainPanel         a full-width panel that never collapses
   *   Drawer(isOpen)     the mobile overlay drawer bound to the drawer flag
   *   DesktopPanel(...)  the desktop panel carrying `data-state` and `data-collapsible`
   */
  datatype Rendering =
    | PlainPanel
    | Drawer(isOpen: bool)
    | DesktopPanel(dataState: SidebarState, dataCollapsible: string)

  /** `data-collapsible`: the collapsible mode while collapsed, empty while expanded. */
  function DataCollapsible(state: SidebarState, c: Collapsible): (r: string)
    ensures r == "" <==> state == Expanded
    ensures state == Collapsed ==> r == CollapsibleName(c)
  {
    match state
    case Collapsed => CollapsibleName(c)
    case Expanded => ""
  }

  /**
   * The attribute of a collapsed panel tells the two collapsing modes apart (`none` never
   * reaches the desktop panel).
   */
  lemma DataCollapsibleDistinguishes(c1: Collapsible, c2: Collapsible)
    requires c1 != NoCollapse && c2 != NoCollapse
    ensures DataCollapsible(Collapsed, c1) == DataCollapsible(Collapsed, c2) <==> c1 == c2
  {
  }

  /** The branch selection of `Sidebar`. */
  function RenderSidebar(c: Collapsible, isMobile: bool, state: SidebarState, openMobile: bool): (r: Rendering)
    ensures c == NoCollapse <==> r == PlainPanel
    ensures r.Drawer? <==> c != NoCollapse && isMobile
    ensures r.Drawer? ==> r.isOpen == openMobile
    ensures r.DesktopPanel? <==> c != NoCollapse && !isMobile
    ensures r.DesktopPanel? ==> r.dataState == state && r.dataCollapsible == DataCollapsible(state, c)
  {
    if c == NoCollapse then PlainPanel
    else if isMobile then Drawer(openMobile)
    else DesktopPanel(state, DataCollapsible(state, c))
  }

  /** What `Sidebar` renders inside a provider in state `s`. */
  function RenderFromContext(c: Collapsible, s: Store): Rendering
  {
    RenderSidebar(c, s.isMobile, s.State(), s.openMobile)
  }

  /** `collapsible = none`: whatever toggles happen, the rendering stays the plain panel. */
  lemma NoCollapseIgnoresToggles(s: Store, n: nat)
    ensures RenderFromContext(NoCollapse, Toggles(s, n)) == PlainPanel
  {
  }

  /** Desktop, uncontrolled: after `n` toggles the panel's attributes follow the flag's parity. */
  lemma DesktopRenderAfterToggles(c: Collapsible, s: Store, n: nat)
    requires c != NoCollapse && !s.isMobile && Uncontrolled(s)
    ensures RenderFromContext(c, Toggles(s, n))
      == DesktopPanel(StateOf(s.Open() != Odd(n)), DataCollapsible(StateOf(s.Open() != Odd(n)), c))
  {
    TogglesParityDesktop(s, n);
  }

  /**
   * Default provider on a desktop layout with `collapsible = icon`: one toggle collapses
   * the panel to the icon rail and writes `sidebar_state=false`.
   */
  lemma IconScenario()
    ensures var s := ToggleSidebar(Init(None, None, false, false));
      && s.State() == Collapsed
      && RenderFromContext(Icon, s) == DesktopPanel(Collapsed, "icon")
      && s.cookie == Some(Cookie.CookieText(false))
  {
    var s0 := Init(None, None, false, false);
    assert s0.Open() && !s0.isMobile && Uncontrolled(s0);
  }

  /**
   * Mobile layout: the trigger opens the drawer, then the drawer reporting its dismissal
   * closes it again.
   */
  lemma DrawerScenario(c: Collapsible)
    requires c != NoCollapse
    ensures var shown := ToggleSidebar(Init(None, None, false, true));
      && RenderFromContext(c, shown) == Drawer(true)
      && RenderFromContext(c, DrawerOpenChange(shown, false)) == Drawer(false)
  {
  }

  // ---- Menu button tooltip ----

  /** The `tooltip` prop: a string, or tooltip props whose `content` may be absent. */
  datatype TooltipArg = TooltipText(text: string) | TooltipProps(content: Option<string>)

  /** A bare button, or a button wrapped in a tooltip with its content and `isDisabled`. */
  datatype MenuButtonView = BareButton | WithTooltip(content: string, isDisabled: bool)

  /** `!tooltip`: absent, or the empty string (which is falsy). */
  predicate NoTooltip(tooltip: Option<TooltipArg>)
    ensures tooltip.Some? && tooltip.value.TooltipProps? ==> !NoTooltip(tooltip)
    ensures tooltip.Some? && tooltip.value.TooltipText? ==> (NoTooltip(tooltip) <==> tooltip.value.text == "")
    ensures tooltip.None? ==> NoTooltip(tooltip)
  {
    tooltip == None || tooltip == Some(TooltipText(""))
  }

  /**
   * `SidebarMenuButton`'s tooltip decision. The tooltip content is the string itself, or the
   * props' `content`, falling back to the button's children.
   */
  function MenuButtonTooltip(tooltip: Option<TooltipArg>, children: string, state: SidebarState, isMobile: bool): (r: MenuButtonView)
    ensures r.BareButton? <==> NoTooltip(tooltip)
    ensures r.WithTooltip? ==> (!r.isDisabled <==> state == Collapsed && !isMobile)
    ensures r.WithTooltip? && tooltip.value.TooltipText? ==> r.content == tooltip.value.text
    ensures r.WithTooltip? && tooltip.value.TooltipProps? ==>
              r.content == (if tooltip.value.content.Some? then tooltip.value.content.value else children)
  {
    if NoTooltip(tooltip) then BareButton
    else
      var content := match tooltip.value
        case TooltipText(t) => t
        case TooltipProps(c) => (match c case Some(v) => v case None => children);
      WithTooltip(content, state != Collapsed || isMobile)
  }

  /** A tooltip can only show on a collapsed desktop sidebar, whatever the toggle history. */
  lemma TooltipOnlyWhenCollapsedDesktop(c: Collapsible, tooltip: Option<TooltipArg>, children: string, s: Store)
    requires c != NoCollapse
    requires MenuButtonTooltip(tooltip, children, s.State(), s.isMobile).WithTooltip?
    requires !MenuButtonTooltip(tooltip, children, s.State(), s.isMobile).isDisabled
    ensures !s.Open() && !s.isMobile
    ensures RenderFromContext(c, s) == DesktopPanel(Collapsed, CollapsibleName(c))
  {
  }
}
