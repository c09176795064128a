/**
 * The view state that `SidebarProvider` keeps and shares through its context, as a value,
 * with one function per transition the provider offers. The class in provider.dfy performs
 * these transitions in place and is proved against the functions here.
 *
 * Two axes: the desktop open flag (internal state, overridable by a controlled `open` prop,
 * changes reported to an optional `onOpenChange` handler) and the mobile drawer flag.
 */
module ViewState {
  import opened Wrappers
  import opened Cookie

  /** The `data-state` label derived from the desktop open flag. */
  datatype SidebarState = Expanded | Collapsed

  function StateOf(open: bool): (st: SidebarState)
    ensures st == Expanded <==> open
    ensures st == Collapsed <==> !open
  {
    if open then Expanded else Collapsed
  }

  /** The argument of `setOpen`: a new value, or an updater applied to the current flag. */
  datatype SetOpenArg = Value(v: bool) | Updater(f: bool -> bool)

  /** `typeof value === 'function' ? value(open) : value`. */
  function Resolve(arg: SetOpenArg, current: bool): (v: bool)
    ensures arg.Value? ==> v == arg.v
    ensures arg.Updater? ==> v == arg.f(current)
    ensures arg == Updater(Not) ==> v == !current
  {
    match arg
    case Value(v) => v
    case Updater(f) => f(current)
  }

  function Not(b: bool): bool
  {
    !b
  }

  /**
   * Everything the provider holds.
   *   isMobile      the value of the responsive hook (an input)
   *   openMobile    the drawer flag
   *   internalOpen  the uncontrolled desktop flag (`_open`)
   *   openProp      the controlled `open` prop, None when undefined
   *   hasHandler    whether an `onOpenChange` prop is supplied
   *   delivered     every value passed to `onOpenChange`, oldest first
   *   cookie        the last string assigned to `document.cookie` by the provider
   */
  datatype Store = Store(
    isMobile: bool,
    openMobile: bool,
    internalOpen: bool,
    openProp: Option<bool>,
    hasHandler: bool,
    delivered: seq<bool>,
    cookie: Option<string>)
  {
    /** The effective desktop flag: `openProp ?? _open`. */
    function Open(): (open: bool)
      ensures openProp.Some? ==> open == openProp.value
      ensures openProp.None? ==> open == internalOpen
    {
      if openProp.Some? then openProp.value else internalOpen
    }

    function State(): SidebarState
    {
      StateOf(Open())
    }
  }

  /** Neither an `open` prop nor an `onOpenChange` handler: the provider owns the desktop flag. */
  predicate Uncontrolled(s: Store)
  {
    s.openProp.None? && !s.hasHandler
  }

  /** The cookie, once written, agrees with the effective desktop flag. */
  predicate CookieInSync(s: Store)
  {
    s.cookie.Some? ==> s.cookie.value == CookieText(s.Open())
  }

  /** The provider on its first render. An omitted `defaultOpen` means open; the cookie is not read. */
  function Init(defaultOpen: Option<bool>, openProp: Option<bool>, hasHandler: bool, isMobile: bool): (s: Store)
    ensures s.internalOpen <==> defaultOpen != Some(false)
    ensures !s.openMobile && s.cookie == None && s.delivered == []
    ensures s.openProp == openProp && s.hasHandler == hasHandler && s.isMobile == isMobile
    ensures openProp == None ==> (s.State() == Expanded <==> defaultOpen != Some(false))
  {
    var seeded := match defaultOpen case Some(b) => b case None => true;
    Store(isMobile, false, seeded, openProp, hasHandler, [], None)
  }

  /**
   * `setOpen(value)`: resolve against the effective flag, hand the result to `onOpenChange`
   * when there is one and to the internal state otherwise, and write the cookie in both cases.
   */
  function SetOpen(s: Store, arg: SetOpenArg): (t: Store)
    ensures t.cookie == Some(CookieText(Resolve(arg, s.Open())))
    ensures t.isMobile == s.isMobile && t.openMobile == s.openMobile
    ensures t.openProp == s.openProp && t.hasHandler == s.hasHandler
    ensures s.hasHandler ==> t.internalOpen == s.internalOpen && t.delivered == s.delivered + [Resolve(arg, s.Open())]
    ensures !s.hasHandler ==> t.delivered == s.delivered && t.internalOpen == Resolve(arg, s.Open())
    ensures t.Open() == if Uncontrolled(s) then Resolve(arg, s.Open()) else s.Open()
  {
    var openState := Resolve(arg, s.Open());
    var written := s.(cookie := Some(CookieText(openState)));
    if s.hasHandler then written.(delivered := s.delivered + [openState])
    else written.(internalOpen := openState)
  }

  /** `toggleSidebar()`: flip the drawer on mobile, otherwise `setOpen(open => !open)`. */
  function ToggleSidebar(s: Store): (t: Store)
    ensures s.isMobile ==> t == s.(openMobile := !s.openMobile)
    ensures !s.isMobile ==> t.openMobile == s.openMobile && t.cookie == Some(CookieText(!s.Open()))
    ensures !s.isMobile && Uncontrolled(s) ==> t.Open() == !s.Open()
    ensures !s.isMobile && !Uncontrolled(s) ==> t.Open() == s.Open()
    ensures !s.isMobile && s.hasHandler ==> t.delivered == s.delivered + [!s.Open()] && t.internalOpen == s.internalOpen
    ensures !s.isMobile && !s.hasHandler ==> t.delivered == s.delivered && t.internalOpen == !s.Open()
    ensures !s.isMobile ==> t == SetOpen(s, Updater(Not))
    ensures t.isMobile == s.isMobile && t.openProp == s.openProp && t.hasHandler == s.hasHandler
  {
    if s.isMobile then s.(openMobile := !s.openMobile) else SetOpen(s, Updater(Not))
  }

  /** A `keydown` event as the window listener sees it. */
  datatype KeyEvent = KeyEvent(key: string, metaKey: bool, ctrlKey: bool)

  const ShortcutKey: string := "b"

  /** The shortcut: the key `b` (case-sensitive) with Meta or Control held. */
  predicate IsToggleShortcut(e: KeyEvent)
    ensures IsToggleShortcut(e) ==> e.key == "b"
    ensures !e.metaKey && !e.ctrlKey ==> !IsToggleShortcut(e)
    ensures e.key == "b" && e.metaKey ==> IsToggleShortcut(e)
    ensures e.key == "b" && e.ctrlKey ==> IsToggleShortcut(e)
  {
    e.key == ShortcutKey && (e.metaKey || e.ctrlKey)
  }

  /** The window `keydown` listener: toggle on the shortcut, ignore every other key. */
  function HandleKeyDown(s: Store, e: KeyEvent): (t: Store)
    ensures IsToggleShortcut(e) ==> t == ToggleSidebar(s)
    ensures !IsToggleShortcut(e) ==> t == s
  {
    if IsToggleShortcut(e) then ToggleSidebar(s) else s
  }

  /** Pressing a menu button closes the drawer on mobile and leaves the desktop flag alone. */
  function PressMenuButton(s: Store): (t: Store)
    ensures s.isMobile ==> !t.openMobile
    ensures s.isMobile ==> t == s.(openMobile := false)
    ensures !s.isMobile ==> t == s
    ensures t.Open() == s.Open() && t.cookie == s.cookie && t.delivered == s.delivered
  {
    if s.isMobile then s.(openMobile := false) else s
  }

  /**
   * `setOpenMobile(open)`: the drawer's `onOpenChange`, also offered to every consumer of the
   * context, so it can be called on desktop too.
   */
  function DrawerOpenChange(s: Store, open: bool): (t: Store)
    ensures t.openMobile == open
    ensures t.Open() == s.Open() && t.cookie == s.cookie && t.delivered == s.delivered
    ensures t.isMobile == s.isMobile && t.internalOpen == s.internalOpen
    ensures t.openProp == s.openProp && t.hasHandler == s.hasHandler
  {
    s.(openMobile := open)
  }

  /** A re-render with new props or a new hook value; `useState` keeps the internal flags. */
  function Rerender(s: Store, openProp: Option<bool>, hasHandler: bool, isMobile: bool): (t: Store)
    ensures t.openMobile == s.openMobile && t.internalOpen == s.internalOpen
    ensures t.delivered == s.delivered && t.cookie == s.cookie
    ensures t.openProp == openProp && t.hasHandler == hasHandler && t.isMobile == isMobile
  {
    s.(openProp := openProp, hasHandler := hasHandler, isMobile := isMobile)
  }

  /** The events that reach the provider. */
  datatype Event =
    | SetOpenCall(arg: SetOpenArg)
    | Toggle
    | Key(e: KeyEvent)
    | MenuPress
    | DrawerChange(open: bool)
    | NewProps(openProp: Option<bool>, hasHandler: bool, isMobile: bool)

  function Step(s: Store, ev: Event): Store
  {
    match ev
    case SetOpenCall(arg) => SetOpen(s, arg)
    case Toggle => ToggleSidebar(s)
    case Key(e) => HandleKeyDown(s, e)
    case MenuPress => PressMenuButton(s)
    case DrawerChange(open) => DrawerOpenChange(s, open)
    case NewProps(p, h, m) => Rerender(s, p, h, m)
  }

  /** The events handled one after another, first event first. */
  function Run(s: Store, evs: seq<Event>): Store
    decreases |evs|
  {
    if evs == [] then s else Run(Step(s, evs[0]), evs[1..])
  }

  /** `n` consecutive toggles. */
  function Toggles(s: Store, n: nat): Store
    decreases n
  {
    if n == 0 then s else Toggles(ToggleSidebar(s), n - 1)
  }

  function Odd(n: nat): bool
  {
    n % 2 == 1
  }

  // ---- Toggle parity and axis independence ----

  /** Desktop, uncontrolled: two toggles restore the flag; only the cookie has been rewritten. */
  lemma ToggleTwiceRestores(s: Store)
    requires !s.isMobile && Uncontrolled(s)
    ensures ToggleSidebar(ToggleSidebar(s)) == s.(cookie := Some(CookieText(s.Open())))
  {
  }

  /**
   * Desktop, uncontrolled: after `n` toggles the flag is the initial flag flipped `n` times,
   * the drawer flag is untouched, and (when `n > 0`) the cookie records the new flag.
   */
  lemma {:induction false} TogglesParityDesktop(s: Store, n: nat)
    requires !s.isMobile && Uncontrolled(s)
    ensures Toggles(s, n).Open() == (s.Open() != Odd(n))
    ensures Toggles(s, n).openMobile == s.openMobile
    ensures Uncontrolled(Toggles(s, n)) && !Toggles(s, n).isMobile
    ensures n > 0 ==> Toggles(s, n).cookie == Some(CookieText(Toggles(s, n).Open()))
    decreases n
  {
    if n > 0 {
      TogglesParityDesktop(ToggleSidebar(s), n - 1);
      if n == 1 {
        assert Toggles(s, n) == ToggleSidebar(s);
      }
    }
  }

  /** Mobile: `n` toggles flip only the drawer flag, `n` times; desktop flag and cookie stay. */
  lemma {:induction false} TogglesParityMobile(s: Store, n: nat)
    requires s.isMobile
    ensures Toggles(s, n) == s.(openMobile := s.openMobile != Odd(n))
    decreases n
  {
    if n > 0 {
      TogglesParityMobile(ToggleSidebar(s), n - 1);
    }
  }

  /** Desktop, `open` prop set and no handler: toggles never change the effective flag. */
  lemma {:induction false} TogglesControlledFrozen(s: Store, n: nat)
    requires !s.isMobile && s.openProp.Some? && !s.hasHandler
    ensures Toggles(s, n).Open() == s.Open()
    ensures Toggles(s, n).openProp == s.openProp && Toggles(s, n).openMobile == s.openMobile
    ensures n > 0 ==> Toggles(s, n).internalOpen == !s.Open()
    decreases n
  {
    if n > 0 {
      TogglesControlledFrozen(ToggleSidebar(s), n - 1);
    }
  }

  function Repeat(b: bool, n: nat): (r: seq<bool>)
    ensures |r| == n && forall i :: 0 <= i < n ==> r[i] == b
    decreases n
  {
    if n == 0 then [] else [b] + Repeat(b, n - 1)
  }

  /**
   * Desktop with a handler whose parent never feeds the value back: every toggle hands the
   * handler the same `!open`, and the internal flag is never written.
   */
  lemma {:induction false} TogglesReportToHandler(s: Store, n: nat)
    requires !s.isMobile && s.hasHandler
    ensures Toggles(s, n).delivered == s.delivered + Repeat(!s.Open(), n)
    ensures Toggles(s, n).Open() == s.Open() && Toggles(s, n).internalOpen == s.internalOpen
    decreases n
  {
    if n > 0 {
      var t := ToggleSidebar(s);
      assert t.delivered == s.delivered + [!s.Open()];
      assert t.Open() == s.Open() && t.internalOpen == s.internalOpen;
      TogglesReportToHandler(t, n - 1);
      var rest := Repeat(!s.Open(), n - 1);
      assert Repeat(!s.Open(), n) == [!s.Open()] + rest;
      assert (s.delivered + [!s.Open()]) + rest == s.delivered + ([!s.Open()] + rest);
    }
  }

  /** With a handler but no `open` prop the cookie flips while the displayed flag does not. */
  lemma HandlerWithoutOpenPropDesyncs(s: Store)
    requires !s.isMobile && s.openProp.None? && s.hasHandler
    ensures ToggleSidebar(s).Open() == s.Open()
    ensures !CookieInSync(ToggleSidebar(s))
  {
  }

  /**
   * With a handler but no `open` prop the displayed flag never moves, so every desktop toggle
   * writes the same cookie: it records the negated flag from the first toggle on.
   */
  lemma {:induction false} HandlerWithoutOpenPropCookieSettles(s: Store, n: nat)
    requires !s.isMobile && s.openProp.None? && s.hasHandler
    requires n > 0
    ensures Toggles(s, n).Open() == s.Open()
    ensures Toggles(s, n).cookie == Some(CookieText(!s.Open()))
    decreases n
  {
    var t := ToggleSidebar(s);
    if n > 1 {
      HandlerWithoutOpenPropCookieSettles(t, n - 1);
    }
  }

  // ---- The keyboard shortcut ----

  function RunKeys(s: Store, keys: seq<KeyEvent>): Store
    decreases |keys|
  {
    if keys == [] then s else RunKeys(HandleKeyDown(s, keys[0]), keys[1..])
  }

  function CountShortcuts(keys: seq<KeyEvent>): (n: nat)
    ensures n <= |keys|
    decreases |keys|
  {
    if keys == [] then 0
    else (if IsToggleShortcut(keys[0]) then 1 else 0) + CountShortcuts(keys[1..])
  }

  /** A run of key events acts exactly like as many toggles as it holds shortcuts. */
  lemma {:induction false} KeysAreToggles(s: Store, keys: seq<KeyEvent>)
    ensures RunKeys(s, keys) == Toggles(s, CountShortcuts(keys))
    decreases |keys|
  {
    if keys != [] {
      KeysAreToggles(HandleKeyDown(s, keys[0]), keys[1..]);
    }
  }

  /** Desktop, uncontrolled: the shortcut pressed twice leaves the flag where it was. */
  lemma ShortcutTwiceRestores(s: Store, e1: KeyEvent, e2: KeyEvent)
    requires !s.isMobile && Uncontrolled(s)
    requires IsToggleShortcut(e1) && IsToggleShortcut(e2)
    ensures RunKeys(s, [e1, e2]).Open() == s.Open()
    ensures RunKeys(s, [e1, e2]).openMobile == s.openMobile
  {
    KeysAreToggles(s, [e1, e2]);
    assert CountShortcuts([e1, e2]) == 2;
    TogglesParityDesktop(s, 2);
  }

  // ---- Invariants over arbitrary event runs ----

  predicate StaysUncontrolled(ev: Event)
  {
    ev.NewProps? ==> ev.openProp.None? && !ev.hasHandler
  }

  /** One step of an uncontrolled provider keeps the cookie in agreement with the flag. */
  lemma StepKeepsCookieInSync(s: Store, ev: Event)
    requires Uncontrolled(s) && CookieInSync(s) && StaysUncontrolled(ev)
    ensures Uncontrolled(Step(s, ev)) && CookieInSync(Step(s, ev))
  {
  }

  /** While the provider stays uncontrolled, the cookie never disagrees with the flag. */
  lemma {:induction false} RunKeepsCookieInSync(s: Store, evs: seq<Event>)
    requires Uncontrolled(s) && CookieInSync(s)
    requires forall i :: 0 <= i < |evs| ==> StaysUncontrolled(evs[i])
    ensures Uncontrolled(Run(s, evs)) && CookieInSync(Run(s, evs))
    decreases |evs|
  {
    if evs != [] {
      StepKeepsCookieInSync(s, evs[0]);
      RunKeepsCookieInSync(Step(s, evs[0]), evs[1..]);
    }
  }

  /** Events that can only touch the drawer axis while the layout is mobile. */
  predicate MobileOnly(ev: Event)
  {
    ev.Toggle? || ev.Key? || ev.MenuPress? || ev.DrawerChange?
  }

  /** Mobile: toggles, keys, menu presses and drawer changes never touch the desktop axis. */
  lemma {:induction false} MobileRunKeepsDesktop(s: Store, evs: seq<Event>)
    requires s.isMobile
    requires forall i :: 0 <= i < |evs| ==> MobileOnly(evs[i])
    ensures Run(s, evs).isMobile
    ensures Run(s, evs).Open() == s.Open() && Run(s, evs).internalOpen == s.internalOpen
    ensures Run(s, evs).cookie == s.cookie && Run(s, evs).delivered == s.delivered
    decreases |evs|
  {
    if evs != [] {
      var t := Step(s, evs[0]);
      assert t.isMobile && t.Open() == s.Open() && t.internalOpen == s.internalOpen;
      assert t.cookie == s.cookie && t.delivered == s.delivered;
      MobileRunKeepsDesktop(t, evs[1..]);
    }
  }

  /** Events that can only touch the desktop axis while the layout is not mobile. */
  predicate DesktopOnly(ev: Event)
  {
    ev.SetOpenCall? || ev.Toggle? || ev.Key? || ev.MenuPress?
  }

  /** Desktop: `setOpen`, toggles, keys and menu presses never touch the drawer flag. */
  lemma {:induction false} DesktopRunKeepsDrawer(s: Store, evs: seq<Event>)
    requires !s.isMobile
    requires forall i :: 0 <= i < |evs| ==> DesktopOnly(evs[i])
    ensures !Run(s, evs).isMobile && Run(s, evs).openMobile == s.openMobile
    decreases |evs|
  {
    if evs != [] {
      var t := Step(s, evs[0]);
      assert !t.isMobile && t.openMobile == s.openMobile;
      DesktopRunKeepsDrawer(t, evs[1..]);
    }
  }

  // ---- Provisioning guard ----

  const UsageError: string := "useSidebar must be used within a SidebarProvider."

  /** `useSidebar()`: the provided context, or the usage error outside any provider. */
  function UseSidebar(context: Option<Store>): (r: Result<Store, string>)
    ensures r.Success? <==> context.Some?
    ensures r.Success? ==> r.value == context.value
    ensures r.Failure? ==> r.error == UsageError
  {
    match context
    case Some(c) => Success(c)
    case None => Failure(UsageError)
  }
}
