/**
 * `SidebarProvider` as an object whose fields hold its `useState` slots, its current props
 * and the cookie it writes. Each method performs one provider transition in place and is
 * proved to agree with the corresponding function of ViewState, where the properties of
 * the transitions (toggle parity, independence of the axes, the cookie format) are proved.
 */
module Provider {
  import opened Wrappers
  import opened Cookie
  import opened ViewState

  class SidebarProvider {
    /** The responsive hook's answer; an input to the provider. */
    var isMobile: bool
    /** `openMobile`, the drawer flag. */
    var openMobile: bool
    /** `_open`, the uncontrolled desktop flag. */
    var internalOpen: bool
    /** The controlled `open` prop; None when undefined. */
    var openProp: Option<bool>
    /** Whether an `onOpenChange` prop is supplied. */
    var hasHandler: bool
    /** The values passed to `onOpenChange` so far. */
    var delivered: seq<bool>
    /** The last string this provider assigned to `document.cookie`. */
    var cookie: Option<string>

    /** The provider's state as a value. */
    function Snapshot(): Store
      reads this
    {
      Store(isMobile, openMobile, internalOpen, openProp, hasHandler, delivered, cookie)
    }

    /** First render: `useState(false)` for the drawer, `useState(defaultOpen)` for `_open`. */
    constructor (defaultOpen: Option<bool>, openProp: Option<bool>, hasHandler: bool, isMobile: bool)
      ensures Snapshot() == Init(defaultOpen, openProp, hasHandler, isMobile)
    {
      this.isMobile := isMobile;
      this.openMobile := false;
      this.internalOpen := match defaultOpen case Some(b) => b case None => true;
      this.openProp := openProp;
      this.hasHandler := hasHandler;
      this.delivered := [];
      this.cookie := None;
    }

    /** `setOpen(value)`. */
    method SetOpen(arg: SetOpenArg)
      modifies this
      ensures Snapshot() == ViewState.SetOpen(old(Snapshot()), arg)
      ensures cookie == Some(CookieText(Resolve(arg, old(Snapshot().Open()))))
      ensures openMobile == old(openMobile) && isMobile == old(isMobile)
    {
      var open := if openProp.Some? then openProp.value else internalOpen;
      var openState;
      match arg {
        case Value(v) => openState := v;
        case Updater(f) => openState := f(open);
      }
      if hasHandler {
        delivered := delivered + [openState];
      } else {
        internalOpen := openState;
      }
      cookie := Some(CookieText(openState));
    }

    /** `toggleSidebar()`. */
    method ToggleSidebar()
      modifies this
      ensures Snapshot() == ViewState.ToggleSidebar(old(Snapshot()))
      ensures old(isMobile) ==> openMobile == !old(openMobile) && Snapshot().Open() == old(Snapshot().Open())
      ensures old(isMobile) ==> cookie == old(cookie)
      ensures !old(isMobile) ==> openMobile == old(openMobile) && cookie == Some(CookieText(!old(Snapshot().Open())))
    {
      if isMobile {
        openMobile := !openMobile;
      } else {
        SetOpen(Updater(Not));
      }
    }

    /** The window `keydown` listener; `prevented` says whether it called `preventDefault`. */
    method HandleKeyDown(e: KeyEvent) returns (prevented: bool)
      modifies this
      ensures prevented == IsToggleShortcut(e)
      ensures Snapshot() == ViewState.HandleKeyDown(old(Snapshot()), e)
      ensures !prevented ==> Snapshot() == old(Snapshot())
    {
      prevented := false;
      if e.key == ShortcutKey && (e.metaKey || e.ctrlKey) {
        prevented := true;
        ToggleSidebar();
      }
    }

    /** `SidebarTrigger`'s press handler. */
    method PressTrigger()
      modifies this
      ensures Snapshot() == ViewState.ToggleSidebar(old(Snapshot()))
    {
      ToggleSidebar();
    }

    /** `SidebarRail`'s click handler. */
    method ClickRail()
      modifies this
      ensures Snapshot() == ViewState.ToggleSidebar(old(Snapshot()))
    {
      ToggleSidebar();
    }

    /** `SidebarMenuButton`'s press handler: `isMobile && setOpenMobile(false)`. */
    method PressMenuButton()
      modifies this
      ensures Snapshot() == ViewState.PressMenuButton(old(Snapshot()))
      ensures old(isMobile) ==> !openMobile
      ensures !old(isMobile) ==> Snapshot() == old(Snapshot())
    {
      if isMobile {
        openMobile := false;
      }
    }

    /** The mobile drawer's `onOpenChange`, which is `setOpenMobile`. */
    method DrawerOpenChange(open: bool)
      modifies this
      ensures Snapshot() == ViewState.DrawerOpenChange(old(Snapshot()), open)
      ensures openMobile == open
    {
      openMobile := open;
    }

    /** A re-render with new props or a new responsive value. */
    method Rerender(openProp: Option<bool>, hasHandler: bool, isMobile: bool)
      modifies this
      ensures Snapshot() == ViewState.Rerender(old(Snapshot()), openProp, hasHandler, isMobile)
    {
      this.openProp := openProp;
      this.hasHandler := hasHandler;
      this.isMobile := isMobile;
    }
  }
}
