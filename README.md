# Sidebar view state

This project models the view state of a collapsible sidebar in a browser UI. `SidebarProvider` holds two flags:

- the desktop open flag. Internally it is `_open`, seeded from `defaultOpen`. A controlled `open` prop can override it, and an `onOpenChange` handler can receive its changes.
- the mobile drawer flag `openMobile`.

The provider offers `setOpen` and `toggleSidebar`, a global keyboard shortcut, and the handlers of the trigger, the rail, the menu buttons and the mobile drawer. The `Sidebar` component picks one of three renderings from the collapsible mode, the responsive signal and the state. A menu button decides whether to wrap itself in a tooltip.

Modules:

- `Cookie` (cookie.dfy): the exact cookie string `sidebar_state=<true|false>; path=/; max-age=604800`. This includes how the max-age number is rendered in decimal.
- `ViewState` (view_state.dfy): the provider's state as a value (`Store`), one function per transition, and the lemmas about runs of transitions. The lemmas cover toggle parity, independence of the two axes, controlled mode, the keyboard shortcut and the cookie staying in agreement with the flag.
- `Render` (render.dfy): the `Sidebar` branch selection, the `data-collapsible` attribute and the menu-button tooltip decision.
- `Provider` (provider.dfy): the class `SidebarProvider`. Its fields are the provider's state slots, its props and the cookie. Each method changes these in place and ensures `Snapshot() == ViewState.<transition>(old(Snapshot()))`, so the `ViewState` lemmas apply to it.
- `Wrappers` (wrappers.dfy): `Option` and `Result`.

Inputs the provider does not compute:

- `isMobile`, the answer of the responsive hook.
- The props `open`, `onOpenChange` and `defaultOpen`.

They are constructor and `Rerender` parameters. `onOpenChange` is modelled by whether it is present and by the list of values it has been handed (`delivered`). `document.cookie` is modelled as the last string the provider assigned to it.

Behaviour of the code that the model keeps:

- The cookie is only written. The initial desktop flag comes from `defaultOpen` alone, which defaults to `true`.
- `collapsible = none` only changes the rendering. Toggles still change the provider's flags and still write the cookie.
- With an `open` prop and no handler, `setOpen` writes `_open` and the cookie, but the displayed flag stays the prop. With a handler and no `open` prop, the displayed flag never changes. The cookie is written once for the negated flag and then stays there.
- The drawer's `onOpenChange` sets `openMobile` to whatever value the drawer reports.
- A `tooltip` of `""` is falsy, so the button renders bare.
- The shortcut key comparison is case-sensitive (`b` only).

## Model

| member | source | states |
|---|---|---|
| `Cookie.DecimalText` | src/components/sidebar.tsx:90 | a number below 10^21 interpolated into the cookie is rendered as a non-empty string of decimal digits with no leading zero |
| `Cookie.DecimalRoundTrip` | src/components/sidebar.tsx:90 | the decimal digits written for a number below 10^21 denote that number again |
| `Cookie.MaxAgeText` | src/components/sidebar.tsx:27 | the max-age constant `60 * 60 * 24 * 7` is 604800 and is written as `604800` |
| `Cookie.CookieText` | src/components/sidebar.tsx:90 | built at line 90 from the constants of lines 26-27, the cookie string is exactly `sidebar_state=<true or false>; path=/; max-age=604800` |
| `Cookie.BoolText` | src/components/sidebar.tsx:90 | the flag is written into the cookie as `true` when set and `false` when not |
| `Cookie.CookieTextDetermines` | src/components/sidebar.tsx:90 | two cookie strings are equal exactly when they record the same flag |
| `ViewState.Store.Open` | src/components/sidebar.tsx:78 | the effective desktop flag `openProp ?? _open`: the `open` prop whenever it is defined, otherwise the internal flag |
| `ViewState.Resolve` | src/components/sidebar.tsx:81 | a plain value is taken as it is; an updater is applied to the current effective flag; the negating updater gives the negated flag |
| `ViewState.StateOf` | src/components/sidebar.tsx:116 | `state` is `expanded` exactly when the effective flag is open, `collapsed` exactly when it is not |
| `ViewState.Init` | src/components/sidebar.tsx:59-78 | on first render `_open` is `defaultOpen` (true when omitted), the drawer is closed, no cookie is written and no handler call is made; uncontrolled, the state is `expanded` exactly when `defaultOpen` is not false |
| `ViewState.SetOpen` | src/components/sidebar.tsx:79-93 | the value or updater is resolved against the effective flag; the result goes to `onOpenChange` (internal flag unchanged) when one is given, otherwise to `_open`; the cookie records the result in both cases; the effective flag becomes the result only when uncontrolled and is otherwise unchanged; the drawer flag is unchanged |
| `ViewState.ToggleSidebar` | src/components/sidebar.tsx:96-98 | on mobile only `openMobile` flips, and the desktop flag and the cookie are unchanged; on desktop it is exactly `setOpen(open => !open)`: the drawer flag is unchanged, the cookie records the negated effective flag, the negated flag goes to `onOpenChange` when one is given and otherwise to `_open` (so under an `open` prop with no handler `_open` becomes the negated prop), and the effective flag flips exactly when uncontrolled |
| `ViewState.IsToggleShortcut` | src/components/sidebar.tsx:103 | the shortcut fires only for key `b` (the constant of line 31), never without Meta or Control, and always for `b` with Meta or with Control |
| `ViewState.HandleKeyDown` | src/components/sidebar.tsx:102-107 | the shortcut toggles the sidebar; any other key event leaves the whole state unchanged |
| `ViewState.PressMenuButton` | src/components/sidebar.tsx:529-532 | pressing a menu button on mobile changes only `openMobile`, to false; on desktop it changes nothing at all |
| `ViewState.DrawerOpenChange` | src/components/sidebar.tsx:185 | `setOpenMobile`, which the drawer's change handler is and which the context also offers on desktop, sets `openMobile` to the given value and leaves `_open`, the props, the responsive value, the handler record and the cookie unchanged |
| `ViewState.Rerender` | src/components/sidebar.tsx:59-78 | a re-render with new props or a new responsive value keeps both `useState` slots and the cookie |
| `ViewState.ToggleTwiceRestores` | src/components/sidebar.tsx:79-98 | desktop, uncontrolled: two toggles give back the original state except for the cookie, which records the original flag |
| `ViewState.TogglesParityDesktop` | src/components/sidebar.tsx:79-98 | desktop, uncontrolled: after n toggles the flag is the original XOR the parity of n, the drawer flag is unchanged, and after at least one toggle the cookie records the current flag |
| `ViewState.TogglesParityMobile` | src/components/sidebar.tsx:96-98 | mobile: n toggles flip `openMobile` by the parity of n and change nothing else |
| `ViewState.TogglesControlledFrozen` | src/components/sidebar.tsx:78-87 | desktop, `open` prop set and no handler: no number of toggles changes the effective flag or the drawer, while `_open` holds the negated prop |
| `ViewState.TogglesReportToHandler` | src/components/sidebar.tsx:83-84 | desktop with `onOpenChange`: n toggles hand the handler n copies of the negated flag and never write `_open` |
| `ViewState.HandlerWithoutOpenPropDesyncs` | src/components/sidebar.tsx:78-90 | a handler without an `open` prop: a desktop toggle keeps the displayed flag but leaves a cookie that disagrees with it |
| `ViewState.HandlerWithoutOpenPropCookieSettles` | src/components/sidebar.tsx:78-90 | a handler without an `open` prop: after any positive number of desktop toggles the displayed flag is the original one and the cookie records its negation |
| `ViewState.KeysAreToggles` | src/components/sidebar.tsx:102-107 | any run of key events acts exactly as many toggles as there are shortcut events in it |
| `ViewState.ShortcutTwiceRestores` | src/components/sidebar.tsx:102-107 | desktop, uncontrolled: the shortcut pressed twice restores the flag and leaves the drawer flag alone |
| `ViewState.StepKeepsCookieInSync` | src/components/sidebar.tsx:79-98 | one transition of an uncontrolled provider keeps a written cookie in agreement with the effective flag |
| `ViewState.RunKeepsCookieInSync` | src/components/sidebar.tsx:79-98 | while the provider stays uncontrolled, no sequence of transitions leaves the cookie disagreeing with the effective flag |
| `ViewState.MobileRunKeepsDesktop` | src/components/sidebar.tsx:96-98 | on mobile, no sequence of toggles, key events, menu presses and drawer changes touches the desktop flag, `_open`, the handler or the cookie |
| `ViewState.DesktopRunKeepsDrawer` | src/components/sidebar.tsx:79-98 | on desktop, no sequence of `setOpen` calls, toggles, key events and menu presses touches `openMobile` |
| `ViewState.UseSidebar` | src/components/sidebar.tsx:47-55 | `useSidebar` returns the context exactly when a provider supplies one, and otherwise fails with the usage error message |
| `Render.CollapsibleOrDefault` | src/components/sidebar.tsx:157 | an omitted `collapsible` prop means `offcanvas` |
| `Render.DataCollapsible` | src/components/sidebar.tsx:207 | `data-collapsible` is empty exactly when expanded, and is the collapsible mode when collapsed |
| `Render.DataCollapsibleDistinguishes` | src/components/sidebar.tsx:207 | a collapsed desktop panel's attribute tells `offcanvas` and `icon` apart (`none` never reaches this line) |
| `Render.RenderSidebar` | src/components/sidebar.tsx:170-207 | `none` gives the plain panel and nothing else does; otherwise mobile gives the drawer bound to `openMobile`, and desktop gives the panel carrying `data-state` and `data-collapsible` |
| `Render.NoCollapseIgnoresToggles` | src/components/sidebar.tsx:170-180 | with `collapsible = none` the rendering is the plain panel after any number of toggles |
| `Render.DesktopRenderAfterToggles` | src/components/sidebar.tsx:204-213 | desktop, uncontrolled: after n toggles the panel's `data-state` and `data-collapsible` follow the parity of n |
| `Render.IconScenario` | src/components/sidebar.tsx:204-210 | default provider, desktop, `icon`: one toggle collapses to `data-collapsible="icon"` and writes the cookie for `false`, which `CookieText` fixes as `sidebar_state=false; path=/; max-age=604800` |
| `Render.DrawerScenario` | src/components/sidebar.tsx:182-185 | mobile: a toggle opens the drawer, and the drawer reporting it is closed closes it |
| `Render.NoTooltip` | src/components/sidebar.tsx:537 | `!tooltip` holds for an absent tooltip and for the empty string, never for a props object |
| `Render.MenuButtonTooltip` | src/components/sidebar.tsx:537-549 | the button is bare exactly when the tooltip is absent or empty; a tooltip is enabled exactly when collapsed and not mobile; its content is the string, or the props' `content`, falling back to the children |
| `Render.TooltipOnlyWhenCollapsedDesktop` | src/components/sidebar.tsx:549 | an enabled tooltip implies a collapsed desktop sidebar, whose panel for any collapsing mode carries `data-state="collapsed"` and that mode as `data-collapsible` |
| `Provider.SidebarProvider.constructor` | src/components/sidebar.tsx:72-78 | a new provider is in the state `Init` describes |
| `Provider.SidebarProvider.SetOpen` | src/components/sidebar.tsx:79-93 | updates the fields in place exactly as `ViewState.SetOpen`, and writes the cookie for the resolved value |
| `Provider.SidebarProvider.ToggleSidebar` | src/components/sidebar.tsx:96-98 | updates the fields in place exactly as `ViewState.ToggleSidebar`: flips only `openMobile` on mobile, and on desktop goes through `SetOpen` with the negating updater |
| `Provider.SidebarProvider.HandleKeyDown` | src/components/sidebar.tsx:102-107 | calls `preventDefault` exactly for the shortcut and then toggles; any other key leaves every field unchanged |
| `Provider.SidebarProvider.PressTrigger` | src/components/sidebar.tsx:265-268 | the trigger's press performs a toggle |
| `Provider.SidebarProvider.ClickRail` | src/components/sidebar.tsx:297 | the rail's click performs a toggle |
| `Provider.SidebarProvider.PressMenuButton` | src/components/sidebar.tsx:529-532 | closes the drawer on mobile, and changes nothing on desktop |
| `Provider.SidebarProvider.DrawerOpenChange` | src/components/sidebar.tsx:185 | sets `openMobile` to the drawer's reported value |
| `Provider.SidebarProvider.Rerender` | src/components/sidebar.tsx:59-78 | replaces the props and the responsive value and keeps the state slots |

## Left out

- `Cookie.DecimalText`: JavaScript writes numbers from 10^21 up in exponent form and cannot represent most integers above 2^53. Neither is modelled: the printer is stated only below 10^21, and the cookie only ever carries 604800.

- Styling is left out: class strings, CSS variables, widths, `side` and `variant`. The desktop rendering carries only its `data-state` and `data-collapsible` attributes, which are what the width rules select on.
- The internals of the UI library (`Drawer`, `Tooltip`, `Button`, `Link`, `Input`) are left out. The drawer is represented by its open flag and its change callback.
- The responsive hook is not part of this model. `isMobile` is an input.
- The registration and removal of the `keydown` listener, memoisation, and React's batching of state updates are left out. Transitions are applied one at a time, each seeing the result of the previous one. Two `setOpen` calls in one batch that both read the same stale `open` are not modelled.
- The user's own `onPress` callbacks on the trigger and on menu buttons run before the toggle or close, and they are not modelled.
- `SidebarMenuSkeleton`'s width uses floating-point randomness, so it is left out.
- Reading the cookie back on a later page load is left out: the code never reads it.
- Tooltip content and button children are plain strings here rather than arbitrary React nodes.
- Prop spreads that come after the modelled values are left out. A props-object tooltip is spread after the computed `content` and `isDisabled`, so its own values override them. The rule "enabled exactly when collapsed and not mobile" therefore holds only for string tooltips and for props without `isDisabled` or `content`. Likewise, a caller's extra props can replace the drawer's `isOpen`/`onOpenChange`, the panel's `data-state`/`data-collapsible`, and the rail's `onClick`. The model assumes no caller passes them.
- The remaining components in src/components/sidebar.tsx are plain markup without state logic: the inset, input, header, footer, separator, content, group, menu, badge and sub-menu components.
- src/components/navigation.tsx, src/layouts/default.tsx and src/main.tsx are not part of this model. They are markup and application bootstrapping.
