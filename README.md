# ModernPortfolio behaviour model

A Dafny model of the behaviour behind Jordan Hymas's portfolio site, a
Next.js application. It covers the parts of the site that decide things;
the styling and animation are left out. The parts modelled are:

- the simulated macOS desktop on the projects page:
  - the icon layout, computed around the viewport centre;
  - the window manager, which opens, raises, focuses and closes windows
    using a growing z-index counter;
  - an icon's click-versus-drag gesture;
  - the dock's click handling and hide/show stagger;
  - the trash-can easter-egg state machine with its timeouts;
  - the project details panel, which looks up a project's content by
    title.
- the site-wide slide-in menu: when it is hidden, which link is
  highlighted on opening, and its keyboard handling.
- the keyword routing of the question prompts, on the landing page and in
  the navigation prompt.
- the mobile project carousel: card order, index clamping, card code and
  fallbacks, and the detail sheet's delayed content.
- the skill tiles: initials, the hex colour brightness shift, and the
  ripple grid cell.
- the Windows layout-density hook.
- the light/dark theme switch: its lock, its two forms and its geometry.

The desktop (`MacOSDesktop.Desktop`), the trash hook
(`TrashInteraction.TrashHook`), the site menu (`SiteNav.SiteNavMenu`), the
mobile carousel (`MobileProjects.Carousel`) and the icon drag gesture
(`DesktopIcon.IconGesture`) are each modelled twice. One model is a pure step
function over a state datatype. The other is a class whose methods update
fields in place and promise `Snapshot() == Step(old(Snapshot()), …)`. The
properties are proved as lemmas over the step functions. The theme switch
(`ThemeToggle.ThemeSwitch`) has no step function: its methods state their new
fields directly. The other source files become functions, with lemmas
relating them.

Timers, the clock, the viewport, the user agent and the theme provider are
all inputs:

- a live `setTimeout` is an explicit pending value, and an explicit `Fire`
  step runs it;
- `router.push`, `window.open` and `setTheme` become returned values.

| file | models |
|---|---|
| `wrappers.dfy`, `text.dfy` | `Option`; ASCII case mapping, `trim`, `includes`, `startsWith`, `String(n)` |
| `desktop_types.dfy` | the desktop's records (`types.ts`) |
| `desktop_constants.dfy` | `constants.ts` |
| `trash_interaction.dfy` | `useTrashInteraction.ts` |
| `project_data.dfy` | `Data.tsx` (content table, export table, `ProjectContent`) |
| `macos_desktop.dfy` | `MacOSDesktop.tsx` |
| `desktop_dock.dfy` | `DesktopDock.tsx` |
| `desktop_icon.dfy` | `DesktopIcon.tsx` |
| `viewport_density.dfy` | `useWindowsViewportDensity.ts` |
| `skill_icon.dfy` | `SkillIcon.tsx` |
| `site_nav.dfy` | `site-nav.tsx` |
| `mobile_projects.dfy` | `mobile-projects-layout.tsx` |
| `navigation_prompt.dfy` | `navigation-prompt.tsx` |
| `home_page.dfy` | `app/page.tsx` |
| `theme_toggle.dfy` | `theme-toggle.tsx` |

## Model

| member | source | states |
|---|---|---|
| Text.Lower | src/components/navigation-prompt.tsx:66 | lower-casing keeps the length and maps each character through the ASCII lower-case map |
| Text.TrimStart | src/components/navigation-prompt.tsx:66 | the result is a suffix, starts with a non-whitespace character or is empty, and only whitespace was removed |
| Text.TrimEnd | src/components/navigation-prompt.tsx:66 | the result is a prefix, ends with a non-whitespace character or is empty, and only whitespace was removed |
| Text.TrimLower | src/components/navigation-prompt.tsx:66 | trimming and lower-casing commute |
| Text.ContainsAppend | src/components/navigation-prompt.tsx:69-84 | a string that includes a word still includes it with more text appended |
| Text.Upper | src/components/skills/SkillIcon.tsx:116-118 | upper-casing keeps the length and maps each character through the ASCII upper-case map |
| Text.Decimal | src/components/projects/mobile-projects-layout.tsx:265 | `String(n)` has at least one digit |
| DesktopConstants.CalculateIconPositions | src/components/projects/macos-desktop/constants.ts:38-53 | one icon per configuration, in table order |
| DesktopConstants.CalculateIconPositionsSpec | src/components/projects/macos-desktop/constants.ts:38-53 | each computed icon copies its configuration's id, title, image, size and project index, and sits at the viewport centre plus the configured offset |
| DesktopConstants.RelativeLayoutFixed | src/components/projects/macos-desktop/constants.ts:25-53 | the displacement between two icons is the same for every viewport |
| DesktopConstants.WideningShiftsRight | src/components/projects/macos-desktop/constants.ts:38-53 | widening the viewport by d moves every icon right by d/2 and leaves its height alone |
| DesktopConstants.InitialIconsAtReference | src/components/projects/macos-desktop/constants.ts:15-23 | the fallback layout is the 1200x800 one: 'synto' lands at (312, 108) and 'oldportfolio' at (858, 540) |
| DesktopConstants.IconConfigsWellFormed | src/components/projects/macos-desktop/constants.ts:25-35 | icon ids are distinct and each icon's project index is its row number |
| DesktopConstants.DockIconsWellFormed | src/components/projects/macos-desktop/constants.ts:62-70 | dock ids are distinct and the trash is the last entry and the only one |
| TrashInteraction.InitialValid | src/components/projects/macos-desktop/useTrashInteraction.ts:5-7 | the hook starts idle, with the desktop shown and no timeout live, satisfying the invariant |
| TrashInteraction.PendingIffTimedState | src/components/projects/macos-desktop/useTrashInteraction.ts:35-69 | under the invariant, a timeout is live exactly in emptying, restoring and deletedTemp, and at most one ref holds one |
| TrashInteraction.StepPreservesValid | src/components/projects/macos-desktop/useTrashInteraction.ts:25-69 | every handler and every timeout keeps the invariant: the live timeout is exactly the one the state waits for |
| TrashInteraction.RunPreservesValid | src/components/projects/macos-desktop/useTrashInteraction.ts:25-69 | any sequence of handler calls and timeouts keeps the invariant |
| TrashInteraction.ReachableValid | src/components/projects/macos-desktop/useTrashInteraction.ts:5-69 | every state reached from mount satisfies the invariant |
| TrashInteraction.TriggerTrashSpec | src/components/projects/macos-desktop/useTrashInteraction.ts:25-28 | triggerTrash moves idle to confirmEmpty and leaves every other state unchanged |
| TrashInteraction.CancelEmptySpec | src/components/projects/macos-desktop/useTrashInteraction.ts:30-33 | cancelEmpty moves confirmEmpty to idle with nothing scheduled; in every other state it is a no-op |
| TrashInteraction.ConfirmEmptySpec | src/components/projects/macos-desktop/useTrashInteraction.ts:35-44 | confirmEmpty clears the timers, enters emptying with one 1450 ms timeout, and the timeout leads to confirmDelete |
| TrashInteraction.RestoreFromConfirmSpec | src/components/projects/macos-desktop/useTrashInteraction.ts:46-54 | restoreFromConfirm enters restoring with one 1200 ms timeout, which leads back to idle |
| TrashInteraction.ConfirmDeleteSpec | src/components/projects/macos-desktop/useTrashInteraction.ts:56-69 | confirmDelete enters deletedTemp for 5000 ms, then restoring with a second 1200 ms timeout, then idle |
| TrashInteraction.DerivedFlags | src/components/projects/macos-desktop/useTrashInteraction.ts:23-71 | the desktop is visible exactly in idle and confirmEmpty; the trash is disabled exactly while emptying or restoring, and never while the desktop is visible |
| TrashInteraction.TimedStatesIgnoreUsers | src/components/projects/macos-desktop/useTrashInteraction.ts:25-69 | while a timeout is live, every user handler is a no-op |
| TrashInteraction.UserActionsFreezeTimedState | src/components/projects/macos-desktop/useTrashInteraction.ts:25-69 | while a timeout is live, any run of user actions changes nothing |
| TrashInteraction.FullSequence | src/components/projects/macos-desktop/useTrashInteraction.ts:25-69 | trash, confirm, wait, confirm delete, wait, wait passes through emptying, confirmDelete, deletedTemp and restoring back to the initial state |
| TrashInteraction.CancelThenWait | src/components/projects/macos-desktop/useTrashInteraction.ts:30-33 | cancelling leaves nothing scheduled, so any number of clock ticks changes nothing |
| TrashInteraction.FiresFromQuiet | src/components/projects/macos-desktop/useTrashInteraction.ts:9-18 | with no timeout live, any number of clock ticks leaves the hook unchanged |
| TrashInteraction.TrashHook.constructor | src/components/projects/macos-desktop/useTrashInteraction.ts:5-7 | the hook's fields start at the initial state |
| TrashInteraction.TrashHook.ClearTimers | src/components/projects/macos-desktop/useTrashInteraction.ts:9-18 | both timeout refs are cleared and the state is kept |
| TrashInteraction.TrashHook.TriggerTrash | src/components/projects/macos-desktop/useTrashInteraction.ts:25-28 | performs the triggerTrash step in place |
| TrashInteraction.TrashHook.CancelEmpty | src/components/projects/macos-desktop/useTrashInteraction.ts:30-33 | performs the cancelEmpty step in place |
| TrashInteraction.TrashHook.ConfirmEmpty | src/components/projects/macos-desktop/useTrashInteraction.ts:35-44 | performs the confirmEmpty step in place |
| TrashInteraction.TrashHook.RestoreFromConfirm | src/components/projects/macos-desktop/useTrashInteraction.ts:46-54 | performs the restoreFromConfirm step in place |
| TrashInteraction.TrashHook.ConfirmDelete | src/components/projects/macos-desktop/useTrashInteraction.ts:56-69 | performs the confirmDelete step in place |
| TrashInteraction.TrashHook.Fire | src/components/projects/macos-desktop/useTrashInteraction.ts:41-68 | the live timeout's callback runs in place, the nested one scheduling the final restore |
| TrashInteraction.TrashHook.Unmount | src/components/projects/macos-desktop/useTrashInteraction.ts:21 | unmounting leaves no live timeout and keeps the state |
| ProjectData.FindByTitle | src/components/projects/Data.tsx:350 | a found entry is in the table and carries the title |
| ProjectData.FindByTitleSpec | src/components/projects/Data.tsx:350 | the search fails exactly when no entry has the title, and otherwise yields the earliest entry with it |
| ProjectData.TypeStringDefaults | src/components/projects/Data.tsx:357-358 | the type line names the category or 'Project', then the first technology or 'Development' |
| ProjectData.ThumbnailPriority | src/components/projects/Data.tsx:367-389 | a non-empty thumbnail prop wins, else the first gallery image, else the placeholder icon |
| ProjectData.RenderFromSpec | src/components/projects/Data.tsx:348-512 | the panel is the placeholder exactly when no entry has the title; otherwise it shows the earliest such entry, with links and preview present exactly when non-empty, and each preview item a video exactly when its type is 'video' |
| ProjectData.DataRowsResolve | src/components/projects/Data.tsx:515-570 | the exported table has nine rows, and every row opens a real details panel, never the placeholder |
| MacOSDesktop.Raise | src/components/projects/macos-desktop/MacOSDesktop.tsx:45-49 | windows with the id get the new z-index; every other window and the order are kept |
| MacOSDesktop.CloseWindows | src/components/projects/macos-desktop/MacOSDesktop.tsx:69-71 | a window is kept exactly when its id differs, and none is added; the order of the kept windows is stated by CloseWindowsAppend |
| MacOSDesktop.MoveIcon | src/components/projects/macos-desktop/MacOSDesktop.tsx:83-92 | icons with the id move to (x, y); everything else is kept |
| MacOSDesktop.InitialValid | src/components/projects/macos-desktop/MacOSDesktop.tsx:15-18 | the initial desktop satisfies the invariant |
| MacOSDesktop.ResizePreservesValid | src/components/projects/macos-desktop/MacOSDesktop.tsx:21-36 | every recomputed layout is the configured icon set |
| MacOSDesktop.MovePreservesValid | src/components/projects/macos-desktop/MacOSDesktop.tsx:83-92 | moving an icon keeps the invariant |
| MacOSDesktop.RaisePreservesValid | src/components/projects/macos-desktop/MacOSDesktop.tsx:45-50 | raising with the counter's z-index and advancing the counter keeps the window list well formed |
| MacOSDesktop.FocusPreservesValid | src/components/projects/macos-desktop/MacOSDesktop.tsx:73-81 | focusing keeps the invariant |
| MacOSDesktop.NewWindowFromIcon | src/components/projects/macos-desktop/MacOSDesktop.tsx:53-62 | a window opened from a desktop icon belongs to a configured icon |
| MacOSDesktop.AppendPreservesValid | src/components/projects/macos-desktop/MacOSDesktop.tsx:53-63 | appending a window with a new id and the counter's z-index keeps the list well formed |
| MacOSDesktop.OpenPreservesValid | src/components/projects/macos-desktop/MacOSDesktop.tsx:38-67 | opening a desktop icon keeps the invariant |
| MacOSDesktop.CloseWindowsPreservesValid | src/components/projects/macos-desktop/MacOSDesktop.tsx:69-71 | filtering out an id keeps the window list well formed |
| MacOSDesktop.ClosePreservesValid | src/components/projects/macos-desktop/MacOSDesktop.tsx:69-71 | closing keeps the invariant |
| MacOSDesktop.FreshZIsTop | src/components/projects/macos-desktop/MacOSDesktop.tsx:47-59 | in a well-formed list, the window holding the counter's previous value is above all others |
| MacOSDesktop.OpenBringsToFront | src/components/projects/macos-desktop/MacOSDesktop.tsx:38-67 | after opening, the desktop is well formed, exactly one window has the icon's id and it is on top; the list grows by one exactly when none was open, and the counter advances by one |
| MacOSDesktop.OpenPlacement | src/components/projects/macos-desktop/MacOSDesktop.tsx:38-67 | opening an open icon changes only its window's z-index; otherwise the old windows stay first, in order, and the new window has the icon's id, title and project, the counter's z-index, and sits 50 px right of and 50 px above the click |
| MacOSDesktop.OpenExistingIsFocus | src/components/projects/macos-desktop/MacOSDesktop.tsx:43-81 | opening an icon whose window is open is the same as focusing that window |
| MacOSDesktop.OpenTwiceOneWindow | src/components/projects/macos-desktop/MacOSDesktop.tsx:41-64 | opening the same icon twice never yields a second window |
| MacOSDesktop.FocusSpec | src/components/projects/macos-desktop/MacOSDesktop.tsx:73-81 | focusing an open window puts it on top and keeps the list's ids; an unknown id only spends a z-index |
| MacOSDesktop.CloseSpec | src/components/projects/macos-desktop/MacOSDesktop.tsx:69-71 | closing removes the id's window and keeps every other window and the counter; an unknown id changes nothing, and a known id's window is cut out with the windows before and after it kept in order |
| MacOSDesktop.CloseCutsOne | src/components/projects/macos-desktop/MacOSDesktop.tsx:69-71 | with distinct ids, closing window k's id gives the windows before k followed by the windows after k |
| MacOSDesktop.CloseWindowsAppend | src/components/projects/macos-desktop/MacOSDesktop.tsx:69-71 | filtering a concatenation filters each part in turn, so the surviving windows keep their order |
| MacOSDesktop.CloseWindowsSingle | src/components/projects/macos-desktop/MacOSDesktop.tsx:69-71 | a single window is removed exactly when it has the id |
| MacOSDesktop.CloseWindowsAbsent | src/components/projects/macos-desktop/MacOSDesktop.tsx:69-71 | filtering out an id no window has leaves the list unchanged |
| MacOSDesktop.CloseKeepsTop | src/components/projects/macos-desktop/MacOSDesktop.tsx:69-71 | closing any other window keeps the top window on top |
| MacOSDesktop.StepPreservesValid | src/components/projects/macos-desktop/MacOSDesktop.tsx:21-93 | every handler call keeps the desktop well formed; the counter advances by one on an open or a focus and stays put otherwise |
| MacOSDesktop.StepKeepsTop | src/components/projects/macos-desktop/MacOSDesktop.tsx:38-93 | after every handler call, the window most recently opened or focused, unless it was just closed, is on top |
| MacOSDesktop.RunCounter | src/components/projects/macos-desktop/MacOSDesktop.tsx:38-81 | after any sequence of calls the counter has advanced exactly once per open and per focus |
| MacOSDesktop.CounterNeverDecreases | src/components/projects/macos-desktop/MacOSDesktop.tsx:38-81 | the counter never goes down: after any prefix of the calls it lies between its start value and its final value |
| MacOSDesktop.RunKeepsTop | src/components/projects/macos-desktop/MacOSDesktop.tsx:38-93 | over any sequence of calls the desktop stays well formed, and the window most recently opened or focused, while it stays open, has the strictly greatest z-index |
| MacOSDesktop.RunFromStart | src/components/projects/macos-desktop/MacOSDesktop.tsx:15-93 | from the initial desktop, after any calls, the desktop is well formed, the last window opened or focused is on top, and the counter is its start plus the number of opens and focuses |
| MacOSDesktop.CloseWindowsCount | src/components/projects/macos-desktop/MacOSDesktop.tsx:69-71 | with distinct ids, closing shortens the list by one exactly when the id was open |
| MacOSDesktop.WindowsShowProjects | src/components/projects/macos-desktop/MacOSDesktop.tsx:118-119 | every open window indexes a row of the project table, and that row's panel finds its content |
| MacOSDesktop.Desktop.constructor | src/components/projects/macos-desktop/MacOSDesktop.tsx:15-18 | the component's fields start at the initial state, which is well formed, with no window remembered as last touched |
| MacOSDesktop.Desktop.UpdateIconPositions | src/components/projects/macos-desktop/MacOSDesktop.tsx:21-36 | performs the resize step in place, keeping the invariant and the last-touched window on top |
| MacOSDesktop.Desktop.HandleIconOpen | src/components/projects/macos-desktop/MacOSDesktop.tsx:38-67 | performs the open step in place, keeps the invariant, and puts the icon's window on top as the last touched window |
| MacOSDesktop.Desktop.HandleWindowClose | src/components/projects/macos-desktop/MacOSDesktop.tsx:69-71 | performs the close step in place; no window with the id is left and the last-touched window, unless closed, stays on top |
| MacOSDesktop.Desktop.HandleWindowFocus | src/components/projects/macos-desktop/MacOSDesktop.tsx:73-81 | performs the focus step in place; an open window becomes the last touched and goes on top |
| MacOSDesktop.Desktop.HandleIconPositionChange | src/components/projects/macos-desktop/MacOSDesktop.tsx:83-92 | performs the move step in place, keeping the invariant and the last-touched window on top |
| MacOSDesktop.Desktop.ToggleQuickQuestions | src/components/projects/macos-desktop/MacOSDesktop.tsx:142-145 | flips whether the quick questions are shown and changes nothing else |
| DesktopDock.BottomOffsetPx | src/components/projects/macos-desktop/DesktopDock.tsx:147 | the dock sits 260 px up with the quick questions shown and 140 px without them |
| DesktopDock.CountNonTrash | src/components/projects/macos-desktop/DesktopDock.tsx:156 | never more than the number of icons |
| DesktopDock.ClickEffectSpec | src/components/projects/macos-desktop/DesktopDock.tsx:190-205 | the trash acts exactly when it has a handler and is not disabled; notes and photos act exactly when given their handler |
| DesktopDock.LinkTargets | src/components/projects/macos-desktop/DesktopDock.tsx:190-205 | a missing, empty or '#' link does nothing; a mailto: link opens in the same tab, any other in a new tab |
| DesktopDock.DesktopDockInert | src/components/projects/macos-desktop/MacOSDesktop.tsx:137 | on the desktop, which passes no handlers and only '#' links, no dock click has an effect |
| DesktopDock.CountNonTrashAll | src/components/projects/macos-desktop/DesktopDock.tsx:156 | with no trash among them, every icon counts |
| DesktopDock.DockStaggerIndices | src/components/projects/macos-desktop/DesktopDock.tsx:154-156 | each non-trash dock icon's stagger index is its position, and the trash's is 0 |
| DesktopDock.StaggerOrdered | src/components/projects/macos-desktop/DesktopDock.tsx:168-185 | later icons hide and show later, and every show delay is shorter than the same icon's hide delay |
| DesktopDock.HiddenDockOnlyTrash | src/components/projects/macos-desktop/DesktopDock.tsx:187 | while the dock is hidden, only the trash takes pointer events |
| DesktopDock.DockSeparators | src/components/projects/macos-desktop/DesktopDock.tsx:161-173 | only the notes icon has an animated separator and only the trash a static one |
| DesktopIcon.MaxDimension | src/components/projects/macos-desktop/DesktopIcon.tsx:23 | the box side is the larger of width and height |
| DesktopIcon.BoxOrigin | src/components/projects/macos-desktop/DesktopIcon.tsx:68-69 | the icon's position is the centre of its box |
| DesktopIcon.LabelMaxWidth | src/components/projects/macos-desktop/DesktopIcon.tsx:94 | the label is at least 120 px and at least 20 px wider than the box, and is one of the two |
| DesktopIcon.DragThrough | src/components/projects/macos-desktop/DesktopIcon.tsx:36-39 | pointer moves change only the current position, which ends at the last one |
| DesktopIcon.DragThenClickOpensOnce | src/components/projects/macos-desktop/DesktopIcon.tsx:31-65 | a press, move and release opens the icon at most once: the drop opens it exactly when the gesture was click-like, and a click before the 100 ms reset is ignored |
| DesktopIcon.ClickAfterResetOpensAtDrop | src/components/projects/macos-desktop/DesktopIcon.tsx:49-65 | once the reset fires, a click opens the icon where it was dropped |
| DesktopIcon.ClickLikeBounds | src/components/projects/macos-desktop/DesktopIcon.tsx:41-52 | a motionless instant drag is click-like; one lasting 200 ms or moving 5 px along x is not |
| DesktopIcon.ConfiguredIconGeometry | src/components/projects/macos-desktop/DesktopIcon.tsx:22-23 | every configured icon has a 65 to 95 px box under a 120 px label |
| DesktopIcon.IconGesture.constructor | src/components/projects/macos-desktop/DesktopIcon.tsx:15-18 | the gesture state starts at rest at the icon's position |
| DesktopIcon.IconGesture.OnDragStart | src/components/projects/macos-desktop/DesktopIcon.tsx:31-35 | performs the drag-start step in place |
| DesktopIcon.IconGesture.OnDrag | src/components/projects/macos-desktop/DesktopIcon.tsx:36-39 | performs the drag step in place |
| DesktopIcon.IconGesture.OnDragEnd | src/components/projects/macos-desktop/DesktopIcon.tsx:40-58 | performs the drop in place, returning the open request |
| DesktopIcon.IconGesture.FireDragReset | src/components/projects/macos-desktop/DesktopIcon.tsx:57 | one pending reset fires and clicks are allowed again |
| DesktopIcon.IconGesture.OnClick | src/components/projects/macos-desktop/DesktopIcon.tsx:59-65 | a click opens the icon at its current position exactly when no drag is in progress |
| ViewportDensity.FlagsSpec | src/hooks/useWindowsViewportDensity.ts:60-61 | tight implies compact; compact means non-default and tight means the densest |
| ViewportDensity.NonWindowsIsDefault | src/hooks/useWindowsViewportDensity.ts:13-22 | off Windows, or before measuring, the density is the default |
| ViewportDensity.CommonScreens | src/hooks/useWindowsViewportDensity.ts:19-33 | 1366x768 is tight, 1440x900 compact, 1920x1080 default and 1920x760 tight |
| ViewportDensity.TallIsDefault | src/hooks/useWindowsViewportDensity.ts:19-33 | any viewport taller than 900 px gets the default density, whatever its width or platform |
| ViewportDensity.ShorterIsDenser | src/hooks/useWindowsViewportDensity.ts:19-33 | a shorter measured viewport is never less dense |
| ViewportDensity.NarrowerIsDenser | src/hooks/useWindowsViewportDensity.ts:19-33 | a narrower measured viewport is never less dense |
| ViewportDensity.AgentTestIgnoresCase | src/hooks/useWindowsViewportDensity.ts:43 | the user-agent test ignores letter case |
| SkillIcon.Split | src/components/skills/SkillIcon.tsx:114 | there is at least one piece and no piece contains a space |
| SkillIcon.NonEmpty | src/components/skills/SkillIcon.tsx:114 | no kept piece is empty and none is added |
| SkillIcon.ConcatNonEmpty | src/components/skills/SkillIcon.tsx:114 | dropping the empty pieces does not change the pieces put end to end |
| SkillIcon.RemoveSpaces | src/components/skills/SkillIcon.tsx:114 | the name without its spaces contains no space |
| SkillIcon.SplitJoin | src/components/skills/SkillIcon.tsx:114 | joining the split pieces with spaces gives the name back |
| SkillIcon.ConcatSplit | src/components/skills/SkillIcon.tsx:114 | the split pieces end to end are the name without its spaces |
| SkillIcon.WordsCoverName | src/components/skills/SkillIcon.tsx:114 | the words end to end are the name without its spaces |
| SkillIcon.GetInitialsSpec | src/components/skills/SkillIcon.tsx:113-119 | the initials have at most two characters, upper-cased: with two or more words, the first characters of the first two words; otherwise the name's first two characters |
| SkillIcon.HexValue | src/components/skills/SkillIcon.tsx:273 | a hex digit's value is below 16 |
| SkillIcon.HexDigit | src/components/skills/SkillIcon.tsx:283 | the digit written is a lower-case hex digit whose value is the number |
| SkillIcon.ParseHex | src/components/skills/SkillIcon.tsx:273 | `parseInt(s, 16)` is below 16 to the number of digits |
| SkillIcon.HexFixed | src/components/skills/SkillIcon.tsx:278-285 | writes exactly w lower-case hex digits |
| SkillIcon.NatToHex | src/components/skills/SkillIcon.tsx:283 | writes at least one digit |
| SkillIcon.Clamp | src/components/skills/SkillIcon.tsx:280-282 | the channel clamp lies in 0..255 and is the identity there |
| SkillIcon.ParseHexAppendByte | src/components/skills/SkillIcon.tsx:273 | reading s followed by two more digits t is reading s shifted by one byte plus t |
| SkillIcon.ParseHexFixed | src/components/skills/SkillIcon.tsx:278-285 | writing v in w digits and reading it back gives v when it fits |
| SkillIcon.HexFixedParse | src/components/skills/SkillIcon.tsx:273 | reading digits and writing them back in as many digits gives them back, lower-cased |
| SkillIcon.NatToHexOffset | src/components/skills/SkillIcon.tsx:278-285 | `(16^w + v).toString(16)` is '1' followed by v in w digits |
| SkillIcon.NatToHexByte | src/components/skills/SkillIcon.tsx:278-285 | (256·x + b).toString(16) is x.toString(16) followed by b in two digits |
| SkillIcon.ColorChannels | src/components/skills/SkillIcon.tsx:273-277 | the six digits after '#' read as red·65536 + green·256 + blue |
| SkillIcon.ColorOfChannels | src/components/skills/SkillIcon.tsx:278-285 | reading back a written colour gives its channels |
| SkillIcon.LowerColorIsColorOf | src/components/skills/SkillIcon.tsx:273-285 | a colour is its channels written back, lower-cased |
| SkillIcon.AdjustBrightnessSpec | src/components/skills/SkillIcon.tsx:272-286 | the adjusted colour is '#' then each channel shifted by round(2.55·percent) and clamped, in two lower-case digits |
| SkillIcon.RgbTail | src/components/skills/SkillIcon.tsx:278-285 | `(0x1000000 + rgb).toString(16).slice(1)` is the three channels in two digits each |
| SkillIcon.RgbLayout | src/components/skills/SkillIcon.tsx:278-285 | the formatting step writes '#rrggbb' of the three clamped channels |
| SkillIcon.AdjustBrightnessChannels | src/components/skills/SkillIcon.tsx:272-286 | the channels of the adjusted colour are the shifted, clamped input channels |
| SkillIcon.AdjustByZero | src/components/skills/SkillIcon.tsx:272-286 | a zero adjustment returns the colour itself, lower-cased |
| SkillIcon.AdjustDirection | src/components/skills/SkillIcon.tsx:272-286 | for every colour and percentage, a non-positive shift never raises a channel and a non-negative one never lowers one |
| SkillIcon.TileGradientDarkens | src/components/skills/SkillIcon.tsx:237 | the tile's -20 shift takes 51 from every channel, stopping at 0, and never brightens a channel |
| SkillIcon.RippleCell | src/components/skills/SkillIcon.tsx:101-103 | the column is below the column count (at least 1), and row·cols + col is the index |
| SiteNav.FindHref | src/components/site-nav.tsx:151-153 | `findIndex` returns the first matching link's index, or -1 exactly when none matches |
| SiteNav.OpenIndexSpec | src/components/site-nav.tsx:151-160 | on opening, the highlight is the current page's link, PROJECTS on the home page, the first link otherwise, and never -1 |
| SiteNav.NextIndexWraps | src/components/site-nav.tsx:100-105 | the arrows move the highlight by one, wrapping from the first link to the last and back |
| SiteNav.NextIndexInverse | src/components/site-nav.tsx:103-104 | down then up, or up then down, returns to the same link |
| SiteNav.NextIndexCycle | src/components/site-nav.tsx:103-104 | five presses of one arrow return to the start |
| SiteNav.OpenCloseSpec | src/components/site-nav.tsx:91-163 | the menu button opens the menu at the open index; Escape and the close controls close it; the arrows move the highlight |
| SiteNav.ClosedMenuIgnoresInput | src/components/site-nav.tsx:64-92 | a closed or hidden menu ignores keys, hovers, closes and link clicks |
| SiteNav.FollowLinkSpec | src/components/site-nav.tsx:232 | following a link closes the menu on that link's page |
| SiteNav.SiteNavMenu.constructor | src/components/site-nav.tsx:47-52 | the menu starts closed with the first link highlighted |
| SiteNav.SiteNavMenu.OnResize | src/components/site-nav.tsx:57 | the mobile flag is set from the width, in place |
| SiteNav.SiteNavMenu.OnMenuButton | src/components/site-nav.tsx:151-163 | performs the opening step in place |
| SiteNav.SiteNavMenu.OnKeyDown | src/components/site-nav.tsx:91-113 | performs the key step in place |
| SiteNav.SiteNavMenu.OnClose | src/components/site-nav.tsx:174-205 | performs the close step in place |
| SiteNav.SiteNavMenu.OnFollowLink | src/components/site-nav.tsx:232 | performs the link step in place |
| SiteNav.SiteNavMenu.OnHoverLink | src/components/site-nav.tsx:237-244 | performs the hover step in place |
| MobileProjects.LookupLast | src/components/projects/mobile-projects-layout.tsx:72-74 | a found card is in the source and has the src; nothing is found exactly when no card has the src |
| MobileProjects.Prioritized | src/components/projects/mobile-projects-layout.tsx:73-75 | at most one card per listed src, each from the source with a listed src; their order is stated by PrioritizedAppend |
| MobileProjects.Remaining | src/components/projects/mobile-projects-layout.tsx:77-78 | exactly the source cards whose src is not listed; their order is stated by RemainingAppend |
| MobileProjects.PrioritizedSpec | src/components/projects/mobile-projects-layout.tsx:72-75 | a card is prioritized exactly when its src is listed and it is the last card with that src |
| MobileProjects.OrderProjectsSpec | src/components/projects/mobile-projects-layout.tsx:70-81 | the list holds exactly the unlisted cards plus each listed src's last card, and every listed card precedes every unlisted one |
| MobileProjects.OrderProjectsLength | src/components/projects/mobile-projects-layout.tsx:70-81 | with no src listed twice, the list is never longer than the source |
| MobileProjects.PrioritizedAppend | src/components/projects/mobile-projects-layout.tsx:72-75 | the prioritized part of a split order list is the first part's cards followed by the second part's: cards come in the list's order |
| MobileProjects.PrioritizedSingle | src/components/projects/mobile-projects-layout.tsx:72-75 | one listed src contributes the last card with that src, or nothing when no card has it |
| MobileProjects.PrioritizedMissing | src/components/projects/mobile-projects-layout.tsx:72-75 | a list none of whose srcs has a card prioritizes nothing |
| MobileProjects.RemainingAppend | src/components/projects/mobile-projects-layout.tsx:77-78 | the unlisted cards of a concatenation are those of each part in turn: the table's order is kept |
| MobileProjects.RemainingSingle | src/components/projects/mobile-projects-layout.tsx:77-78 | one card is kept exactly when its src is not listed |
| MobileProjects.RemainingDrops | src/components/projects/mobile-projects-layout.tsx:77-78 | a listed card at the front is dropped |
| MobileProjects.RemainingKeepsFirst | src/components/projects/mobile-projects-layout.tsx:77-78 | an unlisted card at the front is kept, ahead of the rest |
| MobileProjects.TableLookup | src/components/projects/mobile-projects-layout.tsx:72-74 | in a table with the project table's srcs, each row's src finds that row |
| MobileProjects.TableMissing | src/components/projects/mobile-projects-layout.tsx:72-74 | in such a table, a src no row carries finds nothing |
| MobileProjects.AsWrittenPrioritized | src/components/projects/mobile-projects-layout.tsx:52-75 | as written, the prioritized part is the first-portfolio card, then the snake card |
| MobileProjects.CorrectedPrioritized | src/components/projects/mobile-projects-layout.tsx:52-75 | with the keys re-spelled, the prioritized part is the server-room, CyberCodex, first-portfolio and snake cards, in that order |
| MobileProjects.AsWrittenRemaining | src/components/projects/mobile-projects-layout.tsx:52-78 | as written, the other seven cards follow in the table's order |
| MobileProjects.CorrectedRemaining | src/components/projects/mobile-projects-layout.tsx:52-78 | with the keys re-spelled, the other five cards follow in the table's order |
| MobileProjects.AsWrittenCarousel | src/components/projects/mobile-projects-layout.tsx:52-81 | as written, any table with these srcs is shown rows 2 and 7 first, then rows 0, 1, 3, 4, 5, 6 and 8 |
| MobileProjects.CorrectedCarousel | src/components/projects/mobile-projects-layout.tsx:52-81 | with the keys re-spelled, any table with these srcs is shown rows 4, 1, 2 and 7 first, then rows 0, 3, 5, 6 and 8 |
| MobileProjects.CarouselOrderAsWritten | src/components/projects/mobile-projects-layout.tsx:52-81 | the carousel as written, card by card: first portfolio, snake, then the other seven in the table's order |
| MobileProjects.CarouselOrderCorrected | src/components/projects/mobile-projects-layout.tsx:52-81 | the carousel with the keys re-spelled, card by card: server room, CyberCodex, first portfolio, snake, then the other five in the table's order |
| MobileProjects.AsWrittenOrder | src/components/projects/mobile-projects-layout.tsx:52-63 | as written, the server-room and CyberCodex cards are not prioritized; the first-portfolio and snake cards are |
| MobileProjects.CorrectedOrder | src/components/projects/mobile-projects-layout.tsx:52-63 | with the keys spelled as the table spells them, the server room leads and all four listed cards are prioritized |
| MobileProjects.PadStart2 | src/components/projects/mobile-projects-layout.tsx:265 | a string of two or more characters is kept; a shorter one is left-padded with '0' to two |
| MobileProjects.LastTwo | src/components/projects/mobile-projects-layout.tsx:265 | `slice(-2)` is the last two characters, or the whole string if shorter |
| MobileProjects.DecimalLastDigits | src/components/projects/mobile-projects-layout.tsx:265 | the last digit of `String(n)` is n mod 10, and the one before it (n / 10) mod 10 |
| MobileProjects.CardCodeSpec | src/components/projects/mobile-projects-layout.tsx:265 | the card code is the 1-based position in two digits, '.', then the year's last two digits |
| MobileProjects.CardTitles | src/components/projects/mobile-projects-layout.tsx:266 | every card in the table falls back to its own title |
| MobileProjects.CardSummaries | src/components/projects/mobile-projects-layout.tsx:267 | the first-portfolio card gets its summary; as written the server-room card falls back to the default, and with the re-spelled keys it gets its own |
| MobileProjects.Clamp | src/components/projects/mobile-projects-layout.tsx:189-200 | the index is clamped into [0, count−1], kept when already in range, and 0 when there are no cards |
| MobileProjects.CarouselStepsPreserveValid | src/components/projects/mobile-projects-layout.tsx:84-204 | every scroll, button, open, close and timer step keeps the index on a card, the open card among the cards, and the content ready or pending only while a card is open |
| MobileProjects.ButtonsSpec | src/components/projects/mobile-projects-layout.tsx:315-332 | Prev is disabled exactly on the first card and Next exactly on the last; an enabled button moves one card |
| MobileProjects.DetailContentSpec | src/components/projects/mobile-projects-layout.tsx:131-214 | opening hides the content and starts the 120 ms timer, whose firing shows it; closing hides it with no timer left |
| MobileProjects.Carousel.constructor | src/components/projects/mobile-projects-layout.tsx:84-86 | the carousel starts on the first card with nothing open |
| MobileProjects.Carousel.ScrollToIndex | src/components/projects/mobile-projects-layout.tsx:186-193 | performs the clamped scroll in place |
| MobileProjects.Carousel.OnTrackScroll | src/components/projects/mobile-projects-layout.tsx:195-204 | performs the clamped scroll in place |
| MobileProjects.Carousel.OnPrev | src/components/projects/mobile-projects-layout.tsx:315-323 | performs the Prev button in place |
| MobileProjects.Carousel.OnNext | src/components/projects/mobile-projects-layout.tsx:324-332 | performs the Next button in place |
| MobileProjects.Carousel.HandleOpenProject | src/components/projects/mobile-projects-layout.tsx:131-178 | performs the open step and its content effect in place |
| MobileProjects.Carousel.Close | src/components/projects/mobile-projects-layout.tsx:137-230 | performs the close step and its content effect in place |
| MobileProjects.Carousel.FireDetailTimer | src/components/projects/mobile-projects-layout.tsx:143-146 | the 120 ms timer fires and the content is shown |
| NavigationPrompt.PageRoutesSpec | src/components/navigation-prompt.tsx:17-23 | each route is '/' followed by its key in lower case, and no two keys share a route |
| NavigationPrompt.RouteQuerySpec | src/components/navigation-prompt.tsx:65-148 | a blank query routes nowhere and any other to one of the section pages; submitting routes exactly when the button is enabled |
| NavigationPrompt.MatchKeySpec | src/components/navigation-prompt.tsx:69-85 | each route is taken exactly when its keywords appear and no earlier rule's do; /me when none appear |
| NavigationPrompt.MoreTextEarlierRule | src/components/navigation-prompt.tsx:69-85 | appending text to a question can only move it to the same or an earlier rule |
| NavigationPrompt.RouteIgnoresCase | src/components/navigation-prompt.tsx:66 | two queries equal up to letter case route alike |
| NavigationPrompt.QuickToggleSpec | src/components/navigation-prompt.tsx:43-49 | an uncontrolled prompt starts shown and its toggle flips; a parent's handler is called instead; a parent's flag decides what is shown |
| NavigationPrompt.SectionButtonsSpec | src/components/navigation-prompt.tsx:27-121 | the five quick buttons lead to five different pages and "More" to /me |
| HomePage.SameRouteTable | src/app/page.tsx:19-25 | the page's route table equals the prompt's |
| HomePage.QuestionButtonsSpec | src/app/page.tsx:28-44 | there are five quick-question buttons, every section has one, no two lead to the same route, and each leads where the prompt sends its section |
| HomePage.RouteQuerySpec | src/app/page.tsx:46-172 | a blank query routes nowhere; 'home' wins over every other keyword and leads to '/'; any other query routes as in the navigation prompt |
| HomePage.HomeRouteIsNew | src/app/page.tsx:50-53 | the home route is one no section button or prompt rule leads to |
| HomePage.RouteIgnoresCase | src/app/page.tsx:47 | two queries equal up to letter case route alike |
| ThemeToggle.ThumbInsideTrack | src/components/theme-toggle.tsx:59-154 | for every switch size, the thumb is vertically centred and keeps a 2 px margin at both ends |
| ThemeToggle.ToggleSpec | src/components/theme-toggle.tsx:17-52 | on '/' and '/contact' a click asks for nothing; elsewhere it asks for the opposite theme, and two clicks restore whether it is dark |
| ThemeToggle.ViewportFlagsSpec | src/components/theme-toggle.tsx:42-47 | a tight screen is also compact, and neither holds before the height is known |
| ThemeToggle.EdgeOffsetSpec | src/components/theme-toggle.tsx:127-131 | the corner switch sits 8 px from the edges when tight, 12 px when compact and 24 px otherwise |
| ThemeToggle.RenderSpec | src/components/theme-toggle.tsx:14-55 | nothing is drawn before mounting or on '/' before measuring; once measured, the pill form is used exactly where the site menu is shown; the switch is disabled exactly on locked pages |
| ThemeToggle.ThemeSwitch.constructor | src/components/theme-toggle.tsx:11-12 | starts unmounted with an unmeasured viewport |
| ThemeToggle.ThemeSwitch.Mount | src/components/theme-toggle.tsx:20-22 | marks the switch mounted |
| ThemeToggle.ThemeSwitch.Measure | src/components/theme-toggle.tsx:24-31 | records the measured viewport |
| ThemeToggle.ThemeSwitch.View | src/components/theme-toggle.tsx:33-207 | what the switch draws in its current state |
| ThemeToggle.ThemeSwitch.Click | src/components/theme-toggle.tsx:49-52 | the theme asked for, which differs in darkness from the current one |

## Left out

- Rendering, styling, Tailwind classes and framer-motion animation are left out, as are the pages and layouts that only render.
- Floating point: positions are exact reals. `Math.round(2.55 * percent)` is computed exactly as round-half-up of 255·percent/100. The drag distance is compared through its square.
- Case mapping covers ASCII letters only. `trim` uses the ECMAScript whitespace set.
- Real time and timers: a live timeout is a pending value and an explicit step fires it. Stale timer handles, which the trash hook does not null after firing, are not modelled.
- TrashInteraction.TrashHook: React's batching of state updates is not modelled. Each handler's updates land at once.
- Browser effects (`router.push`, `window.open`, `window.location`, focus, scroll locks, `localStorage`) become returned values or are left out. The user agent and the viewport size are inputs.
- MacOSDesktop.Desktop: the handlers read `openWindows` and `nextZIndex` from the render in which they were created (MacOSDesktop.tsx lines 41, 47, 59 and 76). Two calls batched into one render would reuse one z-index. The model applies the calls one after another, each seeing the previous one's state.
- MobileProjects.OrderProjectsSpec: states membership and that every listed card precedes every unlisted one. The order within each part is stated by PrioritizedAppend and RemainingAppend, and for the project table by CarouselOrderAsWritten and CarouselOrderCorrected.
- MacOSDesktop.Desktop.HandleIconPositionChange: `DesktopIcon` never calls `onPositionChange`, so this handler cannot be reached from the UI. It is modelled as written.
- DesktopIcon: the unused `clickTimer` ref is not modelled.
- The dock's own notes, photos and trash handlers are never passed in by the desktop, so the trash hook stands alone.
- ProjectData: project descriptions, feature lists and other text-only content fields are not modelled.
- SkillIcon.AdjustBrightness: requires a '#RRGGBB' colour, which every caller passes. `parseInt` on malformed input is not modelled.
- SkillIcon: `startGlowPulse` and its timers, the ripple's distance-based delay and `Math.random` decoration are left out.
- The site menu's highlight pixel bounds and the mobile carousel's scroll-step pixel maths are left out. A track scroll is given the index it rounds to.
- MobileProjects.PrioritizedLength: the bound assumes that no src is listed twice. For the project table and both order lists, CarouselOrderAsWritten and CarouselOrderCorrected give the exact nine cards instead.
- The `scripts/` image optimisers and static configuration are left out.

## Findings

| source | as written | input that shows it | evidently intended | confidence | as-written member | corrected member |
|---|---|---|---|---|---|---|
| src/components/projects/mobile-projects-layout.tsx:52-63 | the order list and summary table key the server-room and CyberCodex images as '/Projects/BGCLCV/…' and '/Projects/CyberCodex.io/…', but the project table spells them '/projects/BGCLCV/…' and '/Projects/Cybercodex.io/…'; the exact-match Map lookup misses both | the exported project table: only the first-portfolio and snake cards move to the front, and the server-room card, listed first, stays in its original place with the default summary | all four listed projects present in the table lead the carousel, in the list's order, with their own summaries | medium, not executed | MobileProjects.AsWrittenOrder | MobileProjects.CorrectedOrder |
