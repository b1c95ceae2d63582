# CrizModo website: verified model of its UI logic

The CrizModo website is a static marketing and documentation site for a
Discord bot. Almost all of it is markup over fixed data. This project models
the three parts that hold behaviour and proves what they promise.

- **Command reference** (`Commands.jsx`). The eight slash commands and the four
  category tabs are kept as data. The search-and-category filter keeps a
  command when its name or its description contains the search text, ignoring
  case, and its category is the selected tab or the tab is `all`. The badge
  colour lookup gives gray for unknown categories. The page state is a class
  holding the search text and the selected tab.
- **Support page** (`Support.jsx`). The troubleshooting guide and its severity
  colour lookup are modelled. So is the FAQ accordion, whose state is `false`
  (modelled as `Closed`) or the key `panel${index}` of the one open panel.
  Clicking the open panel closes it. Clicking any other panel opens that one
  alone.
- **Navigation bar** (`Navbar.jsx`). The "scrolled" flag is `scrollY > 50`. The
  drawer toggle negates `mobileOpen`. The navigation handler returns its
  effects as a list of `Navigate(path)`, `ScrollTo(id)` and
  `DeferredScrollTo(id)`, and always closes the drawer. A small interpreter
  runs that list over a browser state (route and scroll offset). Each route's
  DOM is a partial map from element ids to elements, and a missing id makes
  the scroll a no-op. Every page renders a bar of its own, so a click that
  lands on another page (by the route table of `App.jsx`) leaves a freshly
  mounted bar on screen.

Files:
- `wrappers.dfy`: `Option`.
- `text.dfy`: ASCII lower-casing, substring containment and decimal rendering of
  an index.
- `commands.dfy`, `support.dfy`, `navbar.dfy`: one module per source file.

Lower-casing is ASCII-only. JavaScript's `includes` is modelled as a recursive
prefix search, and a lemma proves it equal to the definition by index. A
JavaScript `sectionId` argument is false when it is `null` or `''`, so the
model treats `Some("")` like `None`.

## Model

| member | source | states |
|---|---|---|
| `Text.Lower` | vite-project/src/pages/Commands.jsx:104-105 | lower-casing keeps the length and lower-cases every character at its own position (ASCII letters only) |
| `Text.LowerIdempotent` | vite-project/src/pages/Commands.jsx:104-105 | lower-casing an already lower-cased string changes nothing |
| `Text.Includes` | vite-project/src/pages/Commands.jsx:104-105 | `includes`: a term that is a prefix of the text, the empty term in particular, is contained in it, and a term longer than the text never is |
| `Text.SameIgnoringCaseLower` | vite-project/src/pages/Commands.jsx:104-105 | two strings lower-case to the same string exactly when they differ only in the case of their letters |
| `Text.IncludesIff` | vite-project/src/pages/Commands.jsx:104-105 | `includes` holds exactly when the term occurs at some index of the text |
| `Text.Decimal` | vite-project/src/pages/Support.jsx:219 | the rendering of an index is non-empty, ends with its last decimal digit, and is one character long exactly for indexes below 10 |
| `Text.DecimalInjective` | vite-project/src/pages/Support.jsx:219 | different indexes render as different strings |
| `Commands.CommandCategories` | vite-project/src/pages/Commands.jsx:9-14 | four tabs, the first being `all`, with pairwise distinct ids |
| `Commands.CommandListShape` | vite-project/src/pages/Commands.jsx:16-101 | the page lists eight commands and no two share a name |
| `Commands.MatchesSearch` | vite-project/src/pages/Commands.jsx:104-105 | `matchesSearch`: the lower-cased term occurs at some index of the lower-cased name or of the lower-cased description; an empty term matches every command |
| `Commands.MatchesCategory` | vite-project/src/pages/Commands.jsx:106 | `matchesCategory`: the `all` tab keeps every command, and any other tab keeps exactly the commands of that category |
| `Commands.Matches` | vite-project/src/pages/Commands.jsx:104-107 | the filter keeps a command when both conditions hold; with an empty term it reduces to the category test, and on `all` to the search test |
| `Commands.Filter` | vite-project/src/pages/Commands.jsx:103-108 | soundness: every listed command comes from the input and matches the search (case-insensitive, name or description) and the category (or `all`) |
| `Commands.FilterComplete` | vite-project/src/pages/Commands.jsx:103-108 | completeness: every input command that matches both conditions is listed |
| `Commands.FilterSubsequence` | vite-project/src/pages/Commands.jsx:103-108 | the list is a subsequence of the input in the original order |
| `Commands.FilterCount` | vite-project/src/pages/Commands.jsx:103-108 | a matching command appears in the list exactly as many times as in the input, and a non-matching one never |
| `Commands.SubsequenceLength` | vite-project/src/pages/Commands.jsx:103 | a subsequence is no longer than the sequence it comes from |
| `Commands.FilteredAtMostEight` | vite-project/src/pages/Commands.jsx:16-108 | the page never lists more than its eight commands |
| `Commands.FilterEmptySearchAll` | vite-project/src/pages/Commands.jsx:104-106 | with an empty search on the `all` tab, every command is kept, because the empty string is contained in every string |
| `Commands.InitialListIsEverything` | vite-project/src/pages/Commands.jsx:6-7 | in the initial state (`''`, `all`) the list is the whole command list |
| `Commands.FilterIgnoresCase` | vite-project/src/pages/Commands.jsx:104-105 | search terms that differ only in letter case give identical lists |
| `Commands.FilterIdempotent` | vite-project/src/pages/Commands.jsx:103-108 | filtering the list again with the same term and category returns it unchanged |
| `Commands.FilterEmptyIff` | vite-project/src/pages/Commands.jsx:256 | the list is empty exactly when no command matches |
| `Commands.EmptyCategoryShowsNothing` | vite-project/src/pages/Commands.jsx:106 | a category (other than `all`) that no command has gives an empty list, whatever the search |
| `Commands.EmptySearchKeepsCategory` | vite-project/src/pages/Commands.jsx:104-106 | with an empty search, every command of the selected category is listed |
| `Commands.CategoriesAreTabs` | vite-project/src/pages/Commands.jsx:9-101 | every command's category is the id of one of the tabs other than `all` |
| `Commands.EveryTabListsSomething` | vite-project/src/pages/Commands.jsx:9-108 | with an empty search, every tab lists at least one command |
| `Commands.CategoryColor` | vite-project/src/pages/Commands.jsx:110-117 | total lookup: `pomodoro` gives blue and only it does, `voice` gives purple and only it does, every other string (`general` included) gives the gray default |
| `Commands.CommandsPage.constructor` | vite-project/src/pages/Commands.jsx:6-7 | the page starts with an empty search on the `all` tab |
| `Commands.CommandsPage.FilteredCommands` | vite-project/src/pages/Commands.jsx:103-108 | the rendered list holds exactly the commands that match the current state, and at most all of them |
| `Commands.CommandsPage.ShowsNoCommandsFound` | vite-project/src/pages/Commands.jsx:256 | "No commands found" is shown exactly when no command matches the current state |
| `Commands.CommandsPage.SetSearchTerm` | vite-project/src/pages/Commands.jsx:143 | typing replaces the search text and keeps the tab |
| `Commands.CommandsPage.SetSelectedCategory` | vite-project/src/pages/Commands.jsx:153 | clicking a tab selects its id and keeps the search text |
| `Support.SeverityColor` | vite-project/src/pages/Support.jsx:120-127 | total lookup: `high`, `medium` and `low` each give their own class and only they do, so the three are distinct, and anything else gives the gray default |
| `Support.IssuesHaveKnownSeverity` | vite-project/src/pages/Support.jsx:42-83 | every troubleshooting entry gets a non-default severity colour |
| `Support.FaqCountIsLength` | vite-project/src/pages/Support.jsx:85-118 | there are eight FAQ entries |
| `Support.TroubleshootingShape` | vite-project/src/pages/Support.jsx:42-83 | four troubleshooting entries of four steps each, the first of severity `high` and the last `low` |
| `Support.PanelKeyInjective` | vite-project/src/pages/Support.jsx:219 | different FAQ indexes give different panel keys |
| `Support.PanelKey` | vite-project/src/pages/Support.jsx:219 | the key is `panel` followed by the decimal rendering of the index, so `panel0` to `panel9` for the first ten |
| `Support.Toggle` | vite-project/src/pages/Support.jsx:8-10 | the new state is closed exactly when the clicked panel was the open one, and is otherwise that panel |
| `Support.AnswerShown` | vite-project/src/pages/Support.jsx:226-231 | nothing is shown while every panel is closed, and a shown answer means the open key ends with that index in decimal |
| `Support.OnlyThisAnswerShown` | vite-project/src/pages/Support.jsx:226-231 | once the answer at an index is shown, no answer at any other index is |
| `Support.AtMostOneAnswerShown` | vite-project/src/pages/Support.jsx:226-231 | at most one answer is rendered: two indexes whose answers are both shown are equal |
| `Support.ClickOpensOnlyThat` | vite-project/src/pages/Support.jsx:8-10 | clicking a question that is not open shows its answer and no other, whatever was open before |
| `Support.ClickClosesOpen` | vite-project/src/pages/Support.jsx:9 | clicking the open question leaves every answer closed |
| `Support.ToggleTwice` | vite-project/src/pages/Support.jsx:9 | two clicks on one panel end closed, except from that panel's own open state, which is restored; so from closed they return to closed |
| `Support.ClickKeepsReachable` | vite-project/src/pages/Support.jsx:219 | clicking a question keeps the state `false` or `panel{i}` with `i` in 0..7 |
| `Support.SupportPage.constructor` | vite-project/src/pages/Support.jsx:6 | initially no answer is shown and the state is reachable |
| `Support.SupportPage.ShowsAnswer` | vite-project/src/pages/Support.jsx:226-231 | a rendered answer means a panel is open, and the answer at no other index is rendered |
| `Support.SupportPage.HandleFaqChange` | vite-project/src/pages/Support.jsx:8-10 | called with the key of one of the questions, it keeps the state reachable and makes it the toggle of the old state by that key |
| `Support.SupportPage.ClickQuestion` | vite-project/src/pages/Support.jsx:219-237 | a click keeps the state reachable, shows no other answer, and flips whether this question's answer is shown |
| `Navbar.ScrolledPast` | vite-project/src/components/Navbar.jsx:12 | the bar counts as scrolled exactly from offset 51 upward |
| `Navbar.ScrollThresholdBoundary` | vite-project/src/components/Navbar.jsx:12 | a larger offset is never less scrolled; 50 is not scrolled and 51 is |
| `Navbar.HasSection` | vite-project/src/components/Navbar.jsx:24 | a missing `sectionId` and the empty string are both false, and a true one is a non-empty string |
| `Navbar.NavigationEffects` | vite-project/src/components/Navbar.jsx:23-39 | one or two effects; a navigation is only ever first and goes to `path`; a deferred scroll is only ever second, after a navigation; every scroll targets the given section on `/`; there is a navigation exactly unless a section of `/` is asked for while already on `/`, and then the list is that one immediate scroll; a section of `/` asked from another route gives exactly the navigation followed by a deferred scroll |
| `Navbar.ScrollToSection` | vite-project/src/components/Navbar.jsx:41-46 | an id that maps to no element has no effect; otherwise only the scroll offset changes, to that element |
| `Navbar.NavigationOutcome` | vite-project/src/components/Navbar.jsx:23-46 | whatever the current route, the effects end on `path`; they scroll to the section exactly when one was asked for on `/` and the home page has it, and otherwise keep the offset |
| `Navbar.NavLinksShape` | vite-project/src/components/Navbar.jsx:48-53 | four links whose targets are four different pages, and only the first, "Features", names a section |
| `Navbar.NavLinkEffects` | vite-project/src/components/Navbar.jsx:48-53 | "Features" scrolls at once on `/` and otherwise navigates to `/` and then scrolls; the other three links only navigate to their own route |
| `Navbar.NavbarState.constructor` | vite-project/src/components/Navbar.jsx:5-6 | `isScrolled` and `mobileOpen` both start false |
| `Navbar.NavbarState.HandleScroll` | vite-project/src/components/Navbar.jsx:11-13 | after a scroll event `isScrolled` equals `scrollY > 50`; the drawer is untouched |
| `Navbar.NavbarState.HandleDrawerToggle` | vite-project/src/components/Navbar.jsx:19-21 | the toggle negates `mobileOpen` and keeps `isScrolled` |
| `Navbar.NavbarState.HandleNavigation` | vite-project/src/components/Navbar.jsx:23-39 | returns the effects of the call, and leaves `mobileOpen` false after every call |
| `Navbar.ToggleDrawerTwice` | vite-project/src/components/Navbar.jsx:19-21 | two toggles restore the previous drawer state |
| `Navbar.PageOf` | vite-project/src/App.jsx:32-36 | the route table: `/`, `/documentation`, `/commands` and `/support` each reach their own page, and every other path reaches the not-found page |
| `Navbar.RemountsIff` | vite-project/src/App.jsx:32-36 | the handler's effects replace the bar exactly when the target path is served by another page than the current route |
| `Navbar.ClickNavigation` | vite-project/src/components/Navbar.jsx:5-39 | a click returns the handler's effects and closes the old bar's drawer; when the target is another page the bar on screen is a fresh one, unscrolled and closed even if the window is scrolled, and otherwise it is the same bar |

## Left out

- Rendering, layout and every class string other than the two colour lookups: these are presentation only.
- The support channels list and every `window.open` of an external URL, including "Add to Discord": these are browser calls with no logic.
- `Footer.jsx`, `Home.jsx`, `NotFound.jsx` and `Documentation.jsx` are not part of this model. They hold static content and one bare tab-index assignment. Of `App.jsx` only the route table is modelled (`Navbar.PageOf`), because it decides when a page with its own bar is mounted.
- Unicode case mapping: `Text.Lower` lower-cases the ASCII letters only, while `toLowerCase` also maps other scripts.
- The 100 ms `setTimeout`: the deferred scroll is an ordered effect that runs after the navigation, not an event at a real time.
- `Navbar.NavigationOutcome`: assumes the deferred scroll runs after the new route has rendered. The source only waits a fixed 100 ms, so on a slow render the scroll can miss its element.
- `Navbar.ScrollToSection`: `scrollIntoView` is modelled as moving the scroll offset to the element's top. Smooth animation, clamping to the page height and the fixed bar's height are not modelled.
- `Navbar.NavbarState`: the class is the state of one mounted bar. Each page renders its own bar, so a navigation to another page unmounts it and mounts a new one with both flags false; only `Navbar.ClickNavigation` models that replacement, and the other methods act on the bar on screen.
- `Navbar.PageOf`: route paths are matched exactly. The router library also ignores case and a trailing slash in paths, and those variants are not modelled.
- The router: `navigate` is modelled as changing the route and keeping the scroll offset, and `location.pathname` is a parameter of the handler.
- `Navbar.NavbarState.HandleScroll`: `scrollY` is an integer here, while browsers may report a fractional offset.
- Registering and removing the scroll listener in `useEffect`: this is browser plumbing.
- React's asynchronous, batched state updates: each handler's update is applied before the next event.
