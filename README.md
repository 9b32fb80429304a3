# Climate-incident dashboard: query, toggle and settings logic

This project models the logic inside the dashboard's screens, which are mostly presentational. It covers four screens.

- **Reports table** (`ReportsTable`). A search box and three drop-downs (status, severity, channel) narrow the report list. The search is a case-insensitive substring match over title, location and id. A drop-down set to `All` places no constraint; otherwise the record's field must equal the lower-cased selection. The result is cut into pages of ten, with `ceil(n / 10)` pages. Previous, Next and numbered buttons move between pages. Four quick statistics count the filtered reports. The pipeline is made of pure functions. The screen state (filter selections, current page, selected report) is the class `ReportsView`.
- **User directory** (`UsersPage`). The filter has the same shape. The search covers name, email and state. Role and status must match exactly, with no lower-casing on either side. A permission is shown with its first underscore replaced by a space. This screen is modelled with pure functions only: its state setters just store the inputs.
- **Message composer** (`MessageCenter`). `ToggleChannel` is the list-as-set update behind the channel buttons. The class `Composer` holds the composer's state: the template buttons set the selected template and the message text, and the voice preview shows while `Voice` is selected.
- **Settings** (`SettingsPage`). `Toggled` flips one flag of the notification record. The class `Settings` holds the record together with the theme, language and time zone.

Shared modules: `Lists` (a stable `filter`, subsequence order, duplicate-freedom), `Text` (`toLowerCase`, `includes`, first-match `replace`) and `Option`.

The model follows the code in the following places:

- In the reports table, the drop-down comparisons lower-case only the selection, never the record's field. So `High` matches the field `high`, but a field spelled `High` is matched only by `All` (`UpperCaseFieldMatchesOnlyAll`). These comparisons are therefore case-sensitive on the record's side.
- The user directory lower-cases neither side of its role and status comparisons.
- Changing a filter never resets the current page: every `ReportsView.Set…Filter` method leaves `currentPage` unchanged.

## Model

| member | source | states |
|---|---|---|
| `Text.LowerChar` | src/components/ReportsTable.tsx:140-145 | an upper-case letter becomes the matching lower-case letter (`'A'` to `'a'` ... `'Z'` to `'z'`), every other character is kept, and no result is upper-case |
| `Text.ToLower` | src/pages/UsersPage.tsx:127-129 | `toLowerCase` keeps the length, lowers each upper-case letter to its lower-case partner, keeps every other character, and leaves no upper-case letter |
| `Text.ContainsIff` | src/components/ReportsTable.tsx:140-142 | `includes` holds iff the term occurs at some position of the text |
| `ReportsTable.FilteredReports` | src/components/ReportsTable.tsx:139-148 | the result is an order-preserving subsequence of the input; a report is in it iff it is in the input and passes the search, status, severity and channel tests together |
| `ReportsTable.FilteredMultiplicity` | src/components/ReportsTable.tsx:139 | a kept report occurs exactly as often as in the input and a rejected one not at all: no duplication, no loss |
| `ReportsTable.SelectionLowersOnlyTheSelection` | src/components/ReportsTable.tsx:143-145 | the selection `High` matches the field `high` and does not match the field `High` |
| `ReportsTable.UpperCaseFieldMatchesOnlyAll` | src/components/ReportsTable.tsx:143-145 | a field containing an upper-case letter is matched iff the selection is `All` |
| `ReportsTable.DropDownOptionsAreExclusive` | src/components/ReportsTable.tsx:99-101 | each of the status, severity and channel option lists starts with `All`, and its other options are not `All` and start with different letters |
| `ReportsTable.OfferedSelectionsAreExclusive` | src/components/ReportsTable.tsx:99-101 | no field value is matched by two different non-`All` options of the same drop-down |
| `ReportsTable.EmptySearchMatchesEveryReport` | src/components/ReportsTable.tsx:140-142 | the empty search term matches every report |
| `ReportsTable.InitialFiltersKeepEverything` | src/components/ReportsTable.tsx:104-107 | with the initial controls (empty search, all drop-downs `All`) the filtered list is the whole list |
| `ReportsTable.SearchIgnoresCase` | src/components/ReportsTable.tsx:140-142 | two search terms with the same lower-cased form (`lagos`, `LAGOS`) give identical results |
| `ReportsTable.NarrowingNeverEnlarges` | src/components/ReportsTable.tsx:143-147 | moving any drop-downs from `All` to a value yields a subsequence of the previous result, so never more reports |
| `ReportsTable.TotalPages` | src/components/ReportsTable.tsx:150 | the page count is the least r with n <= 10r: zero exactly when nothing matches |
| `ReportsTable.PageSlice` | src/components/ReportsTable.tsx:151-153 | a page holds at most ten items, is `filtered[(p-1)*10 ..]` clipped to the list, and is empty iff it starts at or past the end |
| `ReportsTable.PageNonEmptyIff` | src/components/ReportsTable.tsx:150-153 | page p is non-empty iff p <= totalPages |
| `ReportsTable.PagesCoverEverything` | src/components/ReportsTable.tsx:150-153 | concatenating pages 1..totalPages gives back exactly the filtered list |
| `ReportsTable.FooterCountsThePage` | src/components/ReportsTable.tsx:351 | while the page starts inside the list, "Showing from to" spans exactly the page's length |
| `ReportsTable.PreviousPage` | src/components/ReportsTable.tsx:357-358 | Previous is disabled on page 1, so the page stays 1 there, and steps back by exactly one from any later page |
| `ReportsTable.NextPage` | src/components/ReportsTable.tsx:379-380 | Next advances by exactly one iff the current page differs from totalPages, otherwise leaves it |
| `ReportsTable.PageButtons` | src/components/ReportsTable.tsx:364 | the buttons are exactly the pages 1..totalPages, increasing, one each |
| `ReportsTable.HighlightedButtons` | src/components/ReportsTable.tsx:364-367 | exactly one page button is highlighted when the current page lies in 1..totalPages, and none otherwise |
| `ReportsTable.NextRunsPastLastPage` | src/components/ReportsTable.tsx:379-380 | from any page past totalPages (page 1 when nothing matches), Next stays enabled and moves to another empty page |
| `ReportsTable.NextOnEmptyResult` | src/components/ReportsTable.tsx:349-380 | with no match, Next is enabled on page 1 and leads to page 2, whose footer reads "Showing 11 to 0" |
| `ReportsTable.NextPageBoundedStaysInRange` | src/components/ReportsTable.tsx:379 | with the guard `currentPage < totalPages`, Next keeps the page in 1..max(1, totalPages) and only moves to a non-empty page |
| `ReportsTable.NextGuardsAgreeInRange` | src/components/ReportsTable.tsx:379 | the written and the corrected guard differ only when the page is already past the last page |
| `ReportsTable.QuickStatsBounded` | src/components/ReportsTable.tsx:241-255 | the pending, high and resolved counts are each at most the filtered length, and pending plus resolved is too |
| `ReportsTable.ReportsView.constructor` | src/components/ReportsTable.tsx:104-109 | empty search, all drop-downs `All`, page 1, no selected report |
| `ReportsTable.ReportsView.SetSearchTerm` | src/components/ReportsTable.tsx:189 | stores the term and leaves the current page unchanged |
| `ReportsTable.ReportsView.SetStatusFilter` | src/components/ReportsTable.tsx:198 | stores the status and leaves the current page unchanged |
| `ReportsTable.ReportsView.SetSeverityFilter` | src/components/ReportsTable.tsx:211 | stores the severity and leaves the current page unchanged |
| `ReportsTable.ReportsView.SetChannelFilter` | src/components/ReportsTable.tsx:224 | stores the channel and leaves the current page unchanged |
| `ReportsTable.ReportsView.Previous` | src/components/ReportsTable.tsx:357-358 | the page becomes `PreviousPage` of the old one and stays at least 1; nothing else changes |
| `ReportsTable.ReportsView.Next` | src/components/ReportsTable.tsx:379-380 | the page becomes `NextPage` of the old page and page count; nothing else changes |
| `ReportsTable.ReportsView.GoToPage` | src/components/ReportsTable.tsx:364-369 | a page button sets that page, whose slice is non-empty |
| `ReportsTable.ReportsView.ViewReport` | src/components/ReportsTable.tsx:333 | View on a row selects that report, which is one of the filtered reports |
| `UsersPage.FilteredUsers` | src/pages/UsersPage.tsx:126-134 | the result is an order-preserving subsequence of the input; a user is in it iff the search, role and status tests all pass |
| `UsersPage.FilteredUsersMultiplicity` | src/pages/UsersPage.tsx:126 | a kept user occurs exactly as often as in the input, a rejected one not at all |
| `UsersPage.EmptySearchMatchesEveryUser` | src/pages/UsersPage.tsx:127-129 | the empty search term matches every user |
| `UsersPage.EmptySearchLeavesDropDowns` | src/pages/UsersPage.tsx:127-133 | with an empty search, a user is kept iff the role and status tests pass |
| `UsersPage.InitialFiltersKeepEveryUser` | src/pages/UsersPage.tsx:102-104 | with the initial controls the filtered list is the whole list |
| `UsersPage.OfferedOptionsAreExclusive` | src/pages/UsersPage.tsx:243-257 | no user is selected by two different non-`All` roles, or by two different non-`All` statuses, of the drop-downs |
| `UsersPage.RoleFilterIsCaseSensitive` | src/pages/UsersPage.tsx:130 | `Administrator` selects an Administrator, `administrator` does not |
| `UsersPage.UnusedStatusSelectsNobody` | src/pages/UsersPage.tsx:131 | a status no user has yields the empty list |
| `UsersPage.PendingSelectsNobodyOnRoster` | src/pages/UsersPage.tsx:257 | on the listed users, the offered status `pending` yields the empty list |
| `UsersPage.NarrowingNeverEnlarges` | src/pages/UsersPage.tsx:130-133 | moving a drop-down from `All` to a value yields a subsequence of the previous result |
| `UsersPage.SearchIgnoresCase` | src/pages/UsersPage.tsx:127-129 | search terms with the same lower-cased form give identical results |
| `UsersPage.PermissionLabelReplacesFirstUnderscore` | src/pages/UsersPage.tsx:364 | the label has the same length, turns only the first `_` into a space and keeps everything else; without `_` it is unchanged |
| `MessageCenter.ToggleChannel` | src/components/MessageCenter.tsx:117-123 | a present channel disappears from a subsequence of the list; an absent one is appended at the end |
| `MessageCenter.ToggleFlipsMembership` | src/components/MessageCenter.tsx:119-121 | the set of channels gains or loses exactly the toggled channel |
| `MessageCenter.ToggleKeepsOtherChannels` | src/components/MessageCenter.tsx:120 | every other channel occurs as often as before |
| `MessageCenter.ToggleKeepsNoDuplicates` | src/components/MessageCenter.tsx:117-123 | a duplicate-free list stays duplicate-free |
| `MessageCenter.ToggleStaysWithinButtons` | src/components/MessageCenter.tsx:201-211 | pressing one of the `SMS`, `Voice`, `USSD` buttons keeps every selected channel one of those three |
| `MessageCenter.VoicePreviewFollowsVoiceButton` | src/components/MessageCenter.tsx:236 | `Voice` is selected after a press iff it was unselected and `Voice` was pressed, or it was selected and another button was pressed |
| `MessageCenter.ToggleTwiceRestoresAbsent` | src/components/MessageCenter.tsx:117-123 | toggling an absent channel twice restores the list exactly |
| `MessageCenter.ToggleTwiceRestoresElements` | src/components/MessageCenter.tsx:117-123 | toggling any channel twice restores the set of channels |
| `MessageCenter.Composer.constructor` | src/components/MessageCenter.tsx:93-97 | no template, empty message, channels `["SMS"]` (duplicate-free), empty location, count 0, no voice preview |
| `MessageCenter.Composer.PressChannel` | src/components/MessageCenter.tsx:201-211 | the channels become `ToggleChannel` of the old list and stay duplicate-free and within the three buttons' channels; that button's highlight flips; the voice preview flips when `Voice` is pressed and is kept for any other button |
| `MessageCenter.Composer.ChooseTemplate` | src/components/MessageCenter.tsx:169-172 | the template becomes the selected one, the message its content, and its button is highlighted (the popular-template cards at lines 307-310 do the same) |
| `MessageCenter.Composer.EditMessage` | src/components/MessageCenter.tsx:189 | typing replaces the message and keeps the selected template |
| `MessageCenter.Composer.EditTargetLocation` | src/components/MessageCenter.tsx:222 | typing replaces the target location only |
| `SettingsPage.Toggled` | src/pages/SettingsPage.tsx:51-56 | flag k is negated and every other flag is unchanged |
| `SettingsPage.ToggleTwiceRestores` | src/pages/SettingsPage.tsx:51-56 | flipping the same switch twice restores the record |
| `SettingsPage.TogglesCommute` | src/pages/SettingsPage.tsx:51-56 | flipping two switches in either order gives the same record |
| `SettingsPage.InitialFlags` | src/pages/SettingsPage.tsx:32-38 | every flag starts true except push notifications |
| `SettingsPage.PressedThemeButtonAloneSelected` | src/pages/SettingsPage.tsx:143-158 | after pressing a theme button, a button is highlighted iff it is the pressed one |
| `SettingsPage.Settings.constructor` | src/pages/SettingsPage.tsx:32-42 | initial flags, theme `light`, language `English`, time zone `Africa/Lagos` |
| `SettingsPage.Settings.HandleNotificationChange` | src/pages/SettingsPage.tsx:51-56 | the record becomes `Toggled` of the old one; theme, language and time zone unchanged |
| `SettingsPage.Settings.PressThemeButton` | src/pages/SettingsPage.tsx:143-158 | the theme becomes exactly `light` or `dark` and only the pressed button is highlighted |
| `SettingsPage.Settings.SetLanguage` | src/pages/SettingsPage.tsx:164-173 | stores one of the four offered languages, nothing else changes |
| `SettingsPage.Settings.SetTimezone` | src/pages/SettingsPage.tsx:178-185 | stores one of the two offered time zones, nothing else changes |

## Findings

| source | as written | input that shows it | evidently intended | confidence | as-written member | corrected member |
|---|---|---|---|---|---|---|
| src/components/ReportsTable.tsx:379 | Next is disabled only when `currentPage === totalPages` | a search that matches nothing, so `totalPages` is 0, on page 1: Next is enabled and leads to page 2, where the footer reads "Showing 11 to 0 of 0 reports"; Next stays enabled from every page past the last | Next disabled when `currentPage >= totalPages` | not executed; medium | `ReportsTable.NextRunsPastLastPage` | `ReportsTable.NextPageBoundedStaysInRange` |

The corrected guard is `NextEnabledBounded`, and `NextGuardsAgreeInRange` shows it changes behaviour only past the last page. `ReportsView.Next` keeps the guard as written, so that the class describes the screen as it behaves.

## Left out

- JSX markup, layout, class strings, and the icon and colour helpers (`getStatusIcon`, `getSeverityColor`, `getChannelIcon`, `getRoleColor`): they only choose presentation.
- `new Date(...).toLocaleString()` and `Number.toLocaleString()`: locale-dependent library calls.
- `Text.ToLower`: lower-cases only the ASCII letters A–Z. JavaScript's `toLowerCase` also maps non-ASCII letters, so the search model and the drop-down model are exact only for ASCII text.
- Strings are sequences of characters, not UTF-16 code units. The composer's `customMessage.length` character counter is therefore not modelled.
- `SettingsPage.Toggled`: takes one of the five keys used at the switch call sites. `handleNotificationChange` with any other string key would add a new field; no call site does that.
- `MessageCenter.Composer.recipientCount`: never changes after initialisation, because no code path calls its setter.
- React batches state updates and re-renders. The model takes one event per render, and the page count used by Next is the one of the current render.
- The Analytics, MapView, DashboardLayout, DashboardOverview and WeatherPage components, and the one-line page wrappers: they render constants or drive routing and styling. MapView's search and filter state is set but never used to filter anything.
- The report fixture and the message fixtures are not part of the model; the operations take the lists as arguments. Only the user roster is included, for the statement about the `pending` status.
- The settings screen's profile inputs hold fixed values with no handler.
- `ReportsTable.FooterCountsThePage`: holds only while the page starts inside the list. Past the last page, which the Next finding makes reachable, the footer's "to" is below its "from".
