# Region 1 projects map: filters, search and map focus

This Dafny project models the client side of the Region 1 projects map. It states and proves the properties of that model. Four parts of the frontend are modelled:

- **The filter selection algebra.** A selection has four dimensions: provinces, statuses, a one-element sectors list, and a year. The string `"All"` means "no constraint". The map component holds the applied selection and the handlers that normalise what is pushed into it. The filters panel keeps a pending copy that its toggles edit. The panel compares that copy with the applied one through `JSON.stringify`, applies it, resets it, or removes single values through chips. The filter itself, year normalisation, the per-option counts and the option lists derived from the data are pure functions over `seq<Project>` (modules `Selections`, `ProjectLists`, `Json`, `Panel`).
- **Search.** Suggestions are a case-insensitive substring match on the title or firm name, over every loaded project (module `Search`). The search box class tracks `highlightedIndex` and `showSuggestions`. It reacts to keys, typing, clicks, focus and hover (module `SearchBox`).
- **The map focus and lock protocol** (module `MapView`):
  - A `MapWidget` class stands in for the Leaflet map. It holds the six interaction handlers, the minimum, maximum and current zoom, the last camera call, the open popup and the `zoomend` listeners.
  - A `MapComponent` class holds:
    - the selected project;
    - the query and suggestions;
    - the marker registry;
    - the zoom-listener ref;
    - the popup-just-closed guard;
    - the pending timers of the lock effect and the guard effect.
  - `zoomToProvinces` is a loop proved equal to a decision rule over the constant province boxes (module `Viewport`).
- **Marker colours and sector icons.** These come from `mapUtils.js` (module `MapUtils`). A proof shows that every legend label classifies to the icon shown beside it (module `Legend`).

How the React code is mapped to Dafny:

- **Effects.** Each handler that changes the selected project ends with `MapComponent.Commit`. `Commit` runs the cleanups of both effects and then their new runs, in declaration order, as React does after that render.
- **Timers.** Each `setTimeout` becomes a pending flag or a queue entry. An explicit event method completes it: `LockTimerFires`, `GuardTimerFires` or `PopupTimerFires`. A finished zoom is the event `ZoomEnd`.
- **Map calls.** `setView` holds the zoom to the current range. `setMinZoom` and `setMaxZoom` pull the current zoom inside the new bound. `fitBounds` leaves the zoom it settles on to the next `ZoomEnd`.
- **Handlers that clear the selection.** Clearing the selection through the search handler or the clear button does not release a locked map. The model reproduces this: `MapComponent.SearchChange` and `MapComponent.ClearSearch` leave the handlers and the zoom range as they were.

## Model

| member | source | states |
|---|---|---|
| Selections.NormalizeYear | frontend/src/MapComponent.jsx:320-324 | the normalised year is a prefix of the year with no '-'; a year with a '-' is cut just before its first '-'; a year without one is kept whole |
| Selections.NormalizeYearExamples | frontend/src/MapComponent.jsx:320-324 | "2022-2023" gives "2022", "2021" stays, "" stays "" |
| Selections.NormalizeYearIdempotent | frontend/src/MapComponent.jsx:320-324 | normalising twice equals normalising once |
| Selections.FilteredProjectsSpec | frontend/src/MapComponent.jsx:314-328 | the filtered projects are an order-preserving subsequence of the data; a project is kept exactly when its province, status, sector and normalised-year tests all hold |
| Selections.UnconstrainedKeepsAll | frontend/src/MapComponent.jsx:314-328 | an all-"All" selection keeps every project, in order |
| Selections.FilteredCountIsOptionCount | frontend/src/FiltersPanel.jsx:908-919 | the panel's total equals getOptionCount(x, d) whenever dimension d is already [x] (the year already x) |
| Selections.OptionCountAllDropsDimension | frontend/src/FiltersPanel.jsx:841-862 | the "All" option's count is the count with that dimension's test removed |
| Selections.OptionCountAtMostAll | frontend/src/FiltersPanel.jsx:841-862 | no option of a dimension counts more projects than that dimension's "All" |
| Selections.MultiOptionCountIsOptionCount | frontend/src/FiltersPanel.jsx:114-127 | the multi-select dropdown's count is the panel's option count with the year unconstrained; the year filter type overrides nothing |
| Selections.SingleOptionCount | frontend/src/FiltersPanel.jsx:560-583 | a concrete option of a heading other than Sector or Year counts 0; no count exceeds the number of projects |
| Selections.SingleOptionCountIsOptionCount | frontend/src/FiltersPanel.jsx:560-583 | for a concrete option, the Sector and Year dropdown counts equal the panel's option count with sector and year unconstrained, and are at most the "All" count |
| Selections.AllIsExclusive | frontend/src/FiltersPanel.jsx:865-895 | a well-formed list is ["All"] exactly when it selects no concrete value |
| Selections.Toggle | frontend/src/FiltersPanel.jsx:865-895 | the result is never empty; toggling "All" gives ["All"]; a present value is removed; an absent one is selected |
| Selections.ToggleCases | frontend/src/FiltersPanel.jsx:865-895 | on a well-formed list: "All" resets; a present value is removed, and an emptied list becomes ["All"]; an absent value replaces ["All"] or is appended at the end |
| Selections.ToggleKeepsWellFormed | frontend/src/FiltersPanel.jsx:865-895 | a list that is ["All"] or a duplicate-free list of concrete values stays so after any toggle |
| Selections.ToggleFlips | frontend/src/FiltersPanel.jsx:865-895 | toggling a concrete value flips exactly that value in or out of the selected set |
| Selections.ToggleTwice | frontend/src/FiltersPanel.jsx:865-895 | toggling an absent concrete value twice gives back the original list |
| Selections.CheckboxToggleAgrees | frontend/src/FiltersPanel.jsx:93-106 | on well-formed lists the dropdown's checkbox toggle equals the panel's toggle, and so keeps lists well formed |
| Selections.TogglesDifferOffShape | frontend/src/FiltersPanel.jsx:93-106 | on ["All", "Ilocos Sur"] the two toggles part ways: the checkbox toggle appends, the panel toggle replaces |
| Selections.EmptyToAll | frontend/src/MapComponent.jsx:177-180 | the result is never empty; an empty list becomes ["All"]; any other list is kept |
| Selections.SectorChange | frontend/src/MapComponent.jsx:304-308 | the result is one sector; it is ["All"] exactly when the clicked sector is the single current one or is "All"; otherwise it is [sector] |
| Selections.SectorChangeToggles | frontend/src/FiltersPanel.jsx:897-901 | on a one-element list, the sector handler selects the clicked sector unless it was the selected one, and keeps the list well formed |
| Selections.RemoveChip | frontend/src/FiltersPanel.jsx:995-996 | after removing an applied chip the list is non-empty and no longer holds the value |
| Selections.RemoveChipIsToggle | frontend/src/FiltersPanel.jsx:995-996 | on a well-formed list, removing a selected value's chip equals toggling that value |
| Selections.AppliedSectors | frontend/src/FiltersPanel.jsx:810-822 | with one-element lists, the sectors applied by applyFilters are the pending ones |
| Selections.ApplyPending | frontend/src/FiltersPanel.jsx:810-822 | with non-empty pending lists and one-element sectors, the selection applied afterwards is the pending one |
| Selections.RemovePendingSectorChipAsWritten | frontend/src/FiltersPanel.jsx:1020 | as written, the pending sector chip's removal yields one sector |
| Selections.PendingSectorChipStays | frontend/src/FiltersPanel.jsx:1020 | as written, with "All" applied and "Food" pending, removing the Food chip leaves ["Food"] |
| Selections.RemovePendingSectorChip | frontend/src/FiltersPanel.jsx:897-901 | corrected: the removal yields one sector |
| Selections.RemovePendingSectorChipClears | frontend/src/FiltersPanel.jsx:897-901 | corrected: removing the chip of the pending sector always clears that sector to ["All"] |
| ProjectLists.ActiveProjects | frontend/src/MapComponent.jsx:105 | the loaded projects are exactly the non-Processing ones |
| ProjectLists.ActiveProjectsInOrder | frontend/src/MapComponent.jsx:105 | they keep the order of the fetched data |
| ProjectLists.Distinct | frontend/src/MapComponent.jsx:106-107 | new Set keeps each value once, the same values, in order of first occurrence |
| ProjectLists.StatusOptionsSpec | frontend/src/MapComponent.jsx:106 | the status list is "All" and then each status of a non-Processing project exactly once, in order of first appearance |
| ProjectLists.SectorOptionsSpec | frontend/src/MapComponent.jsx:107 | the sector list is "All" and then each sector of a non-Processing project exactly once, in order of first appearance |
| ProjectLists.SortDesc | frontend/src/MapComponent.jsx:108-110 | the sort yields a descending permutation of its input |
| ProjectLists.YearOptionsSpec | frontend/src/MapComponent.jsx:108-110 | the year list is sorted descending; it holds "All" and each non-empty normalised year of a non-Processing project, and nothing else; each year other than "All" appears at most once |
| ProjectLists.AllHeadsYearOptions | frontend/src/MapComponent.jsx:108-110 | when every year sorts before "All", as digit years do, "All" heads the list |
| Search.Suggestions | frontend/src/MapComponent.jsx:182-194 | the empty query gives no suggestions; there are never more suggestions than projects |
| Search.SuggestionsSpec | frontend/src/MapComponent.jsx:184-189 | for a non-empty query: an in-order subsequence of all loaded projects, holding exactly those whose lower-cased title or firm contains the lower-cased query |
| Search.SuggestionsIgnoreCase | frontend/src/MapComponent.jsx:184-189 | the query's case does not change the suggestions |
| Search.RefinedQueryNarrows | frontend/src/MapComponent.jsx:184-189 | a query containing an earlier non-empty query suggests only projects the earlier one did, and no more of them |
| Viewport.ProvinceBoundary | frontend/src/MapComponent.jsx:29-50 | the four province boxes are non-degenerate |
| Viewport.ZoomToProvinces | frontend/src/MapComponent.jsx:153-175 | the loop over the names decides the camera call exactly as the rule does |
| Viewport.UnionSpec | frontend/src/MapComponent.jsx:159-168 | the min/max fold encloses every known province box named; each of its edges is such a box's edge; with no known name it stays the empty starting box |
| Viewport.ZoomSingleProvince | frontend/src/MapComponent.jsx:155-157 | one known province gives its own centre and zoom |
| Viewport.ZoomSeveralProvinces | frontend/src/MapComponent.jsx:158-172 | two or more provinces without "All" fit the smallest box holding every known one's bounds; with no known name, no camera call is made |
| Viewport.ZoomDefault | frontend/src/MapComponent.jsx:172-174 | an empty list, a list with "All", or one unknown name gives the region centre at zoom 8 |
| Viewport.ZoomIlocosExample | frontend/src/MapComponent.jsx:153-175 | Ilocos Norte with Ilocos Sur fits [[17.2, 120.0], [18.5, 121.1]] |
| Json.ParseStringify | frontend/src/FiltersPanel.jsx:803-807 | JSON.stringify of a string array reads back as the array |
| Json.StringifyInjective | frontend/src/FiltersPanel.jsx:803-807 | two string arrays have equal JSON texts exactly when they are equal element by element, in order |
| Panel.DiffersIffUnequal | frontend/src/FiltersPanel.jsx:803-807 | hasPendingChanges holds exactly when the pending and applied selections differ |
| Panel.FiltersPanel.constructor | frontend/src/FiltersPanel.jsx:797-800 | the panel mounts with the applied selection as its pending one |
| Panel.FiltersPanel.PendingProvinceChange | frontend/src/FiltersPanel.jsx:881-895 | only the pending provinces change, to their toggle by the value |
| Panel.FiltersPanel.PendingStatusChange | frontend/src/FiltersPanel.jsx:865-879 | only the pending statuses change, to their toggle by the value |
| Panel.FiltersPanel.PendingSectorChange | frontend/src/FiltersPanel.jsx:897-901 | the pending sector becomes the sector handler's result against the applied sectors |
| Panel.FiltersPanel.PendingYearChange | frontend/src/FiltersPanel.jsx:903-905 | only the pending year changes |
| Panel.FiltersPanel.RemovePendingSector | frontend/src/FiltersPanel.jsx:1020 | the corrected pending sector chip: removing the pending sector clears it |
| Panel.FiltersPanel.ResetPending | frontend/src/FiltersPanel.jsx:825-830 | the pending selection becomes the applied one, so hasPendingChanges is false |
| Panel.FiltersPanel.ApplyFilters | frontend/src/FiltersPanel.jsx:810-822 | after applyFilters the applied selection equals the pending snapshot and the panel is closed; the map camera makes the province push's move (the zoom rule of the pending provinces); the selected project, search text, suggestions, lock and guard state are untouched |
| Panel.FiltersPanel.RemoveAppliedProvince | frontend/src/FiltersPanel.jsx:995 | the applied provinces lose the value (["All"] if emptied); on a well-formed list this is the toggle; the camera moves by the zoom rule of the new provinces; pending follows the applied selection; the panel stays open and the selection, search and lock state are untouched |
| Panel.FiltersPanel.RemoveAppliedStatus | frontend/src/FiltersPanel.jsx:996 | the same for the applied statuses; the selection, search and lock state are untouched |
| Panel.FiltersPanel.RemoveAppliedSector | frontend/src/FiltersPanel.jsx:997 | the single applied sector is cleared to ["All"]; the selection, search and lock state are untouched |
| Panel.FiltersPanel.RemoveAppliedYear | frontend/src/FiltersPanel.jsx:768 | the applied year becomes "All"; the selection, search and lock state are untouched |
| Panel.FiltersPanel.ClearAll | frontend/src/FiltersPanel.jsx:949-953 | applied and pending selections are all "All" and nothing is pending; the map is set to the Region 1 centre at the default zoom held to the current range; the selected project, search and lock state are kept |
| Panel.FiltersPanel.Close | frontend/src/FiltersPanel.jsx:955 | the panel closes; the applied selection, the selected project, search and lock state are kept |
| Panel.Open | frontend/src/MapComponent.jsx:820 | opening mounts the panel on the applied selection with nothing pending |
| MapView.MapComponent.constructor | frontend/src/MapComponent.jsx:105-116 | after loading: the non-Processing projects and the derived option lists; nothing selected, filtered or registered |
| MapView.MapComponent.Commit | frontend/src/MapComponent.jsx:444-494 | after a changed selection: the lock timer and zoom listener exist exactly when a project is selected and the guard is clear, and the listener is for that project; the guard's release is pending exactly when nothing is selected and the guard is set; nothing else changes |
| MapView.MapComponent.Cleanup | frontend/src/MapComponent.jsx:477-483 | the previous runs' timers are cleared and their listener removed |
| MapView.MapComponent.Setup | frontend/src/MapComponent.jsx:445-475 | the new runs schedule the lock and register one listener, or schedule the guard's release |
| MapView.MapComponent.ProvinceChange | frontend/src/MapComponent.jsx:177-180 | the provinces become the list, or ["All"] if it is empty; the map makes exactly the camera call of the province rule for them; nothing else changes |
| MapView.MapComponent.StatusChange | frontend/src/MapComponent.jsx:300-302 | the statuses become the list, or ["All"] if it is empty |
| MapView.MapComponent.SectorChange | frontend/src/MapComponent.jsx:304-308 | the sectors become the sector handler's result |
| MapView.MapComponent.YearChange | frontend/src/MapComponent.jsx:310-312 | the year is replaced |
| MapView.MapComponent.ClearFilters | frontend/src/MapComponent.jsx:845-853 | every dimension becomes "All" and the map is set to the region centre at zoom 8, within the zoom range |
| MapView.MapComponent.ToggleFilterPanel | frontend/src/MapComponent.jsx:556-558 | the panel flag flips; the applied selection, the selected project, search and lock state are kept |
| MapView.MapComponent.ClosePanel | frontend/src/MapComponent.jsx:854 | the panel closes; nothing else changes |
| MapView.MapComponent.SearchChange | frontend/src/MapComponent.jsx:182-194 | query and suggestions are updated and the selection is cleared; the handlers and zoom range are left as they were |
| MapView.MapComponent.SuggestionClick | frontend/src/MapComponent.jsx:196-231 | the selected project's suggestion only resets the query to its title and clears the suggestions; any other project is selected, the map released to [8, 14], centred on it at the current zoom, and its popup scheduled |
| MapView.MapComponent.ChooseSuggestion | frontend/src/MapComponent.jsx:719-724 | a project not among the suggestions changes nothing; otherwise the first suggestion with that id becomes the query and the list is cleared; choosing the already selected project keeps the camera and popups; choosing another one selects it, queues its popup, releases the handlers and zoom range and sets the view on it at the clamped zoom, then arms the lock (or, while the guard is on, leaves it unarmed); the applied selection and the guard are kept |
| MapView.FirstWithId | frontend/src/MapComponent.jsx:720 | the index of the first project with the id, or the length when there is none; no earlier project has the id |
| MapView.MapComponent.ClearSearch | frontend/src/MapComponent.jsx:233-249 | query, suggestions and selection are cleared; if a project was selected, the camera goes back to the applied provinces' view (the region view when they are "All") and the popup closes, while the handlers and zoom range stay as they were; otherwise the map is untouched |
| MapView.MapComponent.MarkerClick | frontend/src/MapComponent.jsx:251-269 | the selected project's marker changes nothing; another selects its project and schedules its popup |
| MapView.MapComponent.PopupClose | frontend/src/MapComponent.jsx:271-298 | selection, query and suggestions are cleared; six handlers on; zoom range [8, 14]; guard set; no zoom listener left; popup closed |
| MapView.MapComponent.ResetView | frontend/src/MapComponent.jsx:913-938 | ignored while a project is selected or the panel is open; otherwise the map is released and set to the region centre at zoom 8 with its popup closed |
| MapView.MapComponent.LockTimerFires | frontend/src/MapComponent.jsx:451-463 | when the lock is still pending (so a project is selected) the zoom range is pinned to the current zoom and all handlers are disabled; otherwise nothing changes |
| MapView.MapComponent.GuardTimerFires | frontend/src/MapComponent.jsx:489-491 | a pending release clears the guard |
| MapView.MapComponent.ZoomEnd | frontend/src/MapComponent.jsx:465-475 | the zoom is updated within range; the registered listener schedules the selected project's popup when its marker is on the map; while the guard is set no listener exists, so no popup is scheduled |
| MapView.MapComponent.PopupTimerFires | frontend/src/MapComponent.jsx:224-230 | the popup opens if its marker is still on the map |
| MapView.MapComponent.MarkerMounted | frontend/src/RegionMap.jsx:56-60 | the marker is recorded as on the map |
| MapView.MapComponent.MarkerUnmounted | frontend/src/RegionMap.jsx:56-60 | a registered marker is recorded as off the map; the registry keeps it |
| MapView.QuickReselectAfterClose | frontend/src/MapComponent.jsx:444-494 | closing a popup and selecting another project before the guard clears leaves that project unlocked, and the guard stays set after its timer is gone |
| MapView.SearchKeepsLock | frontend/src/MapComponent.jsx:182-194 | a locked map stays locked after a search clears the selection |
| SearchBox.Down | frontend/src/MapSearch.jsx:30-34 | ArrowDown moves one step when below the last index, and stays within [-1, n-1] |
| SearchBox.Up | frontend/src/MapSearch.jsx:36-38 | ArrowUp never goes below -1 and moves back from a highlighted item |
| SearchBox.UpUndoesDown | frontend/src/MapSearch.jsx:30-38 | ArrowUp undoes an ArrowDown that moved |
| SearchBox.DownUndoesUp | frontend/src/MapSearch.jsx:30-38 | ArrowDown undoes an ArrowUp from a highlighted item |
| SearchBox.DownReachesLast | frontend/src/MapSearch.jsx:30-34 | enough ArrowDowns reach the last suggestion and stay there |
| SearchBox.MapSearchBox.constructor | frontend/src/MapSearch.jsx:11-13 | nothing is highlighted and the list is hidden |
| SearchBox.MapSearchBox.KeyDown | frontend/src/MapSearch.jsx:26-50 | keys are ignored while hidden; the arrows move the index; Enter with an index in range selects that suggestion (the first suggestion with its id becomes the query) and hides the list, and otherwise does nothing; Escape hides the list and keeps the index; the applied selection and the guard are kept |
| SearchBox.MapSearchBox.InputChange | frontend/src/MapSearch.jsx:52-57 | the value goes to the component; the list is shown exactly for a non-empty value; the index resets to -1 |
| SearchBox.MapSearchBox.ClickSuggestion | frontend/src/MapSearch.jsx:59-63 | the clicked suggestion is selected, and the first suggestion at or before it with its id becomes the query; the list is hidden and the index reset; the applied selection and the guard are kept |
| SearchBox.MapSearchBox.Focus | frontend/src/MapSearch.jsx:85 | the list shows exactly when there is a query |
| SearchBox.MapSearchBox.ClickOutside | frontend/src/MapSearch.jsx:15-24 | the list is hidden and the index kept |
| SearchBox.MapSearchBox.ClearButton | frontend/src/MapSearch.jsx:100-102 | the component's search is cleared and the list hidden |
| SearchBox.MapSearchBox.MouseEnter | frontend/src/MapSearch.jsx:166 | the hovered item is highlighted |
| SearchBox.MapSearchBox.MouseLeave | frontend/src/MapSearch.jsx:167 | nothing is highlighted |
| MapUtils.MarkerColor | frontend/src/mapUtils.js:4-17 | the colour is one of the five listed |
| MapUtils.MarkerColorCases | frontend/src/mapUtils.js:4-17 | the four listed statuses get four different colours; every other status gets "#007bff", and only they do |
| MapUtils.SectorIcon | frontend/src/mapUtils.js:20-33 | the icon is one of the ten listed; an empty sector gets the clipboard |
| MapUtils.FirstRule | frontend/src/mapUtils.js:23-31 | the selected rule matches and no earlier rule does |
| MapUtils.SectorIconIsFirstRule | frontend/src/mapUtils.js:22-32 | the if-chain equals the icon of the first matching rule in the keyword table |
| MapUtils.SectorIconCaseInsensitive | frontend/src/mapUtils.js:22 | lower-casing the sector first does not change the icon |
| MapUtils.UnmatchedSectorIsClipboard | frontend/src/mapUtils.js:21-32 | a sector no rule matches gets the clipboard |
| Legend.LegendAgreesWithClassifier | frontend/src/Legend.jsx:3-13 | each of the nine legend labels classifies to the icon shown beside it |
| Legend.PlasticsRuleBeforeMetal | frontend/src/mapUtils.js:28-29 | the plastics label contains "metal" yet gets the plastics icon, because its rule comes first |

## Left out

- Data loading (MapComponent.jsx:85-151): the fetches, the mount flag and the abort controller are I/O. The fetched projects are a constructor argument of `MapComponent`. The fallback branch is not modelled: its lists get a doubled leading "All", and its data never reaches the map because the error state renders only a message.
- The provinces list comes from the fetch and is not derived from the data, so no contract is stated about it.
- Leaflet itself is a stub. Animation, pixel geometry, the zoom `fitBounds` settles on, and the resize-driven minimum zoom (MapComponent.jsx:526-541) are left out. A zoom after `fitBounds` arrives as a `ZoomEnd` event.
- The second `zoomend` listener (MapComponent.jsx:560-567) only updates a displayed zoom level and is left out.
- DOM and CSS work are left out: icon markup, style injection and the zoom-control class toggling.
- The map reference is assumed set. The branches taken while it is null are not modelled.
- `zoomResetTimeoutRef` is never set anywhere, so its `clearTimeout` calls do nothing and are omitted.
- Timer durations (300, 150 and 500 ms) are not modelled. Only the order of the events is.
- MapView.MapComponent.ZoomEnd: the 150 ms popup timer checks the marker's `_map` when it is scheduled. In the model it checks when it fires, like the 300 ms timers.
- MapView.MapComponent.PopupTimerFires: opening a popup only records which project's popup is open. The markers have no Leaflet popup of their own, and the visible popup is the modal.
- `toLowerCase` is ASCII lower-casing. `localeCompare` is lexicographic order by code point. The two agree on digit years and "All", which is all the year list sorts.
- Looking up a province name inherited from JavaScript objects (such as "toString") is treated as unknown.
- `MapPopup.jsx` formatting, the other display components, the dropdown positioning code (FiltersPanel.jsx:63-91, 529-557) and `backend/server.js` are not part of this model.

## Findings

| source | as written | input that shows it | evidently intended | confidence | as-written member | corrected member |
|---|---|---|---|---|---|---|
| frontend/src/FiltersPanel.jsx:1020 | the pending sector chip's remove button calls handlePendingSectorChange, which resets only when the removed sector equals the APPLIED single sector (897-901) | applied sectors ["All"], pending ["Food"], remove the Food chip: pending stays ["Food"] | removing a pending chip clears that pending sector, as the province and status chips do | not executed | Selections.PendingSectorChipStays | Selections.RemovePendingSectorChipClears |
