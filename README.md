# Player hub view state, in Dafny

A model of the view-local state of four pages of a football player's portal. The portal keeps
all its data in hard-coded lists in memory. Each page holds at most a few state slots that
button clicks update:

- **Availability** (`availability.dfy`). A list of upcoming fixtures, each `pending`,
  `confirmed` or `declined` with an optional decline reason. The "Available" button confirms a
  fixture. The "Unavailable" button opens or closes the page's single reason picker. A reason
  button declines the fixture with that reason and closes the picker. The confirmed and
  pending counters are full scans of the list.
- **Fixtures** (`fixtures.dfy`). A fixed list of matches (`upcoming`, `confirmed`, `past`) shown
  through a single-select tab: All, Upcoming (everything not past) or Past.
- **Formation** (`formation.dfy`). Two formation presets, one shown at a time. The previous and
  next buttons clamp to the ends of the list and are disabled there. `yourPosition` looks up
  the "you" placement with `find`; the page computes it but does not read it, and each marker is
  highlighted by its own `isYou` flag.
- **Training** (`training.dfy`). Modules of lessons in an accordion that expands at most one
  module. The header shows the total and completed lesson counts, folded over all modules.

`slot.dfy` holds what two pages share: an `Option` type and the toggle of an optional-id slot.
The availability picker and the training accordion use the same rule: a click on the open
element closes it, and a click on any other element opens that one instead.

Each page's `useState` slots are fields of a class (`AvailabilityView`, `FixturesView`,
`FormationView`, `TrainingView`). Each setter is a method whose `ensures` gives the new state as a
function of the old one. The list rewrites (`prev.map`), counters (`filter(...).length`),
the filter, the `find` and the `reduce` folds are functions. The properties are lemmas about
those functions, by induction where the function recurses.

For the availability page the model also describes the screen. `Enabled` says which buttons
are drawn: the two action buttons only for a pending fixture, and the reason buttons only while
that fixture's picker is open, one per listed reason. `Step` is the handler a drawn button
calls. `Run` replays a sequence of clicks. `RunKeeps` proves that every reachable list has
distinct ids, a reason on exactly the declined fixtures, and only reasons from the picker's
list. It also proves that a fixture is never changed again once it leaves `pending`.
`AvailabilityView.Press` ties the class to the screen: each drawn button runs the view's
handler, and the state it leaves is exactly `Step` of the same click.

Points where the code behaves differently from what one might expect:

- Confirming does not clear an existing decline reason: the record spread keeps it. On reachable
  screens this makes no difference, because only pending fixtures (which never carry a reason)
  can be confirmed. `Consistent` holds on every reachable screen.
- `handleDecline` accepts any reason string. Only the screen restricts reasons to the five listed
  ones, so the restriction is in `Enabled` and not in the handler.
- Confirming does not close an open picker. Of the two record handlers only `handleDecline`
  closes it; a second click on Unavailable also closes it.
- Toggling the same id twice restores the slot only when the slot started closed or on that id.
  From a slot on another id, two clicks leave it closed (`Slot.ToggleTwice` proves both halves).

## Model

| member | source | states |
|---|---|---|
| Slot.Toggle | src/pages/Availability.tsx:120 | the slot becomes empty exactly when it held the clicked id, otherwise it holds the clicked id |
| Slot.ToggleSwitches | src/pages/Training.tsx:120 | clicking a module other than the expanded one switches the slot straight to it |
| Slot.ToggleTwice | src/pages/Training.tsx:120 | two clicks on one id restore the slot iff it was empty or held that id; from another id they leave it empty |
| Availability.Apply | src/pages/Availability.tsx:38-49 | confirm sets the status and keeps every other field, the decline reason included; decline sets status and reason |
| Availability.UpdateById | src/pages/Availability.tsx:38-49 | same length and order; every record with the id is rewritten, every other record is unchanged |
| Availability.UpdateUnknownId | src/pages/Availability.tsx:40 | a handler called with an id no record has leaves the list unchanged |
| Availability.UpdateUniqueId | src/pages/Availability.tsx:46 | with distinct ids, the handler for record k's id changes record k only |
| Availability.UpdateKeepsIds | src/pages/Availability.tsx:40 | a handler keeps every id at its position |
| Availability.CountStatus | src/pages/Availability.tsx:51-52 | a counter never exceeds the list length |
| Availability.ConfirmedCount | src/pages/Availability.tsx:51 | no contract of its own; bounded by CountStatus and characterised by CountsBound and ConfirmPendingCounts |
| Availability.PendingCount | src/pages/Availability.tsx:52 | no contract of its own; characterised by CountsBound, ConfirmPendingCounts and DeclinePendingCounts |
| Availability.CountsPartition | src/pages/Availability.tsx:51-52 | the confirmed, declined and pending counts add up to the list length |
| Availability.CountsBound | src/pages/Availability.tsx:51-52 | confirmedCount + pendingCount is at most the list length |
| Availability.CountAfterReplace | src/pages/Availability.tsx:51-52 | replacing one record moves one unit from its old status's count to its new one's |
| Availability.ConfirmPendingCounts | src/pages/Availability.tsx:38-52 | with distinct ids, confirming a pending fixture lowers pending by 1 and raises confirmed by 1 |
| Availability.DeclinePendingCounts | src/pages/Availability.tsx:44-52 | with distinct ids, declining a pending fixture lowers pending by 1 and leaves confirmed as it was |
| Availability.AvailabilityView.constructor | src/pages/Availability.tsx:35-36 | the view starts from the seed list with no picker open |
| Availability.AvailabilityView.HandleConfirm | src/pages/Availability.tsx:38-42 | the list becomes the confirm rewrite of the old list; the picker slot is untouched |
| Availability.AvailabilityView.HandleDecline | src/pages/Availability.tsx:44-49 | the list becomes the decline rewrite of the old list and the picker slot is emptied |
| Availability.AvailabilityView.TogglePicker | src/pages/Availability.tsx:120 | the picker slot is toggled on the fixture's id and the list is untouched |
| Availability.AvailabilityView.Press | src/pages/Availability.tsx:109-132 | a click on a drawn button leaves the view in the state `Step` gives for that click |
| Availability.SeedCounts | src/pages/Availability.tsx:17-23 | the seed list has 1 confirmed and 4 pending fixtures |
| Availability.SeedScenario | src/pages/Availability.tsx:17-52 | counts go (1,4), then (2,3) after confirm("2"), then (2,2) after decline("3","Injury"), and the final list is the seed with fixture 2 confirmed, fixture 3 declined with reason "Injury" and every other fixture unchanged |
| Availability.Enabled | src/pages/Availability.tsx:109-129 | no contract; the drawn-button conditions, used as the precondition of Step and Press and characterised by StepKeeps and RunKeeps |
| Availability.Step | src/pages/Availability.tsx:109-137 | a click on a drawn button keeps the list length |
| Availability.PickerOpen | src/pages/Availability.tsx:109-127 | no contract; the reason picker's draw condition (a pending fixture whose id is in the slot), used by OnePickerOpen |
| Availability.OnePickerOpen | src/pages/Availability.tsx:127 | with distinct ids at most one reason picker is drawn |
| Availability.SeedConsistent | src/pages/Availability.tsx:17-32 | the seed list has distinct ids and no decline reasons |
| Availability.StepKeeps | src/pages/Availability.tsx:109-137 | a click keeps ids distinct, keeps reasons on exactly the declined fixtures and within the list, and changes only the clicked pending fixture |
| Availability.Run | src/pages/Availability.tsx:109-137 | any sequence of clicks keeps the list length |
| Availability.RunKeeps | src/pages/Availability.tsx:109-137 | after any clicks the list is still consistent, and a fixture that had left pending is unchanged |
| Availability.SeedRunKeeps | src/pages/Availability.tsx:17-137 | from the seed list every reachable list is consistent and the already-confirmed fixture 1 never changes |
| Fixtures.Keeps | src/pages/Fixtures.tsx:33-37 | no contract; the filter predicate, characterised by FilterExact, FilterAll and UpcomingPastDisjoint |
| Fixtures.FilterMatches | src/pages/Fixtures.tsx:33-37 | the filtered list is no longer than the list |
| Fixtures.FilterExact | src/pages/Fixtures.tsx:33-37 | a match is shown iff it is in the list and the tab keeps it; the result is an order-preserving subsequence |
| Fixtures.FilterAll | src/pages/Fixtures.tsx:34 | the All tab shows the list unchanged in content and order |
| Fixtures.UpcomingPastSplit | src/pages/Fixtures.tsx:35-36 | the Upcoming and Past lists together hold every match as often as the list does, and their lengths sum to its length |
| Fixtures.UpcomingPastDisjoint | src/pages/Fixtures.tsx:35-36 | no match appears under both Upcoming and Past |
| Fixtures.FilterIdempotent | src/pages/Fixtures.tsx:33-37 | filtering a filtered list by the same tab changes nothing |
| Fixtures.FilterSuffix | src/pages/Fixtures.tsx:33 | filtering a suffix keeps or drops its head and filters the rest |
| Fixtures.FilterFourThenTwo | src/pages/Fixtures.tsx:33-37 | in six matches whose last two are past, Past shows the last two and Upcoming the first four |
| Fixtures.SeedFilters | src/pages/Fixtures.tsx:19-26 | on the seed list Past shows matches 5 and 6 in order, Upcoming matches 1 to 4 |
| Fixtures.FixturesView.constructor | src/pages/Fixtures.tsx:31 | the tab starts on All |
| Fixtures.FixturesView.SetActiveFilter | src/pages/Fixtures.tsx:59 | a tab click makes that tab active |
| Fixtures.FixturesView.FilteredMatches | src/pages/Fixtures.tsx:33 | the drawn list holds exactly the seed matches the active tab keeps, in their order |
| Formation.Prev | src/pages/Formation.tsx:98 | the result is max(0, i - 1) and stays in range |
| Formation.Next | src/pages/Formation.tsx:109 | the result is min(len - 1, i + 1) and stays in range |
| Formation.PrevDisabledExactly | src/pages/Formation.tsx:98-99 | the previous button is disabled exactly where it would not move |
| Formation.NextDisabledExactly | src/pages/Formation.tsx:109-110 | the next button is disabled exactly where it would not move |
| Formation.NextThenPrev | src/pages/Formation.tsx:98-109 | below the last index, next then previous returns to the start |
| Formation.PrevThenNext | src/pages/Formation.tsx:98-109 | above index 0, previous then next returns to the start |
| Formation.Navigate | src/pages/Formation.tsx:98-109 | no contract; the index after a sequence of presses, characterised by NavigateInRange |
| Formation.NavigateInRange | src/pages/Formation.tsx:57-58 | from an index in range, any sequence of presses stays in range |
| Formation.IsYou | src/pages/Formation.tsx:60 | no contract; the `find` callback `p => p.player.isYou`, characterised through FirstYou and YourPosition |
| Formation.FirstYou | src/pages/Formation.tsx:60 | the position where `find` stops: no "you" before it, a "you" at it if it is inside |
| Formation.YourPosition | src/pages/Formation.tsx:60 | none iff no placement is "you"; otherwise the first placement that is "you" |
| Formation.OnlyYouAt | src/pages/Formation.tsx:60 | a preset whose only "you" is at k counts one "you" and the lookup returns placement k |
| Formation.NoYou | src/pages/Formation.tsx:60 | a preset without "you" counts none |
| Formation.PresetHasOneYou | src/pages/Formation.tsx:19-54 | each seed preset has exactly one "you", the tenth placement (`players[9]`, M. Johnson, number 9) |
| Formation.SeedHasOneYou | src/pages/Formation.tsx:19-60 | every in-range preset index has exactly one "you" and the lookup finds it |
| Formation.FormationView.constructor | src/pages/Formation.tsx:57 | the view starts at preset 0, in range |
| Formation.FormationView.CurrentFormation | src/pages/Formation.tsx:58 | no contract; the preset at the active index, characterised by YourCurrentPosition and SeedHasOneYou |
| Formation.FormationView.PrevDisabled | src/pages/Formation.tsx:98-99 | the previous button is disabled exactly where a click would not move the index |
| Formation.FormationView.NextDisabled | src/pages/Formation.tsx:109-110 | the next button is disabled exactly where a click would not move the index |
| Formation.FormationView.YourCurrentPosition | src/pages/Formation.tsx:58-60 | the shown preset's lookup always finds a "you" placement of that preset |
| Formation.FormationView.GoPrev | src/pages/Formation.tsx:98 | the index becomes Prev of the old one and stays in range |
| Formation.FormationView.GoNext | src/pages/Formation.tsx:109 | the index becomes Next of the old one and stays in range |
| Training.TypeIcon | src/pages/Training.tsx:67-76 | every lesson type has an icon, a different one per type |
| Training.CountCompleted | src/pages/Training.tsx:63 | no contract; characterised by CountCompletedAppend and CountCompletedBound |
| Training.SumLessons | src/pages/Training.tsx:61 | no contract; characterised by SumLessonsCounts |
| Training.TotalLessons | src/pages/Training.tsx:61 | no contract; characterised by LessonTotals |
| Training.SumCompleted | src/pages/Training.tsx:62-65 | no contract; characterised by SumCompletedCounts |
| Training.CompletedLessons | src/pages/Training.tsx:62-65 | no contract; characterised by LessonTotals |
| Training.CountCompletedAppend | src/pages/Training.tsx:63 | the completed count of two lesson lists joined is the sum of their counts |
| Training.CountCompletedBound | src/pages/Training.tsx:63 | a completed count never exceeds the number of lessons |
| Training.SumLessonsCounts | src/pages/Training.tsx:61 | the total fold from any start adds the number of all lessons |
| Training.SumCompletedCounts | src/pages/Training.tsx:62-65 | the completed fold from any start adds the number of completed lessons over all modules |
| Training.LessonTotals | src/pages/Training.tsx:61-65 | total is the lesson count over all modules, completed is the completed-status count, and completed is at most total |
| Training.CountsIgnoreProgress | src/pages/Training.tsx:133-137 | modules with the same lessons give the same counts whatever their authored progress |
| Training.SeedCounts | src/pages/Training.tsx:25-56 | the seed has 9 lessons, 3 completed; module 1's authored 75% is not its completed share of 2 in 4 |
| Training.SeedModuleIds | src/pages/Training.tsx:25-56 | the seed modules have distinct ids |
| Training.Expanded | src/pages/Training.tsx:149 | no contract; the lesson-list condition `activeModule === module.id`, used by OneModuleExpanded |
| Training.OneModuleExpanded | src/pages/Training.tsx:149 | with distinct module ids at most one module's lessons are drawn |
| Training.TrainingView.constructor | src/pages/Training.tsx:59 | the accordion starts with module "1" expanded |
| Training.TrainingView.ToggleModule | src/pages/Training.tsx:120 | a header click toggles the slot on the module's id |
| Training.SeedClicks | src/pages/Training.tsx:59-120 | from the start, clicking module 2, again module 2, then module 1 gives the slots 1, 2, none, 1 |

## Left out

- Rendering: JSX, CSS classes, icons as components, animation delays and the history log are
  presentation only. `TypeIcon` returns a tag for the icon rather than the component.
- The overall progress percentage and the bar widths in `src/pages/Training.tsx` (lines 98 and
  104 of the page) are floating point, and they divide by zero when there are no lessons. Only the
  integer counts are modelled.
- The `result?.includes("W")` colouring and the inert "Confirm" button of an upcoming match in
  `src/pages/Fixtures.tsx` (it has no handler) are display only.
- `src/pages/Dashboard.tsx`, `src/pages/Stats.tsx`, `src/pages/Feedback.tsx`, `src/pages/News.tsx`,
  `src/App.tsx` and `src/components/layout/AppLayout.tsx` are rendering of literal arrays and
  routing, and are not part of this model.
- React's state scheduling: each setter is an immediate assignment to its slot, and a functional
  update `setFixtures(prev => …)` reads the current list.
- `isYou?: boolean` is a `bool`, with an absent flag as `false`; `find` treats both alike. Pitch
  coordinates are integers, as all seed values are.
- Availability.Run: a click on a button not drawn on the current screen cannot happen, so the
  model skips it rather than calling its handler.
- Fixtures.FilterMatches: its own contract only bounds the length; the exact content, order,
  partition and idempotence are the lemmas `FilterExact`, `FilterAll`, `UpcomingPastSplit` and
  `FilterIdempotent`.
- Formation.FormationView.YourCurrentPosition: proved for the two seed presets only, since the
  list of presets is fixed.
