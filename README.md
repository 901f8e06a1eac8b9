# Student reminder app: timetable list and screen navigation

This project is a Dafny model of the two pieces of logic in the student
utility app's mobile front end.

- **The timetable screen** (`TimetableScreen.tsx`). A flat list of timetable
  entries, each with an id, a day, a time, a subject, a room and a type
  (lecture, lab or practical). The user can:
  - add an entry from a draft form, which is guarded by "time, subject and
    room non-empty";
  - remove entries by id;
  - "upload" a file. This replaces the list with a fixed six-entry sample.

  The screen displays the list grouped by the six weekdays Monday to
  Saturday, each day's entries sorted by their `time` string.
- **The navigation shell** (`MobileApp.tsx`). One current-screen variable
  with six values. It starts on the splash screen, moves to login and then
  home, and the bottom bar switches freely between the four main screens.
  The bottom bar is shown exactly on those four.

Files and modules:

- `seqs.dfy` (`Seqs`): order-preserving `Filter`, which models
  `Array.prototype.filter`. Its lemmas cover membership, concatenation,
  multiplicities and when nothing is removed.
- `string_order.dfy` (`StringOrder`): `LexLe`, the lexicographic
  character-code order that stands for `localeCompare`. It is proved to be
  a total order.
- `timetable.dfy` (`Timetable`): the entry, draft and group datatypes, the
  `Days` list, the sample data, and removal, stable sorting and grouping as
  functions with lemmas. The class `TimetableScreen` holds the state the
  handlers change: `timetable`, `showAddForm` and `newEntry`.
- `navigation.dfy` (`Navigation`): the `AppScreen` datatype, `Screen` as
  the subset type of main screens, `ShowBottomNav` and `RenderScreen`. The
  handlers are an event-driven transition system with reachability lemmas.
  The class `MobileApp` holds `currentScreen` and its three handlers.

Modelling choices:

- `Date.now().toString()` is replaced by an `id` parameter of `AddEntry`.
- The file-input event is reduced to a boolean, "a first file is present".
- A handler only writes `currentScreen`. Which handlers can fire is decided
  by what is rendered:
  - `onComplete` goes only to the splash screen;
  - `onLogin` goes only to the login screen;
  - `onNavigate` goes only to the bottom bar, which is shown only on main
    screens.

  `Navigation.Enabled` states this. `Navigation.Accepts` says every event
  in a sequence is enabled when it happens.
- The `day` field of the record type is declared as a plain string, not the
  six-day union. So an entry may carry some other day, and the grouping
  lemmas cover that case.

## Model

| member | source | states |
|---|---|---|
| Timetable.TimetableScreen.constructor | src/components/TimetableScreen.tsx:20-28 | the screen starts with the stored list, the form closed and the draft `{Monday, '', '', '', lecture}` |
| Timetable.TimetableScreen.AddEntry | src/components/TimetableScreen.tsx:32-49 | if time, subject and room are non-empty, the list becomes the old list followed by exactly one entry with the draft's fields and the given id, the draft resets to the default and the form closes; otherwise the list, draft and form flag are all unchanged |
| Timetable.TimetableScreen.RemoveEntry | src/components/TimetableScreen.tsx:51-53 | the list becomes the removal of `id` from the old list; draft and form flag are unchanged |
| Timetable.TimetableScreen.FileUpload | src/components/TimetableScreen.tsx:55-70 | with a file present the list becomes exactly the six-entry sample whatever it held; without one nothing changes |
| Timetable.TimetableScreen.ToggleAddForm | src/components/TimetableScreen.tsx:140 | the form flag is negated; list and draft unchanged |
| Timetable.TimetableScreen.CancelAddForm | src/components/TimetableScreen.tsx:225 | the form closes and the draft is kept |
| Timetable.TimetableScreen.SetDay | src/components/TimetableScreen.tsx:166 | only the draft's day changes, to the given string |
| Timetable.TimetableScreen.SetTime | src/components/TimetableScreen.tsx:179 | only the draft's time changes |
| Timetable.TimetableScreen.SetSubject | src/components/TimetableScreen.tsx:190 | only the draft's subject changes |
| Timetable.TimetableScreen.SetRoom | src/components/TimetableScreen.tsx:201 | only the draft's room changes |
| Timetable.TimetableScreen.SetKind | src/components/TimetableScreen.tsx:211 | only the draft's type changes |
| Timetable.AddOneToEmpty | src/components/TimetableScreen.tsx:32-49 | from an empty list, filling the form and adding a Tuesday class puts it in the Tuesday group alone, and the other five groups are empty |
| Timetable.OnlyItsDay | src/components/TimetableScreen.tsx:95-98 | a one-entry list on one of the six days gives six groups in which only that day's group is non-empty, holding just that entry |
| Timetable.RemoveByIdContents | src/components/TimetableScreen.tsx:52 | after removal no entry carries the id, and every other entry occurs exactly as often as before |
| Timetable.RemoveByIdAppend | src/components/TimetableScreen.tsx:52 | removal distributes over concatenation, so survivors keep their relative order |
| Timetable.RemoveUnknownId | src/components/TimetableScreen.tsx:52 | removal leaves the list unchanged if and only if no entry carries the id |
| Timetable.RemoveByIdIdempotent | src/components/TimetableScreen.tsx:52 | removing the same id twice equals removing it once |
| Timetable.RemoveUniqueId | src/components/TimetableScreen.tsx:52 | removing the id of an entry whose id is unique deletes exactly that position, and the length drops by one |
| Timetable.RemoveUndoesAdd | src/components/TimetableScreen.tsx:36-39 | removing a just-appended entry by its id restores the old list when that id was not already in use |
| Timetable.SortByTime | src/components/TimetableScreen.tsx:97 | the sorted day is a permutation (same multiset) of its input |
| Timetable.SortByTimeSorted | src/components/TimetableScreen.tsx:97 | the result is ordered non-decreasingly by `time` |
| Timetable.SortByTimeStable | src/components/TimetableScreen.tsx:97 | entries with equal `time` come out in their input order, as with JavaScript's stable sort |
| Timetable.GroupByDayShape | src/components/TimetableScreen.tsx:30 | grouping always yields six groups Monday..Saturday in that order, all empty for an empty list |
| Timetable.GroupContents | src/components/TimetableScreen.tsx:95-98 | each group is sorted by time, holds each entry of its day exactly as often as the list does and no other entry, and keeps equal-time entries in list order |
| Timetable.GroupOmitsOtherDays | src/components/TimetableScreen.tsx:95-98 | an entry whose day is not one of the six is in no group |
| Timetable.GroupAfterAppend | src/components/TimetableScreen.tsx:39 | appending an entry adds it to its day's group and leaves every other group identical |
| Timetable.TypeColorDistinct | src/components/TimetableScreen.tsx:72-83 | the three types get pairwise distinct colour classes |
| Timetable.TypeIconKinds | src/components/TimetableScreen.tsx:85-93 | lab and practical share the flask icon, and lecture gets the other icon |
| Timetable.SampleTimetableFacts | src/components/TimetableScreen.tsx:59-66 | the sample has six entries with distinct ids, all on weekdays other than Saturday, each with non-empty time, subject and room |
| Timetable.SampleTimetableCoverage | src/components/TimetableScreen.tsx:59-66 | the sample covers exactly Monday to Friday and all three types |
| StringOrder.LexLeReflexive | src/components/TimetableScreen.tsx:97 | every time string compares equal to itself |
| StringOrder.LexLeTotal | src/components/TimetableScreen.tsx:97 | any two time strings are comparable |
| StringOrder.LexLeAntisymmetric | src/components/TimetableScreen.tsx:97 | two strings that each sort no later than the other are equal |
| StringOrder.LexLeTransitive | src/components/TimetableScreen.tsx:97 | the comparison is transitive |
| Seqs.FilterMembership | src/components/TimetableScreen.tsx:52 | a value is kept if and only if it is in the input and passes the predicate |
| Seqs.FilterMultiset | src/components/TimetableScreen.tsx:97 | filtering keeps each passing value exactly as often as the input has it |
| Navigation.ShowBottomNav | src/components/MobileApp.tsx:48 | the bar is shown if and only if the state is neither splash nor login, equivalently if and only if it is one of the four main screens, which makes the `as Screen` cast safe |
| Navigation.RenderScreenBijective | src/components/MobileApp.tsx:29-46 | distinct states render distinct components and every component is rendered by some state |
| Navigation.StepFacts | src/components/MobileApp.tsx:17-27 | splash completion is enabled only on splash and leads to login; login is enabled only on login and leads to home; navigation is enabled exactly on main screens and lands on its main-screen target |
| Navigation.MainScreensConnected | src/components/MobileApp.tsx:25-27 | every main screen reaches every main screen in one accepted navigation step |
| Navigation.MainIsClosed | src/components/MobileApp.tsx:12 | from a main screen, every accepted run stays on main screens, so splash and login are never re-entered |
| Navigation.RunsFromInitial | src/components/MobileApp.tsx:15-23 | from the initial state a run is on splash iff no event happened and on login iff only `SplashComplete` happened; the second event is always the login, and from then on the state is a main screen |
| Navigation.EveryStateReachable | src/components/MobileApp.tsx:15-27 | each of the six states is reached by some accepted run from splash |
| Navigation.MobileApp.constructor | src/components/MobileApp.tsx:15 | the initial state is splash |
| Navigation.MobileApp.HandleSplashComplete | src/components/MobileApp.tsx:17-19 | the state becomes login |
| Navigation.MobileApp.HandleLogin | src/components/MobileApp.tsx:21-23 | the state becomes home |
| Navigation.MobileApp.HandleNavigate | src/components/MobileApp.tsx:25-27 | the state becomes exactly the argument, which is always a main screen |
| Navigation.StartAndOpenLabs | src/components/MobileApp.tsx:15-27 | splash, login, then a tap on labs ends on labs with the bottom bar shown |

## Left out

- JSX rendering, styling classes, the icon components themselves and the `timetable.length > 0` empty-state switch are not modelled. They are presentation.
- React hooks, re-render semantics and the `useStudent` context are not modelled. The context's store is the `timetable` field, replaced by assignment. The context's code is not part of this model.
- `Date.now()` is a clock read, so the id is a parameter of `AddEntry`.
- The uploaded file's contents are never read by the source. Only "a file is present" is modelled.
- `localeCompare` collation is modelled as lexicographic comparison by character code. Locale-specific ICU ordering is not modelled.
- The `default` branches of `renderScreen` and `getTypeColor` cannot be reached in these typed models, because each `match` is exhaustive.
- A handler firing after the screen that received it is unmounted is not modelled. `Navigation.Enabled` assumes a callback fires only while its receiver is rendered.
- The other screens (splash, login, home, lab records, settings, bottom bar) are not part of this model. Only their role as event sources and render targets is.
