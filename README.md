# Mass Tracking System: business rules of the web client

The Mass Tracking System is a browser application. Priests of a religious
order use it to log the masses they celebrate, to follow a monthly
personal-mass quota, and to work through bulk intention series. A bulk
series is a batch of masses requested by a province or by the generalate.
All of its logic is in React components of `public/src/App.js`, working on
in-memory arrays of plain records. This project models the rules those
components apply, in Dafny, and proves properties of them:

- **Mass entry** (`MassEntry`). The form offers the user's active series
  whose source matches the chosen bulk type. The submit handler copies the
  form into a record. For a `bulk_*` type whose chosen series id names one of
  the user's active series, it then sets `serialNumber` to that series'
  `remainingMasses` and replaces `intentionDetails` with the series
  description. In every other case the record is the form unchanged.
- **Bulk series creation** (`SeriesManager`). The submit gate refuses an
  empty count or a description that is blank after `trim()`. It then
  refuses a count that does not parse or is not positive. Otherwise it emits
  the source, the count and the trimmed description. `Text` models
  `String.prototype.trim` with the ECMAScript white-space set.
- **Reports** (`Reports`). The per-user and current-month filters; the
  month's personal and `bulk_` counts; the all-time count per mass type,
  built by an accumulator loop as the source's `reduce` does; and the ten
  most recent masses, sorted newest first in place on an array.
- **Dashboard** (`Dashboard`). The tracker lookup and its `|| 0` /
  `|| 3` fallbacks, the total and active-series counters, and series
  progress.

`Domain` holds the records (`Mass`, `BulkSeries`, `Tracker`). It also holds
the closed mass-type and series-source enumerations: `MassType.Tag` is the
stored string and `IsBulk` is its `bulk_` prefix test. Dates are integer
(year, month, day) triples. `Seqs` holds `Filter` and `Find`, the
models of `Array.prototype.filter` and `find`. `Wrappers` holds `Option`
and `Result`.

Notes on what the code does:

- The series gate checks only that the count is positive. The upper bound
  of 1000 is only the `max` attribute of the number input
  (public/src/App.js:382). `SeriesManager.PositiveCountAccepted` shows every
  positive count passing the gate, and `SeriesManager.NoUpperBound` shows it
  for 5000.
- The quota card reads a stored tracker record; it does not recompute the
  quota from the ledger. A missing record shows 0 / 3, and by JavaScript's
  `||` a stored `requiredCount` of 0 also shows as 3.
- The submit handler does no validation of its own. When the chosen series
  is not found, it hands the record to `onAddMass` without a serial number;
  it does not fail.
- The serial number is the series' remaining count when the form is
  submitted. The decrement that follows is not in the visible code.
- The recent list sorts with a comparator on dates only, so masses with
  equal dates are left in the order the sort gives them.

## Model

| member | source | states |
|---|---|---|
| `Seqs.Filter` | public/src/App.js:469 | the kept elements are exactly the input's elements the predicate accepts; never more of them, counted with multiplicity, than the input has |
| `Seqs.FilterMultiplicity` | public/src/App.js:469 | each accepted element is kept exactly as many times as it occurs in the input; a rejected one not at all |
| `Seqs.FilterCounts` | public/src/App.js:469 | the same, for every element of the input at once |
| `Seqs.FilterAppend` | public/src/App.js:469 | order is kept: filtering a concatenation gives the kept elements of its first part followed by those of its second |
| `Seqs.Find` | public/src/App.js:175 | None exactly when no element is accepted; otherwise an accepted element with no accepted element before it |
| `Domain.BulkTypes` | public/src/App.js:174 | `MassType.IsBulk`, the `bulk_` prefix test (also used at line 505), holds exactly for `bulk_province` and `bulk_generalate` |
| `Domain.DateOrder` | public/src/App.js:539 | the date comparison the sort uses is a total order: reflexive, total, antisymmetric and transitive |
| `Domain.UserMasses` | public/src/App.js:469 | exactly the masses whose `priestId` is the current user's, each as many times as it occurs in the ledger (in ledger order, as `Seqs.FilterAppend` states of every filter) |
| `Domain.UserSeries` | public/src/App.js:76 | exactly the series assigned to the current user, each as many times as it occurs in the list |
| `MassEntry.ActiveBulkSeries` | public/src/App.js:165-167 | exactly the series that are assigned to the user and active, each as many times as it occurs in the list |
| `MassEntry.SourceFor` | public/src/App.js:242 | for the two bulk types, province exactly for `bulk_province` and generalate exactly for `bulk_generalate` |
| `MassEntry.OfferedSeries` | public/src/App.js:241-242 | every offered series is the user's and active, with the source of the selected type: province for `bulk_province`, generalate for `bulk_generalate`; every such series is offered |
| `MassEntry.FindSeries` | public/src/App.js:175 | a found series is in the active list and has the id, and no earlier active series has it; nothing is found exactly when no active series has it |
| `MassEntry.BuildMassData` | public/src/App.js:169-180 | a serial number is set exactly when the type is bulk, an id is chosen and an active series of the user has that id; it is then that series' remaining count, with its description as details; otherwise the record is the form unchanged; the other fields always come from the form |
| `MassEntry.AssembledFromSeries` | public/src/App.js:174-179 | bulk type, non-empty id, some active series with that id: the record carries the remaining count and description of the first such series |
| `MassEntry.AssembledUnchanged` | public/src/App.js:172-180 | non-bulk type, empty id, or no active series with that id: the record is the form copy with no serial number |
| `MassEntry.OfferedChoiceIsRecorded` | public/src/App.js:236-247 | with unique series ids, picking an offered series (non-empty id) records exactly that series' remaining count and description |
| `Text.TrimStart` | public/src/App.js:315 | a suffix of the input preceded only by white space (`Text.IsSpace`: the ECMAScript WhiteSpace and LineTerminator characters), not starting with white space |
| `Text.TrimEnd` | public/src/App.js:315 | a prefix of the input followed only by white space, not ending with white space |
| `Text.Trim` | public/src/App.js:329 | a slice of the input with only white space cut off either side, and no white space left at either end |
| `Text.BlankIffAllSpace` | public/src/App.js:315 | a string trims to empty exactly when every character is white space |
| `Text.TrimIdempotent` | public/src/App.js:329 | trimming twice is trimming once |
| `SeriesManager.ValidateSeries` | public/src/App.js:315-330 | "fill in all fields" exactly when the count text is empty or the description trims to empty; "valid number" exactly when those pass but the parse failed or gave a count of 0 or less; on success the request holds the chosen source, the parsed positive count and the trimmed, non-blank description |
| `SeriesManager.BlankDescriptionRefused` | public/src/App.js:315-318 | an all-white-space description is refused as missing whatever the count |
| `SeriesManager.RevalidateEmitted` | public/src/App.js:326-330 | re-submitting an emitted request, with the same count text, is accepted unchanged |
| `SeriesManager.PositiveCountAccepted` | public/src/App.js:315-330 | with both fields filled in, every positive parsed count is accepted, with the source and the trimmed description: no upper bound is checked |
| `SeriesManager.NoUpperBound` | public/src/App.js:320-324 | a count of 5000 passes the gate |
| `Reports.CurrentMonthMasses` | public/src/App.js:473-476 | exactly the user's masses dated in the given month and year, each as many times as it occurs among the user's masses |
| `Reports.PersonalCount` | public/src/App.js:499 | at most the month's total; 0 exactly when no mass of the month is personal; the whole total exactly when every one is |
| `Reports.BulkCount` | public/src/App.js:505 | at most the month's total; 0 exactly when no mass of the month has a bulk type; the whole total exactly when every one has |
| `Reports.MonthSummaryBounded` | public/src/App.js:494-505 | personal count plus bulk count is at most the month's total; every mass they count is the user's and of that month and year |
| `Reports.MassesByType` | public/src/App.js:478-481 | the accumulated map summarises the user's masses: a key for each type that occurs, holding that type's count; every entry is positive and the entries add up to the number of the user's masses |
| `Reports.SummaryEntries` | public/src/App.js:478-481 | a type is a key exactly when some mass has it, and its entry is then the positive number of masses of that type |
| `Reports.SummaryUnique` | public/src/App.js:478-481 | a list of masses has only one summary |
| `Reports.TypeCountsSum` | public/src/App.js:478-481 | the five per-type counts add up to the number of masses |
| `Reports.SummaryTotal` | public/src/App.js:514-519 | the entries of the all-time summary add up to the number of the user's masses |
| `Reports.SortNewestFirst` | public/src/App.js:539 | after the in-place sort the array is newest first and a permutation of what it held |
| `Reports.NewestPrefix` | public/src/App.js:540 | a prefix of a newest-first list is newest first, and nothing it leaves out is newer than anything it keeps |
| `Reports.RecentMasses` | public/src/App.js:538-540 | at most ten masses (all of them when fewer), all the user's, taken from the user's masses, newest first, none left out newer than one shown |
| `Dashboard.FindTracker` | public/src/App.js:71-73 | a found tracker is in the list and matches the user, month and year, and no earlier tracker matches; nothing is found exactly when no tracker matches |
| `Dashboard.OrDefault` | public/src/App.js:105 | the value itself when it is not 0, the default when it is; never 0 unless both are |
| `Dashboard.QuotaDisplay` | public/src/App.js:105 | no matching tracker gives 0 / 3; otherwise its completed count, and its required count unless that is 0, when 3 is shown; the required figure is never 0 |
| `Dashboard.NoTrackerShowsDefault` | public/src/App.js:105 | a user with no tracker for the month sees 0 / 3 |
| `Dashboard.TotalCelebrated` | public/src/App.js:111 | the total equals the sum of the all-time summary's entries for the user |
| `Dashboard.ActiveSeriesCount` | public/src/App.js:117 | at most the number of the user's series; equal to it exactly when all are active; 0 exactly when none of the user's series is active |
| `Dashboard.ActiveCountMatchesEntryForm` | public/src/App.js:117 | the dashboard's active count equals the number of series the entry form can record against (lines 165-167) |
| `Dashboard.Progress` | public/src/App.js:132 | progress plus remaining is the total; within 0..total when the remaining count is; 0 exactly when nothing has been celebrated |

## Left out

- Rendering, `useState`, the form resets after submit, `alert`, the login form, the sidebar and navigation: user interface with no checkable logic.
- The parent `App` component, with `onAddMass`, `onCreateBulkSeries`, notifications, the series decrement and tracker updates. `public/src/App.js` is cut off at line 592, so the model does not decrement a series, complete one, or make anything atomic.
- Resetting the chosen series when the mass type changes (public/src/App.js:218) is form plumbing. `MassEntry.OfferedChoiceIsRecorded` assumes the chosen id came from the offered list.
- `currentUser?.id` on a missing user: the user id is a plain string parameter.
- Storage, concurrency and transactions: the application keeps everything in in-memory arrays on a single thread.
- Progress-bar percentages (public/src/App.js:144, 455): floating-point division.
- JavaScript `Date`: date strings, `toISOString`, time zones of `getMonth`/`getFullYear`, `toLocaleDateString`. Dates are (year, month, day) triples ordered lexicographically, and the current month and year are parameters.
- `parseInt` string semantics (public/src/App.js:320): the parsed count is an `Option<int>` input, None standing for NaN.
- `Reports.RecentMasses`: the order masses with equal dates end up in is not stated. The sort the source calls is stable, so the model is weaker there.
- `Reports.RecentMasses`: the source sorts `userMasses` itself in place, while the model sorts a copy. The other reads of that array (public/src/App.js:473 and 478) come before the sort in the same render and do not depend on order, so the model does not follow the array across renders.
- `MassEntry.FindSeries`: series ids are taken to be strings. The chosen id comes from an option value, which is always a string, so a numeric `id` would never match under `===`; the model does not capture that case.
- `Reports.MassesByType`: the All Time Summary lists the types in the order each first occurs among the user's masses (public/src/App.js:514); the map the model returns has no order, so the row order is not modelled.
- `Reports.MassesByType`: mass types are the closed enumeration of the mass-type selector, not arbitrary strings, so the map's keys are `MassType` values.
- Dates of a series (`startDate`, `lastCelebratedDate`) and the stored masses' other fields are only displayed, so the records leave them out.
