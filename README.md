# Freelance Work Tracker — verified model of the order ledger and account storage

The Freelance Work Tracker is a single-page browser application in which a
freelancer records orders (a title, an employer, a date assigned, pages and
an amount in Kenyan shillings) and moves each one through the states
active, submitted and completed. The application totals the amounts per
state, measures completed earnings against a monthly target of KSh 28,500
(expenses of 18,500 plus savings of 10,000), lists the orders newest first
under a status filter, and summarises a month. A second layer adds accounts:
a session record in browser storage that is accepted for 24 hours unless
"remember me" was chosen, and per-user storage keys prefixed with
`freelance_user_<id>_`. Each time the signed-in tracker is built, a
migration copies the older unprefixed entries into the user's space again,
overwriting earlier copies.

This project models that core in Dafny and proves properties of it.

| file | module | models |
|---|---|---|
| `seqs.dfy` | `Seqs` | `Option`, and `Filter` with the laws of `Array.prototype.filter` |
| `ledger.dfy` | `Ledger` | orders, totals per status, progress, status change, delete, the sorted and filtered view, per-month statistics, the parsed backup file |
| `tracker.dfy` | `Tracker` | class `FreelanceTracker`: the list and the filter, and the commands that change them |
| `storage.dfy` | `Storage` | class `WebStorage` (localStorage and sessionStorage), per-user keys, first-occurrence `String.prototype.replace`, class `UserDataManager` and its migration |
| `auth.dfy` | `Auth` | the stored session, its expiry, class `AuthManager` |
| `auth_tracker.dfy` | `AuthTracker` | class `AuthenticatedTracker`: the per-user loaders and savers, the restore that also replaces employers, and the clear that asks for the word DELETE |

Modelling choices:

- The list reductions of the source (`reduce`, `filter`) are recursive
  functions that peel the last element. Appending an order then appends to
  every result.
- Every command that changes the list ends, as in the source, by
  re-rendering. Under the filter `all`, `renderOrders` sorts `this.orders`
  itself in place, because `filteredOrders` is the same array. Under any
  other filter it sorts a filtered copy.
  - `Ledger.AfterRender` states that effect.
  - Every command's postcondition goes through it.
- The sort is the stable sort of the ECMAScript standard. It is modelled as
  an insertion sort that keeps equal timestamps in their original order.
- Browser dialogs are parameters: `confirm` is a `bool`, and `prompt` is an
  `Option<string>` whose `None` means the dialog was dismissed.
- The clock is an integer parameter in milliseconds.
- `JSON.parse` and `JSON.stringify` are parameters:
  - a parsed session or backup comes in as a value;
  - the savers and loaders take an `AuthTracker.Codec`.

The model keeps the code's own, laxer, behaviour:

- `updateOrderStatus` with an unknown id does nothing and raises no error.
- `deleteOrder` with an unknown id empties nothing and raises no error.
- Order fields are not validated.
- The plain restore checks only that `orders` is an array.
- The account restore checks only that `orders` and `employers` are truthy.
- The migration writes the capitalised names `Orders`, `Employers` and
  `CollapsedSections`. The account loaders read `orders`, `employers` and
  `collapsedSections`, so they never see the migrated copies
  (`Storage.LoadersIgnoreMigration`).

## Model

| member | source | states |
|---|---|---|
| Ledger.TotalsConserveAmount | script.js:138-143 | the three status totals add up to the sum of all amounts: nothing is lost or counted twice |
| Ledger.TotalsBucket | script.js:138-143 | each status total is the sum of the amounts of exactly the orders with that status |
| Ledger.EmptyBucket | script.js:138-143 | a status no order has totals 0 |
| Ledger.TotalsAppend | script.js:138-143 | the totals of a concatenation are the bucket-wise sum of the totals of the parts |
| Ledger.TotalsPermutation | script.js:138-143 | two lists that are permutations of each other have the same totals, so order does not matter |
| Ledger.ProgressPercentage | script.js:128-129 | the progress lies in [0, 100]; it is 100 exactly when completed earnings reach 28,500, and below that it is completed/28,500 × 100 |
| Ledger.RemainingAmount | script.js:130 | the remaining amount is 0 exactly when the target is reached; otherwise it is what completed earnings lack of 28,500 |
| Ledger.ProgressMonotone | script.js:128-130 | more completed earnings never lower the progress and never raise the remaining amount |
| Ledger.CalculateTotals | script.js:138-143 | the reduce into three buckets; its meaning is stated by TotalsConserveAmount, TotalsBucket, TotalsAppend and TotalsPermutation |
| Ledger.FinancialOverview | script.js:119-136 | the overview holds the per-status totals, the progress and the remaining amount of the completed total; the progress lies in [0, 100]; the totals add up to all amounts; the progress is 100 exactly when nothing remains, which is exactly when completed reaches the target |
| Ledger.FindOrder | script.js:100 | Array.find by id: the first matching index; None exactly when no order has the id |
| Ledger.UpdatedStatus | script.js:99-102 | the first order with the id gets the new status; every other order and the length are unchanged; an unknown id changes nothing |
| Ledger.StatusChangeTotals | script.js:99-104 | a status change moves the order's amount from its old bucket to its new one and leaves everything else in the totals |
| Ledger.RemoveOrder | script.js:111 | after delete, an order is present exactly when it was present and has another id |
| Ledger.RemoveOrderSpec | script.js:111 | delete keeps every other order as often as it occurred and drops every copy with the id; it distributes over concatenation and a second delete changes nothing |
| Ledger.RemoveUnknownOrder | script.js:109-111 | deleting an id no order has leaves the list as it was |
| Ledger.InsertNewestFirstSpec | script.js:161 | inserting into a newest-first list adds exactly that order and keeps the list newest first |
| Ledger.SortNewestFirst | script.js:161 | the sorted list is a permutation of its input and is ordered by descending creation time |
| Ledger.SortStable | script.js:161 | the sort is stable: orders with equal creation time keep their relative order |
| Ledger.SortSorted | script.js:161 | sorting a list that is already newest first changes nothing |
| Ledger.VisibleOrders | script.js:149-152 | the list itself under `all`, otherwise the orders of one status; OrdersView states what is shown |
| Ledger.OrdersView | script.js:149-161 | the orders shown are newest first, a permutation of the filtered list, and contain exactly the orders of the chosen status, or every order under `all` |
| Ledger.RenderAllKeepsTotals | script.js:149-161 | sorting the list in place under `all` does not change the totals |
| Ledger.AfterRender | script.js:149-161 | rendering leaves a permutation of the list: sorted newest first under `all`, untouched under a status filter |
| Ledger.AfterRenderSpec | script.js:145-168 | rendering keeps the totals, and rendering twice leaves the list as rendering once does |
| Ledger.GetMonthlyStats | script.js:379-392 | the month's statistics count its orders and sum their pages; the active and completed counts are the numbers of that month's orders with those statuses, together never more than the total; the earnings are the completed total of that month's orders and never exceed all their amounts |
| Ledger.MonthOrders | script.js:380-383 | the orders assigned in the month; MonthOrdersSelect states which |
| Ledger.CompletedEarnings | script.js:387 | the earnings reduce; CompletedEarningsIsBucket states its value |
| Ledger.CompletedEarningsIsBucket | script.js:387 | the monthly earnings reduce equals the completed bucket of calculateTotals on the same orders |
| Ledger.MonthOrdersSelect | script.js:380-383 | an order is in the month's list exactly when it is in the list and was assigned in that year and 0-based month |
| Tracker.FreelanceTracker.constructor | script.js:4-9 | the tracker starts with the loaded orders and the filter `all` |
| Tracker.FreelanceTracker.CalculateTotals | script.js:138-143 | the object's totals are the ledger totals of its list and add up to all its amounts |
| Tracker.FreelanceTracker.FinancialOverview | script.js:119-136 | the object's overview has progress in [0, 100], and 100 exactly when the target is reached |
| Tracker.FreelanceTracker.GetMonthlyStats | script.js:379-392 | the object's monthly statistics are the ledger statistics of its list |
| Tracker.FreelanceTracker.RenderOrders | script.js:145-168 | returns the filtered orders newest first, or nothing when none match; the list itself is re-sorted exactly when the filter is `all` |
| Tracker.FreelanceTracker.SetFilter | script.js:56-61 | the filter button stores the filter and renders with it |
| Tracker.FreelanceTracker.AddOrder | script.js:76-92 | one active order with the given fields is appended, then the list is rendered; the filter is kept |
| Tracker.FreelanceTracker.UpdateOrderStatus | script.js:99-107 | an unknown id changes nothing; otherwise the first match gets the status and the list is rendered |
| Tracker.FreelanceTracker.DeleteOrder | script.js:109-117 | with confirmation every order with the id is removed and the list rendered; without it nothing changes |
| Tracker.FreelanceTracker.ClearAllData | script.js:315-323 | with confirmation the list becomes empty; without it nothing changes |
| Tracker.FreelanceTracker.RestoreFromFile | script.js:346-376 | a file that does not parse, or whose orders is not an array, is a format error; an accepted file without confirmation is declined; only a confirmed accepted file replaces the list, which is then rendered |
| Tracker.AddOrderTotals | script.js:76-92 | adding an order raises the active total by its amount and leaves the progress unchanged |
| Storage.UserDataManager.constructor | auth.js:228-231 | the manager keeps the user id, and its prefix is `freelance_user_<id>_` |
| Storage.UserDataManager.GetItem | auth.js:234-236 | reads localStorage at the user's prefixed key |
| Storage.UserDataManager.SetItem | auth.js:238-240 | writes that one prefixed key and nothing else |
| Storage.UserDataManager.RemoveItem | auth.js:242-244 | removes that one prefixed key and nothing else |
| Storage.UserPrefix | auth.js:230 | the prefix `freelance_user_<id>_`; UserKeysDiffer and UserKeysSeparate state what it separates |
| Storage.UserKey | auth.js:234-244 | the prefix followed by the key; UserKeysDiffer, UserKeysSeparate and UserKeysAvoidSharedKeys state its properties |
| Storage.UserKeysDiffer | auth.js:230-244 | different keys of one user never share a storage entry |
| Storage.UserKeysSeparate | auth.js:230 | when neither user id contains `_`, two users' prefixed keys coincide only for the same user and key |
| Storage.UserKeysCanCollide | auth.js:230 | with an underscore in an id, two different users can reach the same storage key |
| Storage.UserKeysAvoidSharedKeys | auth.js:230 | no per-user key is the session key or one of the three legacy keys |
| Storage.FirstMatch | auth.js:253 | the first position where the pattern occurs, or None when it occurs nowhere, as the first-occurrence replace needs |
| Storage.ReplaceFirst | auth.js:253 | replaces the first occurrence given by FirstMatch, and nothing when there is none; MigratedKeys states its effect on the legacy keys |
| Storage.MigrateKeys | auth.js:250-256 | the migration steps in order, each reading what the previous left; MigrationEffect states the result key by key |
| Storage.MigratedKeys | auth.js:248-253 | replacing the first "freelance" turns the legacy keys into `Orders`, `Employers` and `CollapsedSections` |
| Storage.MigrationEffect | auth.js:247-256 | after migration the three capitalised user keys hold the truthy legacy values; every other key, the legacy ones included, reads as before |
| Storage.LoaderKeyUntouched | auth.js:247-256 | a per-user key that starts with a lower-case letter reads the same after migration |
| Storage.LoadersIgnoreMigration | auth.js:390-434 | the three account loaders read the same entries before and after the migration |
| Storage.UserDataManager.MigrateExistingData | auth.js:247-256 | localStorage becomes the legacy keys' migration applied in order, each step reading what the previous one left |
| Auth.StoredSession | auth.js:17-24 | the localStorage entry wins when it is non-empty, else a non-empty sessionStorage entry; None when neither is non-empty |
| Auth.Expired | auth.js:31-37 | more than 24 hours old and not remembered; SessionAge, RememberedNeverExpires and ExpiryIsFinal state its behaviour |
| Auth.CheckSession | auth.js:26-40 | the result of the check for a stored value; SessionAge and RememberedNeverExpires state when it accepts |
| Auth.SessionAge | auth.js:31-40 | a session that is not remembered is accepted exactly while it is at most 24 hours old, and expired after that |
| Auth.RememberedNeverExpires | auth.js:37 | a remembered session, or one whose login time is not a valid date, is accepted at every moment |
| Auth.ExpiryIsFinal | auth.js:37 | once a session has expired it stays expired |
| Auth.AuthManager.constructor | auth.js:5-7 | no user is current before the check |
| Auth.AuthManager.Logout | auth.js:142-145 | the session entry is removed from both stores and nothing else |
| Auth.AuthManager.CheckAuthStatus | auth.js:15-51 | true exactly for a parsed, unexpired session; the current user is taken from any parsed session, expired or not; an unreadable or expired session is logged out; a missing one changes nothing |
| AuthTracker.LoadOrDefault | auth.js:390-434 | a missing or empty entry, or one that does not parse, yields the default; otherwise the parsed value |
| AuthTracker.AuthenticatedTracker.LoadOrders | auth.js:390-398 | a missing or empty entry, or one that does not parse, gives no orders; otherwise the parsed orders |
| AuthTracker.AuthenticatedTracker.LoadEmployers | auth.js:408-416 | a missing or empty entry, or one that does not parse, gives Joe Mac and Brian Oyaro; otherwise the parsed employers |
| AuthTracker.AuthenticatedTracker.LoadCollapsedSections | auth.js:426-434 | a missing or empty entry, or one that does not parse, gives no collapsed section; otherwise the parsed flags |
| AuthTracker.AuthenticatedTracker.SaveOrders | auth.js:400-406 | writes the encoded orders under the user's `orders` key only |
| AuthTracker.AuthenticatedTracker.SaveEmployers | auth.js:418-424 | writes the encoded employers under the user's `employers` key only |
| AuthTracker.AuthenticatedTracker.SaveCollapsedSections | auth.js:436-442 | writes the encoded flags under the user's `collapsedSections` key only |
| AuthTracker.SavedSpec | auth.js:400-442 | saving the three values leaves every other storage entry as it was, and with a round-tripping codec each loader reads back the saved value |
| AuthTracker.AuthenticatedTracker.SaveAll | auth.js:502-504 | storage becomes the three encoded values under the user's keys, every other entry unchanged; given a round-tripping codec each loader returns the saved value |
| AuthTracker.AuthenticatedTracker.RestoreFromFile | auth.js:473-521 | a file that does not parse, or lacks orders or employers, is a format error; a confirmed file replaces orders, employers and the flags (default empty) and saves them under the user's three keys with every other storage entry unchanged, so the loaders return the file's values, in file order; the list in memory is then re-rendered |
| AuthTracker.AuthenticatedTracker.ClearAllData | auth.js:524-546 | only the answer DELETE clears the data; it resets orders to empty, employers to the two defaults and the flags to empty, and saves them under the user's three keys with every other storage entry unchanged; any other answer, or a dismissed prompt, changes nothing |

## Left out

- The DOM is not modelled. This covers order cards, notifications, the
  user menu, styles and the progress bar's width. `RenderOrders` returns the
  list it would show instead.
- Navigation is not modelled: the redirect to the login page and the
  logout redirect.
- File input, `FileReader` and the download in `backupData` are not
  modelled. A restore receives the backup already parsed.
- `JSON.parse` and `JSON.stringify` are parameters. A stored value that
  parses to a value of another shape is outside the `Codec` types.
- Tracker.FreelanceTracker.AddOrder: the source takes the id from
  `Date.now()` and `dateCreated` from `new Date()`. Both are given as
  parameters. `parseInt`/`parseFloat` can yield `NaN`, negative numbers
  and, from `parseFloat`, fractional amounts. The model does not include
  them, because amounts are natural numbers and pages are integers.
- Ledger.ProgressPercentage: computed in exact real arithmetic, not IEEE
  doubles. The display of `Math.round` and `toLocaleString` is left out.
- Ledger.Date: `new Date(dateAssigned)` parses a date-only string as UTC,
  then `getMonth` reads local time. The model takes the year and month as
  written, without that time-zone shift.
- Auth.Expired: the source divides by 3,600,000 in floating point. The
  model compares milliseconds with 86,400,000 exactly.
- The saves after `addOrder`, `updateOrderStatus`, `deleteOrder` and the
  plain `clearAllData`/`restoreFromFile` are not modelled. So is the plain
  `loadOrders`/`saveOrders` pair on the unprefixed key (script.js:290-312).
  The account saves are modelled in `AuthTracker`.
- AuthTracker.AuthenticatedTracker.RestoreFromFile, AuthTracker.AuthenticatedTracker.ClearAllData:
  the model assumes that `updateFinancialSummary` (auth.js:507, auth.js:539)
  exists and returns normally. Neither script.js nor auth.js defines it. If
  it is missing, the call throws before `renderOrders`. Restore then leaves
  the list in file order and reports an error; clear lets the exception
  escape after its saves. The model renders and reports success instead.
- AuthTracker.AuthenticatedTracker.RestoreFromFile: requires that a
  backup's `orders` and `employers` are not truthy non-arrays. The source
  stores such a value as it is. The model's lists cannot hold it.
- A backup may also carry statuses other than the three, or orders with
  missing fields. The order record does not represent either.
- The constructors' wiring is not modelled: `init`, event listeners, and
  `AuthenticatedFreelanceTracker`'s constructor running `checkAuthStatus`
  and the migration before `super()`. Each step is modelled as its own
  method.
- The tracker's other features are not core and are left out: employers'
  summaries, payments, tithe calculation, collapsible sections' UI, backup
  export and the sample data.
