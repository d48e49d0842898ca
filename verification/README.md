# CRM data service, modelled in Dafny

This project models the client-side data layer of a small CRM application.
The layer is `src/services/dataService.ts`. It keeps leads, contacts, deals,
properties, courses, tasks and an activity log as JSON arrays, one
`localStorage` key per collection. Every user sees only their own records.
Records are created with a generated id and timestamps. Updates and deletes
address a record by id and owner. Creations (except tasks) and deal stage
changes are written to the activity log. `getAnalytics` recomputes counts,
revenue and a conversion rate from the collections on every call.
`initializeSampleData` seeds a user who has no leads with a fixed set of
records. The model also covers the pure logic of the leads page
(`src/pages/Leads.tsx`): its case-insensitive search and its status cards.

The store is an immutable datatype with one sequence per storage key. Every
operation is a pure function from the store, plus the values it would draw
from the id generator and the clock, to the new store and the operation's
result.

Modules, in dependency order:

- `Wrappers`: `Option`.
- `Seqs`: order-preserving `Filter`, the model of `Array.prototype.filter`. It
  comes with its facts: membership, subsequence embedding, counting, and
  congruence.
- `Text`: ASCII case mapping, substring occurrence (`includes`) and decimal
  rendering.
- `Entities`: the record types, enumerations, the store, and `Partial<T>`
  updates.
- `Records`: the shared generic logic of reading, finding, updating and
  deleting one user's records.
- `Feed`: `getActivities`, i.e. filtering, the newest-first sort and the
  `slice`.
- `DataService`: the service's operations.
- `Analytics`: `getAnalytics`.
- `SampleData`: `initializeSampleData`.
- `LeadsPage`: the leads page's search and status cards.

## Model

| member | source | states |
|---|---|---|
| Records.Owned | src/services/dataService.ts:138-141 | every getter returns the stored records whose owner is the current user: only those, in stored order (a subsequence of the collection), as many as there are positions holding one |
| Records.FindTarget | src/services/dataService.ts:169-171 | `findIndex` on id and owner: -1 exactly when no record of the current user has the id, otherwise the first such position |
| Records.Merge | src/services/dataService.ts:173-177 | the spread update: fields the update supplies win, the others keep their old values, and `updatedAt` is always the update time |
| Records.UpdateTarget | src/services/dataService.ts:167-181 | no record addressed: null and an unchanged collection; otherwise only the first addressed position is replaced, by the merged record that is returned |
| Records.DeleteTargets | src/services/dataService.ts:183-191 | the kept records are exactly the unaddressed ones, in order; the result is true exactly when something was addressed, and the length drops by the number of addressed records |
| Records.NewRec | src/services/dataService.ts:145-151 | a new record carries the generated id, the current user as owner and the caller's fields |
| DataService.CreateActivity | src/services/dataService.ts:362-373 | one entry appended to the log, owned by the current user, with the given fields, a new id and the creation time; no other key written |
| DataService.CreateLead | src/services/dataService.ts:143-165 | the lead is appended with a new id, the current user and the given fields; exactly one "New lead created" entry relating to it is logged; only leads and log are written |
| DataService.CreateContact | src/services/dataService.ts:199-220 | as for leads, with "New contact added" |
| DataService.CreateDeal | src/services/dataService.ts:244-265 | as for leads, with "New deal created" |
| DataService.CreateProperty | src/services/dataService.ts:301-322 | as for leads, with "New property listed" |
| DataService.CreateCourse | src/services/dataService.ts:330-351 | as for leads, with "New course created" |
| DataService.CreateTask | src/services/dataService.ts:381-393 | the task is appended; nothing is logged and only the tasks key is written |
| DataService.UpdateLead | src/services/dataService.ts:167-181 | the first lead of the user with the id is merged with the update; null when there is none; only the leads key is written |
| DataService.UpdateContact | src/services/dataService.ts:222-236 | the same for contacts |
| DataService.UpdateTask | src/services/dataService.ts:395-409 | the same for tasks |
| DataService.UpdateDeal | src/services/dataService.ts:267-293 | the same for deals; a "Deal stage updated" entry relating to the deal is logged exactly when the update names a stage different from the deal's old one, and the log is untouched otherwise |
| DataService.DeleteLead | src/services/dataService.ts:183-191 | removes exactly the addressed leads; when nothing is addressed it returns false and the store is untouched |
| DataService.CreatedLeadIsAddressed | src/services/dataService.ts:143-171 | a lead created under an id the user does not yet use is the one a later update of that id finds |
| DataService.DeleteUndoesCreateLead | src/services/dataService.ts:143-191 | deleting a lead just created under an unused id restores the leads and reports true |
| DataService.DeleteLeadIdempotent | src/services/dataService.ts:183-191 | a second delete of the same id returns false and changes nothing |
| DataService.UpdateLeadIdempotent | src/services/dataService.ts:167-181 | repeating an update that does not touch id or owner, at the same time, yields the same store and result |
| Feed.MyActivities | src/services/dataService.ts:357 | the log entries kept are those of the current user: only those, in logged order, as many as there are positions holding one |
| Feed.InsertByTime | src/services/dataService.ts:358 | insertion into a newest-first list keeps it newest first and is a permutation plus the new entry |
| Feed.SortNewestFirst | src/services/dataService.ts:358 | the sort's result is newest first and a permutation of its input |
| Feed.SliceEnd | src/services/dataService.ts:359 | `slice(0, limit)` with a non-negative limit keeps at most `limit` entries and fewer only when the list runs out; a negative limit drops the last `-limit` entries, or all when there are fewer |
| Feed.NewestPrefix | src/services/dataService.ts:358-359 | a prefix of the sorted entries keeps the order, is drawn from them, and leaves out nothing newer than what it keeps |
| Feed.GetActivities | src/services/dataService.ts:354-360 | only the user's entries, newest first, a sub-multiset of them, of length `slice` gives (at most `limit`), and no omitted entry is newer than a returned one |
| Analytics.LeadsWithStatus | src/services/dataService.ts:438-445 | a status count is the number of positions holding a lead with that status |
| Analytics.DealsInStage | src/services/dataService.ts:446-453 | a stage count is the number of positions holding a deal in that stage |
| Analytics.LeadStatusesPartition | src/services/dataService.ts:438-445 | the six status counts add up to the number of leads |
| Analytics.DealStagesPartition | src/services/dataService.ts:446-453 | the six stage counts add up to the number of deals |
| Analytics.OpenDealsAreUnclosed | src/services/dataService.ts:434 | open deals are all deals minus the won and the lost ones |
| Analytics.RevenueIsWonValue | src/services/dataService.ts:422-424 | filter-then-sum revenue equals a single pass adding each won deal's value (missing as 0) |
| Analytics.ConversionRate | src/services/dataService.ts:426-436 | `Math.round` of the converted percentage: 0 without leads, within half a point of the exact percentage, between 0 and 100, 0 with no conversions and 100 when all converted |
| Analytics.StatusCounts | src/services/dataService.ts:438-445 | one count per status, summing to the number of leads |
| Analytics.StageCounts | src/services/dataService.ts:446-453 | one count per stage, summing to the number of deals, and consistent with the open-deal count |
| Analytics.Recent | src/services/dataService.ts:437 | the first ten entries of the newest-first list, or all of them when there are fewer |
| Analytics.GetAnalytics | src/services/dataService.ts:412-455 | totals are the user's collection sizes; the per-key counts partition them; open deals exclude the two closed stages; revenue is the won deals' value; the rate is a rounded percentage in 0..100; recent entries are the first ten of the user's newest-first feed, or all of it when shorter |
| SampleData.AddSampleLeads | src/services/dataService.ts:463-498 | the three sample leads are appended, in order, each logged |
| SampleData.AddSampleContact | src/services/dataService.ts:501-515 | the sample contact, last contacted two days before its creation, is appended and logged |
| SampleData.AddSampleDeals | src/services/dataService.ts:518-539 | the two sample deals are appended and logged |
| SampleData.AddSampleTasks | src/services/dataService.ts:542-561 | the two sample tasks are appended, unlogged |
| SampleData.Seed | src/services/dataService.ts:462-561 | seeding appends three leads, one contact, two deals, two tasks and six log entries of the user, and touches nothing else |
| SampleData.InitializeSampleData | src/services/dataService.ts:458-562 | a user who has leads is left alone; a user who has none is seeded, after which their leads are exactly the three sample leads |
| SampleData.SeededLeadsOwned | src/services/dataService.ts:138-141 | appending records of the current user extends their view by exactly those records |
| SampleData.SeedLeavesThreeLeads | src/services/dataService.ts:459-498 | after a seeding run, the user's leads are their old ones followed by the three sample leads |
| SampleData.InitializeIsIdempotent | src/services/dataService.ts:459-460 | a second initialisation changes nothing, whatever values it would draw |
| Seqs.Filter | src/services/dataService.ts:140 | the filter result is no longer than its input and every kept element satisfies the predicate |
| Seqs.FilterEmbedding | src/services/dataService.ts:140 | the kept elements sit in the input at strictly increasing positions, exactly the positions whose element satisfies the predicate |
| Seqs.FilterMembership | src/services/dataService.ts:140 | an element is kept exactly when it is in the input and satisfies the predicate |
| Seqs.FilterKeepsAllIff | src/services/dataService.ts:185-187 | the filter keeps the length exactly when every element satisfies the predicate, and is then the identity |
| Seqs.CountComplement | src/services/dataService.ts:185-187 | elements satisfying a predicate and its negation together count the whole input |
| Seqs.CountIsIndexSetSize | src/services/dataService.ts:439 | a filtered length is the number of positions whose element satisfies the predicate |
| Text.Lower | src/pages/Leads.tsx:83-85 | lower-casing keeps the length, leaves no capital letter, and changes each character at most in its case |
| Text.LowerForgetsCase | src/pages/Leads.tsx:83-85 | lower-casing after upper- or lower-casing is plain lower-casing |
| Text.Includes | src/pages/Leads.tsx:83-85 | the scan reports true exactly when the needle occurs at some position of the haystack |
| Text.DecimalRoundTrip | src/services/dataService.ts:259 | the decimal digits of an amount read back as the amount |
| Text.IntToDecimal | src/services/dataService.ts:259 | a rendered amount starts with a minus sign exactly when it is negative, and the digits after it spell its magnitude |
| LeadsPage.FilteredLeads | src/pages/Leads.tsx:82-86 | the rows listed are those whose name, email or company contains the term ignoring case: only those, in their original order, one per matching position |
| LeadsPage.RowMatches | src/pages/Leads.tsx:83-85 | the three substring scans decide the search rule |
| LeadsPage.SearchLeads | src/pages/Leads.tsx:82-86 | the loop over the rows computes the same list as the filter |
| LeadsPage.EmptySearchKeepsAll | src/pages/Leads.tsx:79-86 | with the empty initial search term every row is listed |
| LeadsPage.SearchIgnoresCase | src/pages/Leads.tsx:82-86 | a term typed in capitals or in lower case lists the same rows |
| LeadsPage.SearchDependsOnLowerCase | src/pages/Leads.tsx:82-86 | terms that lower-case alike list the same rows |
| LeadsPage.StatusCard | src/pages/Leads.tsx:120-124 | a status card counts the rows with that status, never more than the total |
| LeadsPage.CardsWithinTotal | src/pages/Leads.tsx:106-137 | the "New Leads" and "Qualified" cards together never exceed the "Total Leads" card |
| LeadsPage.MockCards | src/pages/Leads.tsx:22-67 | on the page's own rows the cards read 4 total, 1 new, 1 qualified |

## Left out

- Storage I/O: `getItems`/`setItems` (src/services/dataService.ts:119-135) read and write JSON in `localStorage`. The model keeps typed sequences instead. A missing or unparsable key reads as the empty collection, which here is the initial store. A failed write is only logged by the source and is not modelled.
- `generateId` and `new Date()`: the id and the clock reads are parameters (`Fresh`, `LogStamp`, and the sample clock values). Ids are assumed unique only where a lemma says so. Randomness and the system clock are not modelled.
- Timestamps: ISO date strings are modelled as integer milliseconds, which is what `new Date(...).getTime()` recovers when sorting. The string format itself is not modelled.
- Asynchronous sequencing: each operation is modelled as atomic. Interleavings of concurrent calls, and the separate reads `Promise.all` issues in `getAnalytics`, are not modelled.
- `getProperties` and `getCourses` are modelled as getters. `getAnalytics` reads them but does not use them, so they have no separate contract.
- The record interfaces (src/services/dataService.ts:4-105) are modelled as datatypes. The `blink` import is unused and is not part of this model.
- Records.Merge: a `Partial<T>` that sets a required field to `undefined` cannot be expressed. Required fields are either replaced or kept, optional fields can also be cleared, and a supplied `updatedAt` is dropped because the source always overwrites it.
- Feed.SortNewestFirst: the contract states order and permutation but not stability. The model sorts stably, as current JavaScript engines do.
- Analytics.ConversionRate: computed on exact rationals. The floating-point rounding error of `(c / n) * 100` before `Math.round` is not modelled.
- Analytics.SumValues: `deal.value || 0` over integer values. Fractional amounts and `NaN` are not modelled.
- Text.Lower: ASCII case mapping only. JavaScript's `toLowerCase` follows full Unicode case mapping.
- Text.IntToDecimal: `toLocaleString` is rendered as plain decimal, without locale digit grouping or fractional digits.
- Activity descriptions of updates other than deal stage changes: the source logs none, so none are modelled.
- The rest of the application (src/hooks/useData.ts, the other pages, the layout and routing) is not part of this model. Neither is the leads page's rendering: badges, colours, the table and the dropdown menus.
