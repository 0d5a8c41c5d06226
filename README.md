# Personal finance ledger, modelled in Dafny

This project models the in-memory ledger of a small personal-finance tracker. The tracker has two classes.

- **`Record`** is a mutable entry with five fields: a date string, a type ("INCOME", "EXPENSE" or anything else), a category, a description and an amount. There is no setter for the date, so the model makes it a `const`. The other four fields are `var`s that the setters overwrite in place. The Java field `type` is called `kind` here because `type` is a Dafny keyword.
- **`RecordManager`** keeps all records in a list, in insertion order. It also keeps a FIFO queue of recent records, which the summaries read. Both sequences hold the same `Record` objects:
  - an edit through `editRecord` is seen through the queue;
  - `deleteRecord` takes records out of the list only, so deleted records stay queued and are still summarised.

The modules are:

- `Wrappers`: `Option` and `Outcome`.
- `Text`: ASCII `equalsIgnoreCase` and `String.contains`.
- `Dates`: the date format and the clock.
- `Records`: the `Record` class.
- `Streams`: the stream pipelines. One `Select` with a `Criterion` datatype stands for every filter lambda. One stable insertion `Sort` with a `SortKey` stands for each comparator. `SignedSum` is the balance sum.
- `Ledger`: the `RecordManager` class, plus the specification functions for eviction (`StaleRun`, `Evict`) and for the summary (`Recent`, `RecentIncome`, `RecentExpenses`, `SummaryOf`, `TallyOf`).
- `Scenario`: a two-record walk-through. It adds a salary and groceries, takes the balance, filters, sorts, edits, deletes and summarises.

Environment and parameters:

- The date format `SimpleDateFormat("yyyy-MM-dd")` is a parameter `parse: string -> Option<int>`. It maps a date string to a day number, and `None` stands for a `ParseException`.
- A parsed date is that day's midnight, `day * 86_400_000` milliseconds.
- The wall clock (`Calendar.getInstance()`) is a parameter `now`, in milliseconds.
- The cutoff is `now - days * 86_400_000`. It keeps the time of day, so:
  - a queued record is stale, and is popped once it reaches the head of the queue, when "day ≤ today − 30";
  - a summary counts "day > today − days";
  - both differ only at exactly midnight (`StaleIsOldDay`, `CountedIsRecentDay`).
- Amounts are integers (cents). The average is a `real`.
- `printSummary` becomes `Summarize`, which returns the four printed values as a `Summary`.

`deleteRecord` removes records from the list only, so the queue need not be a subsequence of the list; `Scenario.EditAndDelete` ends with the list `[salary]` and the queue `[salary, groceries]`.

## The two copies

The source has two copies of each class that differ only in comments and line numbers. Each row of the table cites one copy. The same code in the other copy is at these lines:

| operation | PersonalFinanceTracker/src/personalfinancetracker/RecordManager.java | src/personalfinancetracker/RecordManager.java |
|---|---|---|
| constructor | 17-21 | 15-19 |
| addRecord | 24-28 | 21-25 |
| getAllRecords | 31-33 | 27-29 |
| searchRecordsByDate | 45-49 | 39-43 |
| editRecord | 52-71 | 45-64 |
| deleteRecord | 74-76 | 66-68 |
| filterByType / filterByCategory | 79-90 | 71-81 |
| filterByDateRange | 93-107 | 83-97 |
| sortByDate / sortByAmount | 110-128 | 100-117 |
| searchByDescription | 131-135 | 120-124 |
| calculateBalance | 138-142 | 127-131 |
| updateRecentRecordsQueue | 145-166 | 134-154 |
| printSummary | 169-199 | 157-187 |

| operation | PersonalFinanceTracker/src/personalfinancetracker/Record.java | Record.java |
|---|---|---|
| fields | 6-10 | 5-9 |
| constructor | 13-19 | 11-17 |
| getters | 22-44 | 19-37 |
| setters | 47-64 | 39-53 |

## Model

| member | source | states |
|---|---|---|
| Records.Record.constructor | PersonalFinanceTracker/src/personalfinancetracker/Record.java:13-19 | the new record holds exactly the five given values |
| Records.Record.GetDate | Record.java:19-21 | returns the date and changes nothing; the date is a `const`, because no method writes it |
| Records.Record.GetType | PersonalFinanceTracker/src/personalfinancetracker/Record.java:27-29 | returns the current type and changes nothing |
| Records.Record.GetCategory | PersonalFinanceTracker/src/personalfinancetracker/Record.java:32-34 | returns the current category and changes nothing |
| Records.Record.GetDescription | Record.java:31-33 | returns the current description and changes nothing |
| Records.Record.GetAmount | PersonalFinanceTracker/src/personalfinancetracker/Record.java:42-44 | returns the current amount and changes nothing |
| Records.Record.SetType | PersonalFinanceTracker/src/personalfinancetracker/Record.java:47-49 | sets the type; the other fields keep their values |
| Records.Record.SetCategory | Record.java:43-45 | sets the category; the other fields keep their values |
| Records.Record.SetDescription | PersonalFinanceTracker/src/personalfinancetracker/Record.java:57-59 | sets the description; the other fields keep their values |
| Records.Record.SetAmount | Record.java:51-53 | sets the amount; the other fields keep their values |
| Ledger.RecordManager.constructor | PersonalFinanceTracker/src/personalfinancetracker/RecordManager.java:17-21 | an empty list and an empty queue; the invariant holds |
| Ledger.RecordManager.AddRecord | PersonalFinanceTracker/src/personalfinancetracker/RecordManager.java:24-28 | appends one fresh record holding the given values, with earlier entries and their order unchanged. When the date parses, the queue becomes the old queue plus the new record, without its stale head run (a back-dated record can be popped at once). When it does not parse, the record stays listed, the queue is unchanged and the exception is returned |
| Ledger.RecordManager.GetAllRecords | PersonalFinanceTracker/src/personalfinancetracker/RecordManager.java:31-33 | returns the list of all records |
| Ledger.RecordManager.SearchRecordsByDate | src/personalfinancetracker/RecordManager.java:39-43 | an order-preserving subsequence of the list, holding exactly the records whose date string equals the argument, each as often as it is listed |
| Ledger.RecordManager.EditRecord | PersonalFinanceTracker/src/personalfinancetracker/RecordManager.java:52-71 | true iff some record's date string equals the argument. Only the first such record changes: each given non-empty text field replaces its field, and an amount ≥ 0 replaces the amount. Every other record keeps all its fields |
| Ledger.RecordManager.DeleteRecord | PersonalFinanceTracker/src/personalfinancetracker/RecordManager.java:74-76 | the list becomes the old list without the records whose date string equals the argument, survivors in their order. Returns true iff one was removed. The queue is unchanged |
| Ledger.RecordManager.FilterByType | PersonalFinanceTracker/src/personalfinancetracker/RecordManager.java:79-83 | an order-preserving subsequence of the input, holding exactly the records whose type equals the key ignoring case, each as often as it occurs |
| Ledger.RecordManager.FilterByCategory | PersonalFinanceTracker/src/personalfinancetracker/RecordManager.java:86-90 | an order-preserving subsequence of the input, holding exactly the records whose category equals the key ignoring case, each as often as it occurs |
| Ledger.RecordManager.FilterByDateRange | src/personalfinancetracker/RecordManager.java:83-97 | an order-preserving subsequence holding exactly the records with start ≤ date ≤ end, both ends included; a record whose date or either bound does not parse is excluded; each kept record as often as it occurs |
| Ledger.RecordManager.SortByDate | src/personalfinancetracker/RecordManager.java:100-111 | a permutation of the input. When all dates parse it is latest first, and the records of each day keep their input order |
| Ledger.RecordManager.SortByAmount | PersonalFinanceTracker/src/personalfinancetracker/RecordManager.java:124-128 | a permutation of the input with non-increasing amounts, equal amounts in input order |
| Ledger.RecordManager.SearchByDescription | src/personalfinancetracker/RecordManager.java:120-124 | an order-preserving subsequence holding exactly the records whose description contains the fragment, case-sensitively, each as often as it occurs |
| Ledger.RecordManager.CalculateBalance | PersonalFinanceTracker/src/personalfinancetracker/RecordManager.java:138-142 | the total of the "INCOME" records (ignoring case) minus the total of the records of every other type, over the whole list |
| Ledger.RecordManager.UpdateRecentRecordsQueue | PersonalFinanceTracker/src/personalfinancetracker/RecordManager.java:145-166 | when the new record's date does not parse, returns the exception with the queue untouched. Otherwise the queue becomes the old queue plus the new record, without its stale head run; every queued date still parses |
| Ledger.RecordManager.Summarize | src/personalfinancetracker/RecordManager.java:157-182 | the loop's result equals `SummaryOf` over the whole queue: income and expense totals of the records not before the cutoff, their count, and expenses/count or 0 |
| Ledger.StaleRun | PersonalFinanceTracker/src/personalfinancetracker/RecordManager.java:154-165 | the number of records the eviction loop pops: every one of them is stale, and the record after them is not |
| Ledger.StaleRunUnique | PersonalFinanceTracker/src/personalfinancetracker/RecordManager.java:154-165 | any prefix of stale records followed by a non-stale one (or the end) has exactly `StaleRun`'s length |
| Ledger.EvictIsFreshSuffix | PersonalFinanceTracker/src/personalfinancetracker/RecordManager.java:151-165 | the evicted queue is a suffix of the pushed queue (only the head is popped), and it is empty or its head is not stale |
| Ledger.EvictKeepsFreshHead | src/personalfinancetracker/RecordManager.java:142-153 | when the head is not stale nothing is popped, even if stale records are queued behind it, so the queue need not be date-sorted |
| Ledger.StaleIsOldDay | PersonalFinanceTracker/src/personalfinancetracker/RecordManager.java:146-157 | a queued record is stale (popped once it reaches the head of the queue) iff its day ≤ today − 30, or its day < today − 30 at exactly midnight |
| Ledger.EvictKeepsFreshTail | PersonalFinanceTracker/src/personalfinancetracker/RecordManager.java:151-165 | a record at the tail that is not stale survives eviction and is still the tail afterwards |
| Ledger.DeleteUndoesAppend | PersonalFinanceTracker/src/personalfinancetracker/RecordManager.java:74-76 | removing every record with the date of a just-appended record gives back the earlier list, when no earlier record has that date |
| Ledger.CountedIsRecentDay | src/personalfinancetracker/RecordManager.java:158-169 | a summary counts a record iff its date parses and its day > today − days, or its day ≥ today − days at exactly midnight |
| Ledger.SummaryOfSnoc | src/personalfinancetracker/RecordManager.java:166-176 | one more queued record adds 1 to the count when counted, and adds its amount to the income total or the expense total according to its type |
| Ledger.TallyIsRecent | src/personalfinancetracker/RecordManager.java:166-180 | the running totals of the summary loop over a queue are the declarative income total, expense total and count of its recent records |
| Ledger.IncomeIsNotExpense | src/personalfinancetracker/RecordManager.java:171-175 | no type is both "INCOME" and "EXPENSE" ignoring case, so the `else if` order loses nothing |
| Streams.Select | PersonalFinanceTracker/src/personalfinancetracker/RecordManager.java:46-48 | a `filter` result is no longer than its input, holds only input records, and has the input's length iff every record matches |
| Streams.SelectOnlyMatches | PersonalFinanceTracker/src/personalfinancetracker/RecordManager.java:80-82 | a filter keeps only input records that match |
| Streams.SelectKeepsMatches | PersonalFinanceTracker/src/personalfinancetracker/RecordManager.java:87-89 | a filter keeps every matching input record |
| Streams.SelectIsSubsequence | PersonalFinanceTracker/src/personalfinancetracker/RecordManager.java:132-134 | a filter result is a subsequence of its input, in input order |
| Streams.SelectCounts | src/personalfinancetracker/RecordManager.java:72-74 | a filter keeps every matching record as often as it occurs, and no other record |
| Streams.SelectAppend | src/personalfinancetracker/RecordManager.java:78-80 | filtering a concatenation is concatenating the filtered parts |
| Streams.SelectAll | PersonalFinanceTracker/src/personalfinancetracker/RecordManager.java:75 | a filter that every record passes keeps the whole input |
| Streams.SelectIsInputIff | PersonalFinanceTracker/src/personalfinancetracker/RecordManager.java:80-82 | a filter returns its whole input exactly when every record matches |
| Streams.SelectDistinct | PersonalFinanceTracker/src/personalfinancetracker/RecordManager.java:74-76 | `removeIf` on a list without duplicates leaves a list without duplicates |
| Streams.Sort | PersonalFinanceTracker/src/personalfinancetracker/RecordManager.java:110-128 | `sorted` returns as many records as it is given, all taken from the input |
| Ledger.Recent | src/personalfinancetracker/RecordManager.java:166-169 | the records a summary scans are taken from the queue only, never from the list |
| Streams.SortPermutes | src/personalfinancetracker/RecordManager.java:113-117 | sorting yields a permutation of its input |
| Streams.CompareIsKeyOrder | PersonalFinanceTracker/src/personalfinancetracker/RecordManager.java:112-126 | the descending comparators (`Double.compare(r2, r1)` and `d2.compareTo(d1)`) put `r2` first exactly when its key is larger |
| Streams.SortIsDescending | PersonalFinanceTracker/src/personalfinancetracker/RecordManager.java:124-128 | when every record has a key, sorting yields a permutation with the keys non-increasing |
| Streams.SortIsStable | src/personalfinancetracker/RecordManager.java:100-111 | when every record has a key, the records with any one key stay in input order |
| Streams.SignedSumIsIncomeMinusRest | PersonalFinanceTracker/src/personalfinancetracker/RecordManager.java:139-141 | the signed sum is the "INCOME" total minus the total of every other type |
| Text.EqualsIgnoreCaseIffLoweredEqual | PersonalFinanceTracker/src/personalfinancetracker/RecordManager.java:81 | `equalsIgnoreCase` is equality after ASCII lower-casing |
| Text.ContainsIffOccursAt | PersonalFinanceTracker/src/personalfinancetracker/RecordManager.java:133 | `contains` holds iff the fragment occurs at some index |
| Dates.MidnightBeforeCutoff | PersonalFinanceTracker/src/personalfinancetracker/RecordManager.java:147-149 | a midnight is before `now − days` days iff its day ≤ today − days, or its day < today − days at exactly midnight |
| Streams.Matches | PersonalFinanceTracker/src/personalfinancetracker/RecordManager.java:75-133 | definition: the `filter` and `removeIf` lambdas. Date equality is exact; type and category compare ignoring case; the description test is `contains`; the date range and the summary test are false when a date fails to parse |
| Streams.Compare | PersonalFinanceTracker/src/personalfinancetracker/RecordManager.java:112-126 | definition: `Sign(key(r2) − key(r1))` for amounts and for dates, and 0 when either date fails to parse |
| Streams.Signed | PersonalFinanceTracker/src/personalfinancetracker/RecordManager.java:140 | definition: +amount when the type equals "INCOME" ignoring case, −amount otherwise |
| Streams.SignedSum | PersonalFinanceTracker/src/personalfinancetracker/RecordManager.java:139-141 | definition: the sum of `Signed` over the records, in order |
| Text.EqualsIgnoreCase | PersonalFinanceTracker/src/personalfinancetracker/RecordManager.java:81 | definition: the same length, and equal characters after ASCII lower-casing |
| Text.Contains | PersonalFinanceTracker/src/personalfinancetracker/RecordManager.java:133 | definition: the fragment is a prefix of the string or of one of its suffixes |
| Dates.Cutoff | PersonalFinanceTracker/src/personalfinancetracker/RecordManager.java:147-149 | definition: the clock moved back by `days` whole days, keeping the time of day |
| Ledger.Stale | PersonalFinanceTracker/src/personalfinancetracker/RecordManager.java:156-157 | definition: the midnight of the record's parsed day is before the cutoff |
| Ledger.Evict | PersonalFinanceTracker/src/personalfinancetracker/RecordManager.java:154-165 | definition: the queue without its first `StaleRun` records, which is what the loop leaves behind |
| Ledger.TallyOf | src/personalfinancetracker/RecordManager.java:166-180 | definition: the loop's running income, expense and count after the whole queue, with the same branches as the loop body |
| Ledger.Edited | PersonalFinanceTracker/src/personalfinancetracker/RecordManager.java:55-63 | definition: the given text when it is present and non-empty, otherwise the current value |
| Scenario.AddTwoRecords | PersonalFinanceTracker/src/personalfinancetracker/RecordManager.java:24-28 | two records added within the window are in both the list and the queue, in order |
| Scenario.Balance | PersonalFinanceTracker/src/personalfinancetracker/RecordManager.java:138-142 | a 3000 salary and 150 of groceries balance to 2850 |
| Scenario.FilterExpenses | PersonalFinanceTracker/src/personalfinancetracker/RecordManager.java:79-83 | the type filter "expense" finds the one record typed "EXPENSE" |
| Scenario.SortAmounts | PersonalFinanceTracker/src/personalfinancetracker/RecordManager.java:124-128 | sorting by amount puts 3000 before 150 |
| Scenario.EditAndDelete | src/personalfinancetracker/RecordManager.java:45-68 | after editing and deleting the groceries, the list holds the salary only and the queue still holds both |
| Scenario.DeletedRecordStillSummarised | src/personalfinancetracker/RecordManager.java:66-68 | after the deletion the 30-day summary still counts the groceries, with the edited amount 200 |
| Scenario.AddThenDelete | PersonalFinanceTracker/src/personalfinancetracker/RecordManager.java:24-28 | adding a record and deleting by its date restores the list when no earlier record has that date; `removed` is true, and a new record recent enough to be queued stays at the queue's tail |
| Scenario.DeleteTakesEarlierSameDate | src/personalfinancetracker/RecordManager.java:66-68 | when an earlier record shares the date, add-then-delete also removes it: the list `[salary]` becomes empty |

## Left out

- PersonalFinanceTracker/src/personalfinancetracker/PersonalFinanceTracker.java, the console menu: it is input and output only.
- `printAllRecords` and the `System.out` lines of `printSummary`: printing only. `Summarize` returns the printed values.
- `Record.toString`: it depends on Java's formatting of doubles.
- IEEE double arithmetic of amounts, including `Double.compare` on NaN and −0.0, and rounding in sums and in the average: amounts are integers and the average is a real.
- `SimpleDateFormat` internals: lenient parsing (for example "2024-02-30"), accepted formats, time zones and daylight-saving shifts in `Calendar.add`. The format is the parameter `parse`, a parsed date is a midnight, and a day is 86 400 000 ms.
- Unicode case folding in `equalsIgnoreCase`: only ASCII letters are folded.
- `e.printStackTrace()`: it has no effect on the ledger.
- The eviction loop's behaviour on a queued date that does not parse (it would retry forever): this cannot happen, since a record is queued only after its date parsed and dates never change. `Valid()` carries that fact.
- Null arguments and null fields: a null text argument to `editRecord` is `None`, and `null` field values are not modelled.
- Ledger.RecordManager.SortByDate: states order and stability only when every date parses. Otherwise only the permutation is stated, because the comparator returns 0 for an unparsable date, and `sorted`'s result then depends on the library's merge order. Such a comparator is also not transitive, so Java's `sorted` may throw `IllegalArgumentException` ("Comparison method violates its general contract!") on longer lists instead of returning a result. Records with an unparsable date do reach the list, because `addRecord` appends before it parses. The model always returns its own stable permutation.
- Ledger.RecordManager.GetAllRecords: returns the sequence value, not the live `List` alias Java hands out; callers that mutate that list directly are not modelled.
