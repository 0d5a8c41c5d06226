/**
 * The record manager: the list of all records in insertion order, and the
 * FIFO queue of recent records used for summaries.  Both hold the same
 * `Record` objects, so an edit is seen through both, while a deletion
 * takes a record out of the list only.
 */
module Ledger {
  import opened Wrappers
  import opened Text
  import opened Dates
  import opened Records
  import opened Streams

  /** `DAYS_30`: how far back the recent-records queue reaches. */
  const Days30: int := 30

  /** The `ParseException` that `addRecord` lets escape. */
  datatype LedgerError = InvalidDateFormat(date: string)

  /** What `printSummary` prints. */
  datatype Summary = Summary(totalIncome: int, totalExpenses: int, recordCount: nat, averageDailySpending: real)

  /** A queued record is stale when its date is before the cutoff; the eviction loop pops it once it is at the head. */
  predicate Stale(parse: DateParser, r: Record, cutoff: int)
    requires parse(r.date).Some?
  {
    Before(Midnight(parse(r.date).value), cutoff)
  }

  /**
   * How many records the eviction loop of `updateRecentRecordsQueue` pops
   * from `q`: the length of the run of stale records at its head.  Every
   * popped record is stale and the first kept one is not; stale records
   * behind it stay queued.
   */
  function StaleRun(parse: DateParser, q: seq<Record>, cutoff: int): (n: nat)
    requires AllDatesParse(parse, q)
    ensures n <= |q|
    ensures forall i :: 0 <= i < n ==> Stale(parse, q[i], cutoff)
    ensures n < |q| ==> !Stale(parse, q[n], cutoff)
    decreases |q|
  {
    if q == [] then 0
    else if Stale(parse, q[0], cutoff) then
      var n := 1 + StaleRun(parse, q[1..], cutoff);
      assert forall i :: 1 <= i < n ==> q[i] == q[1..][i - 1];
      n
    else 0
  }

  /** The queue the eviction loop leaves behind: `q` without its stale head run. */
  function Evict(parse: DateParser, q: seq<Record>, cutoff: int): seq<Record>
    requires AllDatesParse(parse, q)
  {
    q[StaleRun(parse, q, cutoff)..]
  }

  /** The properties of `StaleRun` determine it: the head run is the only such prefix. */
  lemma StaleRunUnique(parse: DateParser, q: seq<Record>, cutoff: int, k: int)
    requires AllDatesParse(parse, q) && 0 <= k <= |q|
    requires forall i :: 0 <= i < k ==> Stale(parse, q[i], cutoff)
    requires k < |q| ==> !Stale(parse, q[k], cutoff)
    ensures k == StaleRun(parse, q, cutoff)
  {
  }

  /** The eviction loop stops at once when the head is not stale. */
  lemma EvictKeepsFreshHead(parse: DateParser, q: seq<Record>, cutoff: int)
    requires AllDatesParse(parse, q) && q != [] && !Stale(parse, q[0], cutoff)
    ensures Evict(parse, q, cutoff) == q
  {
    StaleRunUnique(parse, q, cutoff, 0);
  }

  /**
   * Eviction only pops the head: what is left is a suffix of `q`, and it is
   * empty or its head is not stale.
   */
  lemma EvictIsFreshSuffix(parse: DateParser, q: seq<Record>, cutoff: int)
    requires AllDatesParse(parse, q)
    ensures var r := Evict(parse, q, cutoff);
            |r| <= |q| && r == q[|q| - |r|..] && (r == [] || !Stale(parse, r[0], cutoff))
  {
    var n := StaleRun(parse, q, cutoff);
    assert |q| - |q[n..]| == n;
  }

  /**
   * With the 30-day cutoff, a queued record is stale (popped once it
   * reaches the head of the queue) exactly when its day is at most
   * today - 30, except at exactly midnight, when today - 30 itself is not.
   */
  lemma StaleIsOldDay(parse: DateParser, r: Record, now: int)
    requires parse(r.date).Some?
    ensures var day, today := parse(r.date).value, now / DayMillis;
            Stale(parse, r, Cutoff(now, Days30)) <==>
            (if now % DayMillis == 0 then day < today - 30 else day <= today - 30)
  {
    MidnightBeforeCutoff(parse(r.date).value, now, Days30);
  }

  /**
   * A summary over the last `days` days counts a record exactly when its
   * date parses and its day is after today - `days`, or equal to it at
   * exactly midnight.
   */
  lemma CountedIsRecentDay(parse: DateParser, r: Record, now: int, days: int)
    ensures var today := now / DayMillis;
            Matches(r, NotBefore(parse, Cutoff(now, days))) <==>
            (parse(r.date).Some? &&
             (if now % DayMillis == 0 then parse(r.date).value >= today - days else parse(r.date).value > today - days))
  {
    if parse(r.date).Some? {
      MidnightBeforeCutoff(parse(r.date).value, now, days);
    }
  }

  /** A record that is not stale at the tail survives eviction, still at the tail. */
  lemma EvictKeepsFreshTail(parse: DateParser, q: seq<Record>, cutoff: int)
    requires AllDatesParse(parse, q) && q != [] && !Stale(parse, q[|q| - 1], cutoff)
    ensures var r := Evict(parse, q, cutoff);
            r != [] && r[|r| - 1] == q[|q| - 1]
  {
  }

  /**
   * Deleting by the date of a record just appended, when no earlier record
   * has that date, takes the list back to what it was before the append.
   */
  lemma {:induction false} DeleteUndoesAppend(before: seq<Record>, r: Record, date: string)
    requires forall i :: 0 <= i < |before| ==> before[i].date != date
    requires r.date == date
    ensures Select(before + [r], Not(DateIs(date))) == before
  {
    var c := Not(DateIs(date));
    assert Select(before, c) == before by {
      assert forall i :: 0 <= i < |before| ==> Matches(before[i], c);
      SelectAll(before, c);
    }
    assert Select([r], c) == [] by {
      SelectCons(r, [], c);
      assert [r] + [] == [r];
    }
    SelectAppend(before, [r], c);
    assert before + [] == before;
  }

  /** The records of `q` that a summary with this cutoff counts. */
  function Recent(parse: DateParser, q: seq<Record>, cutoff: int): (r: seq<Record>)
    reads q
    ensures forall x :: x in r ==> x in q
  {
    Select(q, NotBefore(parse, cutoff))
  }

  /** The "INCOME" total (type compared ignoring case) among the records of `q` a summary counts. */
  function RecentIncome(parse: DateParser, q: seq<Record>, cutoff: int): int
    reads set x | x in q
  {
    Total(Select(Recent(parse, q, cutoff), KindIs("INCOME")))
  }

  /** The "EXPENSE" total (type compared ignoring case) among the records of `q` a summary counts. */
  function RecentExpenses(parse: DateParser, q: seq<Record>, cutoff: int): int
    reads set x | x in q
  {
    Total(Select(Recent(parse, q, cutoff), KindIs("EXPENSE")))
  }

  /**
   * What `printSummary` computes over the queue `q`: the income and the
   * expense totals of the recent records, how many recent records there
   * are of any type, and the expense total per counted record.
   */
  function SummaryOf(parse: DateParser, q: seq<Record>, cutoff: int): Summary
    reads set x | x in q
  {
    var count := |Recent(parse, q, cutoff)|;
    var expenses := RecentExpenses(parse, q, cutoff);
    Summary(RecentIncome(parse, q, cutoff), expenses, count,
            if count > 0 then expenses as real / count as real else 0.0)
  }

  /** The three running totals of the `printSummary` loop. */
  datatype Tally = Tally(income: int, expenses: int, count: nat)

  /**
   * The totals the `printSummary` loop holds after scanning `q`, head
   * first: a record whose date parses and is not before the cutoff is
   * counted, and its amount is added to the income total when its type is
   * "INCOME" and otherwise to the expense total when its type is "EXPENSE"
   * (both ignoring case).
   */
  function TallyOf(parse: DateParser, q: seq<Record>, cutoff: int): Tally
    reads set x | x in q
    decreases |q|
  {
    if q == [] then Tally(0, 0, 0)
    else
      var t, x := TallyOf(parse, q[..|q| - 1], cutoff), q[|q| - 1];
      if !Matches(x, NotBefore(parse, cutoff)) then t
      else if EqualsIgnoreCase(x.kind, "INCOME") then Tally(t.income + x.amount, t.expenses, t.count + 1)
      else if EqualsIgnoreCase(x.kind, "EXPENSE") then Tally(t.income, t.expenses + x.amount, t.count + 1)
      else Tally(t.income, t.expenses, t.count + 1)
  }

  /** The value a text field takes in `editRecord`: the given one unless it is null or empty. */
  function Edited(current: string, given: Option<string>): string
  {
    if given.Some? && given.value != "" then given.value else current
  }

  class RecordManager {
    var records: seq<Record>     // all records, in insertion order
    var queue: seq<Record>       // recentRecordsQueue, head first
    const parse: DateParser      // dateFormat

    /**
     * Every queued record's date parses (it was parsed before the record
     * was queued, and dates never change), and no record is listed twice.
     */
    ghost predicate Valid()
      reads this
    {
      AllDatesParse(parse, queue) && Distinct(records)
    }

    constructor (parse: DateParser)
      ensures Valid() && records == [] && queue == [] && this.parse == parse
    {
      records := [];
      queue := [];
      this.parse := parse;
    }

    /**
     * `addRecord`: append a new record to the list, then update the queue.
     * When the date does not parse the record stays in the list, the queue
     * is untouched and the `ParseException` is returned.
     */
    method AddRecord(date: string, kind: string, category: string, description: string, amount: int, now: int)
      returns (outcome: Outcome<LedgerError>)
      requires Valid()
      modifies this
      ensures Valid()
      ensures |records| == |old(records)| + 1 && records[..|old(records)|] == old(records)
      ensures var r := records[|old(records)|];
              fresh(r) && r.date == date && r.kind == kind && r.category == category &&
              r.description == description && r.amount == amount
      ensures outcome == if parse(date).Some? then Pass else Fail(InvalidDateFormat(date))
      ensures parse(date).Some? ==>
              queue == Evict(parse, old(queue) + [records[|old(records)|]], Cutoff(now, Days30))
      ensures parse(date).None? ==> queue == old(queue)
    {
      var newRecord := new Record(date, kind, category, description, amount);
      records := records + [newRecord];
      outcome := UpdateRecentRecordsQueue(newRecord, now);
    }

    /** `getAllRecords`. */
    method GetAllRecords() returns (all: seq<Record>)
      ensures all == records
    {
      all := records;
    }

    /** `searchRecordsByDate`: the records whose date string equals `date`, in list order. */
    function SearchRecordsByDate(date: string): (r: seq<Record>)
      reads this, records
      ensures Subsequence(r, records)
      ensures forall i :: 0 <= i < |r| ==> r[i] in records && r[i].date == date
      ensures forall i :: 0 <= i < |records| && records[i].date == date ==> records[i] in r
      ensures forall x :: x in records ==> multiset(r)[x] == if x.date == date then multiset(records)[x] else 0
    {
      SelectCounts(records, DateIs(date));
      SelectIsSubsequence(records, DateIs(date));
      SelectOnlyMatches(records, DateIs(date));
      SelectKeepsMatches(records, DateIs(date));
      Select(records, DateIs(date))
    }

    /**
     * `editRecord`: the first record whose date string equals `date` gets
     * each given non-empty text field and a non-negative amount; nothing
     * else changes.  `None` stands for a null argument.
     */
    method EditRecord(date: string, kind: Option<string>, category: Option<string>,
                      description: Option<string>, amount: int)
      returns (found: bool, ghost index: int)
      requires Valid()
      modifies records
      ensures Valid()
      ensures found <==> exists i :: 0 <= i < |records| && records[i].date == date
      ensures found ==> 0 <= index < |records| && records[index].date == date &&
                        forall j :: 0 <= j < index ==> records[j].date != date
      ensures found ==>
                var r := records[index];
                r.kind == Edited(old(r.kind), kind) &&
                r.category == Edited(old(r.category), category) &&
                r.description == Edited(old(r.description), description) &&
                r.amount == (if amount >= 0 then amount else old(r.amount))
      ensures forall j :: 0 <= j < |records| && (!found || j != index) ==>
                records[j].kind == old(records[j].kind) &&
                records[j].category == old(records[j].category) &&
                records[j].description == old(records[j].description) &&
                records[j].amount == old(records[j].amount)
    {
      var i := 0;
      while i < |records|
        invariant 0 <= i <= |records|
        invariant forall j :: 0 <= j < i ==> records[j].date != date
        invariant forall r :: r in records ==> unchanged(r)
      {
        var record := records[i];
        if record.date == date {
          if kind.Some? && kind.value != "" {
            record.SetType(kind.value);
          }
          if category.Some? && category.value != "" {
            record.SetCategory(category.value);
          }
          if description.Some? && description.value != "" {
            record.SetDescription(description.value);
          }
          if amount >= 0 {
            record.SetAmount(amount);
          }
          return true, i;
        }
        i := i + 1;
      }
      return false, -1;
    }

    /**
     * `deleteRecord`: remove every record whose date string equals `date`
     * from the list (not from the queue); true iff one was removed.
     */
    method DeleteRecord(date: string) returns (removed: bool)
      requires Valid()
      modifies this
      ensures Valid()
      ensures records == Select(old(records), Not(DateIs(date)))
      ensures Subsequence(records, old(records))
      ensures forall i :: 0 <= i < |records| ==> records[i].date != date
      ensures forall i :: 0 <= i < |old(records)| && old(records)[i].date != date ==> old(records)[i] in records
      ensures removed <==> exists i :: 0 <= i < |old(records)| && old(records)[i].date == date
      ensures queue == old(queue)
    {
      var c := Not(DateIs(date));
      var kept := Select(records, c);
      SelectDistinct(records, c);
      SelectIsSubsequence(records, c);
      SelectOnlyMatches(records, c);
      SelectKeepsMatches(records, c);
      forall i | 0 <= i < |kept| ensures kept[i].date != date {
        assert Matches(kept[i], c);
        assert !Matches(kept[i], DateIs(date));
      }
      forall i | 0 <= i < |records| && records[i].date != date ensures records[i] in kept {
        assert Matches(records[i], c);
      }
      removed := |kept| != |records|;
      records := kept;
    }

    /** `filterByType`: the records whose type equals `kind` ignoring case, in order. */
    function FilterByType(rs: seq<Record>, kind: string): (r: seq<Record>)
      reads rs
      ensures Subsequence(r, rs)
      ensures forall i :: 0 <= i < |r| ==> r[i] in rs && EqualsIgnoreCase(r[i].kind, kind)
      ensures forall i :: 0 <= i < |rs| && EqualsIgnoreCase(rs[i].kind, kind) ==> rs[i] in r
      ensures forall x :: x in rs ==> multiset(r)[x] == if EqualsIgnoreCase(x.kind, kind) then multiset(rs)[x] else 0
    {
      SelectCounts(rs, KindIs(kind));
      SelectIsSubsequence(rs, KindIs(kind));
      SelectOnlyMatches(rs, KindIs(kind));
      SelectKeepsMatches(rs, KindIs(kind));
      Select(rs, KindIs(kind))
    }

    /** `filterByCategory`: the records whose category equals `category` ignoring case, in order. */
    function FilterByCategory(rs: seq<Record>, category: string): (r: seq<Record>)
      reads rs
      ensures Subsequence(r, rs)
      ensures forall i :: 0 <= i < |r| ==> r[i] in rs && EqualsIgnoreCase(r[i].category, category)
      ensures forall i :: 0 <= i < |rs| && EqualsIgnoreCase(rs[i].category, category) ==> rs[i] in r
      ensures forall x :: x in rs ==> multiset(r)[x] == if EqualsIgnoreCase(x.category, category) then multiset(rs)[x] else 0
    {
      SelectCounts(rs, CategoryIs(category));
      SelectIsSubsequence(rs, CategoryIs(category));
      SelectOnlyMatches(rs, CategoryIs(category));
      SelectKeepsMatches(rs, CategoryIs(category));
      Select(rs, CategoryIs(category))
    }

    /**
     * `filterByDateRange`: the records dated from `startDate` to `endDate`,
     * both included; a record is dropped when its date or either bound does
     * not parse.
     */
    function FilterByDateRange(rs: seq<Record>, startDate: string, endDate: string): (r: seq<Record>)
      reads rs
      ensures Subsequence(r, rs)
      ensures forall i :: 0 <= i < |r| ==> r[i] in rs && InRange(parse, r[i].date, startDate, endDate)
      ensures forall i :: 0 <= i < |rs| && InRange(parse, rs[i].date, startDate, endDate) ==> rs[i] in r
      ensures forall x :: x in rs ==> multiset(r)[x] == if InRange(parse, x.date, startDate, endDate) then multiset(rs)[x] else 0
    {
      var c := DateWithin(parse, startDate, endDate);
      SelectCounts(rs, c);
      SelectIsSubsequence(rs, c);
      SelectOnlyMatches(rs, c);
      SelectKeepsMatches(rs, c);
      WithinIsInRange(parse, rs, startDate, endDate);
      WithinIsInRange(parse, Select(rs, c), startDate, endDate);
      Select(rs, c)
    }

    /**
     * `sortByDate`: the same records, latest date first, records of one day
     * in input order.  The order is stated for inputs whose dates all parse;
     * the source's comparator calls two records equal when either date fails.
     */
    function SortByDate(rs: seq<Record>): (r: seq<Record>)
      reads rs
      ensures multiset(r) == multiset(rs)
      ensures AllDatesParse(parse, rs) ==> Descending(ByDate(parse), r)
      ensures AllDatesParse(parse, rs) ==>
                forall day :: Select(r, SameKey(ByDate(parse), day)) == Select(rs, SameKey(ByDate(parse), day))
    {
      var k := ByDate(parse);
      SortPermutes(k, rs);
      if AllDatesParse(parse, rs) then
        SortIsDescending(k, rs);
        SortIsStableEverywhere(k, rs);
        Sort(k, rs)
      else
        Sort(k, rs)
    }

    /** `sortByAmount`: the same records, highest amount first, equal amounts in input order. */
    function SortByAmount(rs: seq<Record>): (r: seq<Record>)
      reads rs
      ensures multiset(r) == multiset(rs)
      ensures forall i, j :: 0 <= i < j < |r| ==> r[i].amount >= r[j].amount
      ensures forall a :: Select(r, SameKey(ByAmount, a)) == Select(rs, SameKey(ByAmount, a))
    {
      SortIsDescending(ByAmount, rs);
      SortIsStableEverywhere(ByAmount, rs);
      Sort(ByAmount, rs)
    }

    /** `searchByDescription`: the records whose description contains `fragment` (case-sensitive), in order. */
    function SearchByDescription(rs: seq<Record>, fragment: string): (r: seq<Record>)
      reads rs
      ensures Subsequence(r, rs)
      ensures forall i :: 0 <= i < |r| ==> r[i] in rs && Contains(r[i].description, fragment)
      ensures forall i :: 0 <= i < |rs| && Contains(rs[i].description, fragment) ==> rs[i] in r
      ensures forall x :: x in rs ==> multiset(r)[x] == if Contains(x.description, fragment) then multiset(rs)[x] else 0
    {
      SelectCounts(rs, DescriptionContains(fragment));
      SelectIsSubsequence(rs, DescriptionContains(fragment));
      SelectOnlyMatches(rs, DescriptionContains(fragment));
      SelectKeepsMatches(rs, DescriptionContains(fragment));
      Select(rs, DescriptionContains(fragment))
    }

    /**
     * `calculateBalance`: over the whole list, the amounts of "INCOME"
     * records (any case) minus the amounts of records of every other type.
     */
    function CalculateBalance(): (b: int)
      reads this, records
      ensures b == Total(Select(records, KindIs("INCOME"))) - Total(Select(records, Not(KindIs("INCOME"))))
    {
      SignedSumIsIncomeMinusRest(records);
      SignedSum(records)
    }

    /**
     * `updateRecentRecordsQueue`: parse the new record's date (returning
     * the exception before touching the queue), push the record at the
     * tail, then pop stale records from the head.
     */
    method UpdateRecentRecordsQueue(newRecord: Record, now: int) returns (outcome: Outcome<LedgerError>)
      requires Valid()
      modifies this`queue
      ensures Valid()
      ensures outcome == if parse(newRecord.date).Some? then Pass else Fail(InvalidDateFormat(newRecord.date))
      ensures parse(newRecord.date).Some? ==> queue == Evict(parse, old(queue) + [newRecord], Cutoff(now, Days30))
      ensures parse(newRecord.date).None? ==> queue == old(queue)
    {
      var newRecordDate := parse(newRecord.date);
      if newRecordDate.None? {
        return Fail(InvalidDateFormat(newRecord.date));
      }
      var cutoffDate := Cutoff(now, Days30);
      queue := queue + [newRecord];
      ghost var pushed, popped := queue, 0;
      while queue != []
        invariant AllDatesParse(parse, pushed) && records == old(records)
        invariant 0 <= popped <= |pushed| && queue == pushed[popped..]
        invariant forall i :: 0 <= i < popped ==> Stale(parse, pushed[i], cutoffDate)
        decreases |queue|
      {
        var oldestDate := parse(queue[0].date).value;
        if Before(Midnight(oldestDate), cutoffDate) {
          queue := queue[1..];
          popped := popped + 1;
        } else {
          break;
        }
      }
      StaleRunUnique(parse, pushed, cutoffDate, popped);
      outcome := Pass;
    }

    /**
     * `printSummary(days)`, without the printing: scan the whole queue and
     * total the records whose date is not before `days` days ago.
     */
    method Summarize(days: int, now: int) returns (s: Summary)
      ensures s == SummaryOf(parse, queue, Cutoff(now, days))
    {
      var cutoffDate := Cutoff(now, days);
      var totalIncome, totalExpenses, recordCount := 0, 0, 0;
      for i := 0 to |queue|
        invariant Tally(totalIncome, totalExpenses, recordCount) == TallyOf(parse, queue[..i], cutoffDate)
      {
        var record := queue[i];
        assert queue[..i + 1][..i] == queue[..i];
        match parse(record.date)
        case Some(recordDate) =>
          if !Before(Midnight(recordDate), cutoffDate) {
            recordCount := recordCount + 1;
            if EqualsIgnoreCase(record.kind, "INCOME") {
              totalIncome := totalIncome + record.amount;
            } else if EqualsIgnoreCase(record.kind, "EXPENSE") {
              totalExpenses := totalExpenses + record.amount;
            }
          }
        case None =>
      }
      assert queue[..|queue|] == queue;
      TallyIsRecent(parse, queue, cutoffDate);
      var averageDailySpending := if recordCount > 0 then totalExpenses as real / recordCount as real else 0.0;
      s := Summary(totalIncome, totalExpenses, recordCount, averageDailySpending);
    }
  }

  /** The range test of `filterByDateRange`, on day numbers. */
  predicate InRange(parse: DateParser, date: string, startDate: string, endDate: string)
  {
    parse(date).Some? && parse(startDate).Some? && parse(endDate).Some? &&
    parse(startDate).value <= parse(date).value <= parse(endDate).value
  }

  lemma {:induction false} WithinIsInRange(parse: DateParser, rs: seq<Record>, startDate: string, endDate: string)
    ensures forall i :: 0 <= i < |rs| ==>
              (Matches(rs[i], DateWithin(parse, startDate, endDate)) <==> InRange(parse, rs[i].date, startDate, endDate))
  {
  }

  /** Stability for every key value at once. */
  lemma {:induction false} SortIsStableEverywhere(k: SortKey, s: seq<Record>)
    requires Keyed(k, s)
    ensures forall v :: Select(Sort(k, s), SameKey(k, v)) == Select(s, SameKey(k, v))
  {
    forall v ensures Select(Sort(k, s), SameKey(k, v)) == Select(s, SameKey(k, v)) {
      SortIsStable(k, s, v);
    }
  }

  /** A summary over `q` followed by `x` adds `x`'s contribution to the summary over `q`. */
  lemma {:induction false} SummaryOfSnoc(parse: DateParser, q: seq<Record>, x: Record, cutoff: int)
    ensures var counted := Matches(x, NotBefore(parse, cutoff));
            |Recent(parse, q + [x], cutoff)| == |Recent(parse, q, cutoff)| + (if counted then 1 else 0) &&
            RecentIncome(parse, q + [x], cutoff) == RecentIncome(parse, q, cutoff) +
              (if counted && EqualsIgnoreCase(x.kind, "INCOME") then x.amount else 0) &&
            RecentExpenses(parse, q + [x], cutoff) == RecentExpenses(parse, q, cutoff) +
              (if counted && EqualsIgnoreCase(x.kind, "EXPENSE") then x.amount else 0)
  {
    var c := NotBefore(parse, cutoff);
    SelectAppend(q, [x], c);
    SelectCons(x, [], c);
    var w := Select(q, c);
    var last := Select([x], c);
    SelectAppend(w, last, KindIs("INCOME"));
    SelectAppend(w, last, KindIs("EXPENSE"));
    TotalAppend(Select(w, KindIs("INCOME")), Select(last, KindIs("INCOME")));
    TotalAppend(Select(w, KindIs("EXPENSE")), Select(last, KindIs("EXPENSE")));
    SelectCons(x, [], KindIs("INCOME"));
    SelectCons(x, [], KindIs("EXPENSE"));
  }

  /**
   * The loop's running totals are the declarative ones: the income and the
   * expense totals of the recent records and their number.
   */
  lemma {:induction false} TallyIsRecent(parse: DateParser, q: seq<Record>, cutoff: int)
    ensures TallyOf(parse, q, cutoff) ==
            Tally(RecentIncome(parse, q, cutoff), RecentExpenses(parse, q, cutoff), |Recent(parse, q, cutoff)|)
    decreases |q|
  {
    if q != [] {
      var init, x := q[..|q| - 1], q[|q| - 1];
      TallyIsRecent(parse, init, cutoff);
      assert q == init + [x];
      SummaryOfSnoc(parse, init, x, cutoff);
      IncomeIsNotExpense(x.kind);
    }
  }

  /** No type is both "INCOME" and "EXPENSE" ignoring case: the lengths differ. */
  lemma IncomeIsNotExpense(kind: string)
    ensures !(EqualsIgnoreCase(kind, "INCOME") && EqualsIgnoreCase(kind, "EXPENSE"))
  {
  }
}
