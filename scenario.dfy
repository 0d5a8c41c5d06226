/**
 * The two-record walk-through of the ledger: a salary and a grocery
 * expense are added, the balance, a type filter and the amount sort are
 * taken, the expense is edited and deleted, and the summary still sees it
 * through the recent-records queue.
 */
module Scenario {
  import opened Wrappers
  import opened Text
  import opened Dates
  import opened Records
  import opened Streams
  import opened Ledger

  /** A date format that reads the two dates of the walk-through as days since 1970-01-01. */
  predicate KnowsDates(parse: DateParser)
  {
    parse("2024-01-01") == Some(19723) && parse("2024-01-05") == Some(19727)
  }

  /** The value of a decimal digit. */
  function Digit(c: char): int
  {
    c as int - '0' as int
  }

  /**
   * A date format for January 2024: a ten-character date whose last two
   * characters are digits is read as that day of the month, in days since
   * 1970-01-01.
   */
  function JanuaryParse(d: string): Option<int>
  {
    if |d| == 10 && '0' <= d[8] <= '9' && '0' <= d[9] <= '9'
    then Some(19722 + 10 * Digit(d[8]) + Digit(d[9]))
    else None
  }

  /** It reads both dates of the walk-through. */
  lemma JanuaryParseKnowsDates()
    ensures KnowsDates(JanuaryParse)
  {
  }

  /** Noon on 2024-01-10 (day 19732), in milliseconds since the epoch. */
  const Now: int := 1_704_888_000_000

  /** At `now`, both dates of the walk-through are within the last 30 days. */
  predicate BothDaysRecent(now: int)
  {
    !Before(Midnight(19723), Cutoff(now, 30)) && !Before(Midnight(19727), Cutoff(now, 30))
  }

  /** Noon on 2024-01-10 is such a moment. */
  lemma NowIsRecent()
    ensures BothDaysRecent(Now)
  {
  }

  /** A fresh ledger holding the salary. */
  method AddSalary(parse: DateParser, now: int) returns (m: RecordManager, salary: Record)
    requires KnowsDates(parse) && BothDaysRecent(now)
    ensures fresh(m) && fresh(salary) && m.Valid() && m.parse == parse
    ensures m.records == [salary] && m.queue == [salary]
    ensures salary.date == "2024-01-01" && salary.kind == "INCOME" && salary.amount == 3000
  {
    m := new RecordManager(parse);
    var outcome := m.AddRecord("2024-01-01", "INCOME", "Salary", "Jan pay", 3000, now);
    salary := m.records[0];
    assert [] + [salary] == [salary];
    EvictKeepsFreshHead(parse, [salary], Cutoff(now, Days30));
  }

  /**
   * Add the two records: both are in the list, and both are recent enough
   * to stay in the queue.
   */
  method AddTwoRecords(parse: DateParser, now: int) returns (m: RecordManager, salary: Record, groceries: Record)
    requires KnowsDates(parse) && BothDaysRecent(now)
    ensures fresh(m) && fresh(salary) && fresh(groceries) && m.Valid() && m.parse == parse
    ensures m.records == [salary, groceries] && m.queue == [salary, groceries]
    ensures salary.date == "2024-01-01" && salary.kind == "INCOME" && salary.amount == 3000
    ensures groceries.date == "2024-01-05" && groceries.kind == "EXPENSE" && groceries.amount == 150
  {
    m, salary := AddSalary(parse, now);
    var outcome := m.AddRecord("2024-01-05", "EXPENSE", "Food", "Groceries", 150, now);
    groceries := m.records[1];
    assert [salary] + [groceries] == [salary, groceries];
    EvictKeepsFreshHead(parse, [salary, groceries], Cutoff(now, Days30));
  }

  /** The amount total of a single record is its amount. */
  lemma TotalOfOne(r: Record)
    ensures Total([r]) == r.amount
  {
    assert [r][1..] == [];
  }

  /** The balance is the salary minus the groceries. */
  method Balance(parse: DateParser, now: int) returns (balance: int)
    requires KnowsDates(parse) && BothDaysRecent(now)
    ensures balance == 2850
  {
    var m, salary, groceries := AddTwoRecords(parse, now);
    balance := m.CalculateBalance();
    assert !EqualsIgnoreCase("EXPENSE", "INCOME");
    SelectCons(groceries, [], KindIs("INCOME"));
    SelectCons(salary, [groceries], KindIs("INCOME"));
    assert Select([salary, groceries], KindIs("INCOME")) == [salary];
    SelectCons(groceries, [], Not(KindIs("INCOME")));
    SelectCons(salary, [groceries], Not(KindIs("INCOME")));
    assert Select([salary, groceries], Not(KindIs("INCOME"))) == [groceries];
    TotalOfOne(salary);
    TotalOfOne(groceries);
  }

  /** Filtering by the type "expense" finds the groceries, whose type is "EXPENSE". */
  method FilterExpenses(parse: DateParser, now: int) returns (expenses: seq<Record>)
    requires KnowsDates(parse) && BothDaysRecent(now)
    ensures |expenses| == 1 && expenses[0].date == "2024-01-05"
  {
    var m, salary, groceries := AddTwoRecords(parse, now);
    var all := m.GetAllRecords();
    expenses := m.FilterByType(all, "expense");
    EqualsIgnoreCaseIffLoweredEqual("EXPENSE", "expense");
    assert !EqualsIgnoreCase("INCOME", "expense");
    SelectCons(groceries, [], KindIs("expense"));
    SelectCons(salary, [groceries], KindIs("expense"));
  }

  /** Sorting by amount puts the salary first. */
  method SortAmounts(parse: DateParser, now: int) returns (byAmount: seq<Record>)
    requires KnowsDates(parse) && BothDaysRecent(now)
    ensures |byAmount| == 2 && byAmount[0].amount == 3000 && byAmount[1].amount == 150
  {
    var m, salary, groceries := AddTwoRecords(parse, now);
    var all := m.GetAllRecords();
    byAmount := m.SortByAmount(all);
  }

  /**
   * Edit the groceries' amount to 200 and delete the records dated
   * 2024-01-05: the list keeps only the salary, the queue keeps both.
   */
  method EditAndDelete(parse: DateParser, now: int)
    returns (m: RecordManager, salary: Record, groceries: Record, removed: bool)
    requires KnowsDates(parse) && BothDaysRecent(now)
    ensures m.parse == parse && m.records == [salary] && m.queue == [salary, groceries] && removed
    ensures salary.date == "2024-01-01" && salary.kind == "INCOME" && salary.amount == 3000
    ensures groceries.date == "2024-01-05" && groceries.kind == "EXPENSE" && groceries.amount == 200
  {
    m, salary, groceries := AddTwoRecords(parse, now);
    var found, index := m.EditRecord("2024-01-05", None, None, None, 200);
    assert m.records[1].date == "2024-01-05" && m.records[0].date != "2024-01-05";
    removed := m.DeleteRecord("2024-01-05");
    assert Matches(salary, Not(DateIs("2024-01-05")));
    assert !Matches(groceries, Not(DateIs("2024-01-05")));
    SelectCons(groceries, [], Not(DateIs("2024-01-05")));
    SelectCons(salary, [groceries], Not(DateIs("2024-01-05")));
  }

  /**
   * After the deletion the 30-day summary still counts the groceries, with
   * the edited amount, because the queue holds the same record object.
   */
  method DeletedRecordStillSummarised(parse: DateParser, now: int) returns (remaining: seq<Record>, s: Summary)
    requires KnowsDates(parse) && BothDaysRecent(now)
    ensures |remaining| == 1 && remaining[0].date == "2024-01-01"
    ensures s.totalIncome == 3000 && s.totalExpenses == 200 && s.recordCount == 2
  {
    var m, salary, groceries, removed := EditAndDelete(parse, now);
    remaining := m.GetAllRecords();
    s := m.Summarize(30, now);
    var cutoff := Cutoff(now, 30);
    TallyIsRecent(parse, [salary, groceries], cutoff);
    assert Matches(salary, NotBefore(parse, cutoff)) && Matches(groceries, NotBefore(parse, cutoff));
    assert [salary][..0] == [];
    assert TallyOf(parse, [salary], cutoff) == Tally(3000, 0, 1);
    assert [salary, groceries][..1] == [salary];
    assert !EqualsIgnoreCase("EXPENSE", "INCOME");
    assert TallyOf(parse, [salary, groceries], cutoff) == Tally(3000, 200, 2);
  }

  /**
   * Adding a record and then deleting by its date gives back the list as it
   * was, provided no earlier record has that date.  The deletion leaves the
   * queue alone, so a new record recent enough to be queued stays queued,
   * at its tail.
   */
  method AddThenDelete(m: RecordManager, date: string, kind: string, category: string,
                       description: string, amount: int, now: int)
    returns (outcome: Outcome<LedgerError>, removed: bool)
    requires m.Valid()
    requires forall i :: 0 <= i < |m.records| ==> m.records[i].date != date
    modifies m
    ensures m.Valid() && m.records == old(m.records) && removed
    ensures m.parse(date).Some? && !Before(Midnight(m.parse(date).value), Cutoff(now, Days30)) ==>
              m.queue != [] && fresh(m.queue[|m.queue| - 1]) && m.queue[|m.queue| - 1].date == date
    ensures m.parse(date).None? ==> m.queue == old(m.queue)
  {
    ghost var before := m.records;
    outcome := m.AddRecord(date, kind, category, description, amount, now);
    var r := m.records[|before|];
    assert m.records == before + [r];
    ghost var q := old(m.queue) + [r];
    if m.parse(date).Some? && !Before(Midnight(m.parse(date).value), Cutoff(now, Days30)) {
      EvictKeepsFreshTail(m.parse, q, Cutoff(now, Days30));
    }
    removed := m.DeleteRecord(date);
    DeleteUndoesAppend(before, r, date);
  }

  /**
   * When an earlier record has the same date, the deletion takes it too: a
   * lunch added on the salary's date and deleted by that date leaves an
   * empty list, not the salary alone.
   */
  method DeleteTakesEarlierSameDate(parse: DateParser, now: int) returns (before: seq<Record>, after: seq<Record>)
    requires KnowsDates(parse) && BothDaysRecent(now)
    ensures |before| == 1 && before[0].date == "2024-01-01"
    ensures after == [] && after != before
  {
    var m, salary := AddSalary(parse, now);
    before := m.GetAllRecords();
    var outcome := m.AddRecord("2024-01-01", "EXPENSE", "Food", "Lunch", 20, now);
    var lunch := m.records[1];
    assert m.records == [salary, lunch];
    var removed := m.DeleteRecord("2024-01-01");
    SelectCons(lunch, [], Not(DateIs("2024-01-01")));
    SelectCons(salary, [lunch], Not(DateIs("2024-01-01")));
    after := m.GetAllRecords();
  }
}
