/**
 * The stream pipelines of the record manager: `filter(...).collect(toList())`
 * is `Select` with a `Criterion` naming the lambda, `sorted(comparator)` is
 * the stable insertion sort `Sort` with a `SortKey` naming the comparator,
 * and `mapToDouble(...).sum()` is `SignedSum`.  All of them take and return
 * sequences of the same `Record` objects and change none of them.
 */
module Streams {
  import opened Wrappers
  import opened Text
  import opened Dates
  import opened Records

  /** No object occurs twice. */
  predicate Distinct<T(==)>(s: seq<T>)
  {
    forall i, j :: 0 <= i < j < |s| ==> s[i] != s[j]
  }

  /** `a` is `b` with some elements left out, the rest in their order. */
  predicate Subsequence<T(==)>(a: seq<T>, b: seq<T>)
    decreases |b|
  {
    a == [] ||
    (b != [] && ((a[0] == b[0] && Subsequence(a[1..], b[1..])) || Subsequence(a, b[1..])))
  }

  // ---------------------------------------------------------------- ordering

  /** The two comparators handed to `sorted`. */
  datatype SortKey =
    | ByAmount                    // Double.compare(r2.getAmount(), r1.getAmount())
    | ByDate(parse: DateParser)   // parse(r2.getDate()).compareTo(parse(r1.getDate())), 0 on ParseException

  function Sign(x: int): int
  {
    if x < 0 then -1 else if x == 0 then 0 else 1
  }

  /** The Java comparator: negative when `r1` belongs before `r2`, positive when after. */
  function Compare(k: SortKey, r1: Record, r2: Record): int
    reads r1, r2
  {
    match k
    case ByAmount => Sign(r2.amount - r1.amount)
    case ByDate(parse) =>
      match (parse(r2.date), parse(r1.date))
      case (Some(d2), Some(d1)) => Sign(Midnight(d2) - Midnight(d1))
      case _ => 0
  }

  /** The record has a sort key: always for amounts, for dates when its date parses. */
  predicate HasKey(k: SortKey, r: Record)
  {
    k.ByDate? ==> k.parse(r.date).Some?
  }

  predicate Keyed(k: SortKey, s: seq<Record>)
  {
    forall x :: x in s ==> HasKey(k, x)
  }

  /** Every date in `s` parses. */
  predicate AllDatesParse(parse: DateParser, s: seq<Record>)
  {
    forall x :: x in s ==> parse(x.date).Some?
  }

  /** The number a record is ordered by (0 for a date that does not parse). */
  function Key(k: SortKey, r: Record): int
    reads r
  {
    match k
    case ByAmount => r.amount
    case ByDate(parse) => (match parse(r.date) case Some(d) => d case None => 0)
  }

  /** Highest key first. */
  ghost predicate Descending(k: SortKey, s: seq<Record>)
    reads s
  {
    forall i, j :: 0 <= i < j < |s| ==> Key(k, s[i]) >= Key(k, s[j])
  }

  // --------------------------------------------------------------- filtering

  /** The lambdas handed to `filter` (and to `removeIf`, negated). */
  datatype Criterion =
    | DateIs(date: string)                                    // getDate().equals(date)
    | KindIs(kind: string)                                    // getType().equalsIgnoreCase(kind)
    | CategoryIs(category: string)                            // getCategory().equalsIgnoreCase(category)
    | DescriptionContains(fragment: string)                   // getDescription().contains(fragment)
    | DateWithin(parse: DateParser, start: string, end: string) // start <= date <= end, false on ParseException
    | NotBefore(parse: DateParser, cutoff: int)               // !parse(getDate()).before(cutoff), false on ParseException
    | SameKey(key: SortKey, value: int)                       // Key(key, r) == value
    | Not(negated: Criterion)

  predicate Matches(r: Record, c: Criterion)
    reads r
  {
    match c
    case DateIs(d) => r.date == d
    case KindIs(k) => EqualsIgnoreCase(r.kind, k)
    case CategoryIs(k) => EqualsIgnoreCase(r.category, k)
    case DescriptionContains(f) => Contains(r.description, f)
    case DateWithin(parse, start, end) =>
      (match (parse(r.date), parse(start), parse(end))
       case (Some(d), Some(s), Some(e)) => !Before(Midnight(d), Midnight(s)) && !Before(Midnight(e), Midnight(d))
       case _ => false)
    case NotBefore(parse, cutoff) =>
      (match parse(r.date)
       case Some(d) => !Before(Midnight(d), cutoff)
       case None => false)
    case SameKey(k, v) => Key(k, r) == v
    case Not(n) => !Matches(r, n)
  }

  /** `filter(c).collect(toList())`: the records that match `c`, in order. */
  function Select(rs: seq<Record>, c: Criterion): (r: seq<Record>)
    reads rs
    ensures |r| <= |rs|
    ensures forall x :: x in r ==> x in rs
    ensures |r| == |rs| <==> forall i :: 0 <= i < |rs| ==> Matches(rs[i], c)
  {
    if rs == [] then []
    else (if Matches(rs[0], c) then [rs[0]] else []) + Select(rs[1..], c)
  }

  /** Only matching records of the input are kept. */
  lemma {:induction false} SelectOnlyMatches(rs: seq<Record>, c: Criterion)
    ensures forall i :: 0 <= i < |Select(rs, c)| ==> Select(rs, c)[i] in rs && Matches(Select(rs, c)[i], c)
  {
    if rs != [] {
      SelectOnlyMatches(rs[1..], c);
      SelectHead(rs, c);
    }
  }

  /** Every matching record is kept. */
  lemma {:induction false} SelectKeepsMatches(rs: seq<Record>, c: Criterion)
    ensures forall i :: 0 <= i < |rs| && Matches(rs[i], c) ==> rs[i] in Select(rs, c)
  {
    if rs != [] {
      SelectKeepsMatches(rs[1..], c);
      forall i | 0 < i < |rs| && Matches(rs[i], c) ensures rs[i] in Select(rs, c) {
        assert rs[1..][i - 1] == rs[i];
      }
    }
  }

  lemma {:induction false} SelectHead(s: seq<Record>, c: Criterion)
    requires s != []
    ensures Select(s, c) == (if Matches(s[0], c) then [s[0]] else []) + Select(s[1..], c)
  {
  }

  lemma {:induction false} SelectCons(x: Record, t: seq<Record>, c: Criterion)
    ensures Select([x] + t, c) == (if Matches(x, c) then [x] else []) + Select(t, c)
  {
    assert ([x] + t)[1..] == t;
  }

  /** The selection keeps the records it keeps in their input order. */
  lemma {:induction false} SelectIsSubsequence(rs: seq<Record>, c: Criterion)
    ensures Subsequence(Select(rs, c), rs)
  {
    if rs != [] {
      SelectIsSubsequence(rs[1..], c);
      var r := Select(rs, c);
      if Matches(rs[0], c) {
        assert r == [rs[0]] + Select(rs[1..], c);
        assert r[0] == rs[0] && r[1..] == Select(rs[1..], c);
      } else {
        assert r == Select(rs[1..], c);
      }
    }
  }

  /** Every occurrence of a matching record is kept and every other one dropped. */
  lemma {:induction false} SelectCounts(rs: seq<Record>, c: Criterion)
    ensures forall x :: multiset(Select(rs, c))[x] == if Matches(x, c) then multiset(rs)[x] else 0
  {
    if rs != [] {
      SelectCounts(rs[1..], c);
      assert rs == [rs[0]] + rs[1..];
    }
  }

  /** Selecting from a concatenation is concatenating the selections. */
  lemma {:induction false} SelectAppend(a: seq<Record>, b: seq<Record>, c: Criterion)
    ensures Select(a + b, c) == Select(a, c) + Select(b, c)
  {
    if a == [] {
      assert a + b == b;
    } else {
      assert (a + b)[1..] == a[1..] + b;
      SelectAppend(a[1..], b, c);
    }
  }

  /** A selection that every record matches keeps the whole input. */
  lemma {:induction false} SelectAll(rs: seq<Record>, c: Criterion)
    requires forall i :: 0 <= i < |rs| ==> Matches(rs[i], c)
    ensures Select(rs, c) == rs
  {
    if rs != [] {
      assert forall i :: 0 <= i < |rs[1..]| ==> rs[1..][i] == rs[i + 1];
      SelectAll(rs[1..], c);
      SelectHead(rs, c);
    }
  }
  /** A filter returns its whole input exactly when every record matches. */
  lemma {:induction false} SelectIsInputIff(rs: seq<Record>, c: Criterion)
    ensures Select(rs, c) == rs <==> forall i :: 0 <= i < |rs| ==> Matches(rs[i], c)
  {
    if forall i :: 0 <= i < |rs| ==> Matches(rs[i], c) {
      SelectAll(rs, c);
    }
  }


  /** A selection from a sequence without repeats has no repeats. */
  lemma {:induction false} SelectDistinct(rs: seq<Record>, c: Criterion)
    requires Distinct(rs)
    ensures Distinct(Select(rs, c))
  {
    if rs != [] {
      assert Distinct(rs[1..]);
      SelectDistinct(rs[1..], c);
      SelectOnlyMatches(rs[1..], c);
      SelectHead(rs, c);
      var tail := Select(rs[1..], c);
      if Matches(rs[0], c) {
        forall j | 0 <= j < |tail| ensures tail[j] != rs[0] {
          var m :| 0 <= m < |rs[1..]| && rs[1..][m] == tail[j];
          assert rs[m + 1] == tail[j];
        }
        forall i, j | 0 <= i < j < |[rs[0]] + tail| ensures ([rs[0]] + tail)[i] != ([rs[0]] + tail)[j] {
          if i > 0 {
            assert ([rs[0]] + tail)[i] == tail[i - 1];
          }
        }
      }
    }
  }

  // ------------------------------------------------------------------ sorting

  /** Insert `x` after every record that sorts strictly before it, ahead of its equals. */
  function Insert(k: SortKey, x: Record, t: seq<Record>): (r: seq<Record>)
    reads x, t
    ensures |r| == |t| + 1
    ensures forall y :: y in r ==> y == x || y in t
  {
    if t == [] then [x]
    else if Compare(k, x, t[0]) > 0 then (assert t == [t[0]] + t[1..]; [t[0]] + Insert(k, x, t[1..]))
    else (assert t == [t[0]] + t[1..]; [x] + t)
  }

  /** The stable sort behind `stream().sorted(comparator)`. */
  function Sort(k: SortKey, s: seq<Record>): (r: seq<Record>)
    reads set y | y in s
    ensures |r| == |s|
    ensures forall y :: y in r ==> y in s
  {
    if s == [] then []
    else
      assert s == [s[0]] + s[1..];
      Insert(k, s[0], Sort(k, s[1..]))
  }

  lemma {:induction false} InsertPermutes(k: SortKey, x: Record, t: seq<Record>)
    ensures multiset(Insert(k, x, t)) == multiset(t) + multiset{x}
  {
    if t != [] && Compare(k, x, t[0]) > 0 {
      InsertPermutes(k, x, t[1..]);
      assert t == [t[0]] + t[1..];
    }
  }

  lemma {:induction false} SortPermutes(k: SortKey, s: seq<Record>)
    ensures multiset(Sort(k, s)) == multiset(s)
  {
    if s != [] {
      SortPermutes(k, s[1..]);
      InsertPermutes(k, s[0], Sort(k, s[1..]));
      assert s == [s[0]] + s[1..];
    }
  }

  /** With keys available, the comparator orders by key, highest first. */
  lemma {:induction false} CompareIsKeyOrder(k: SortKey, r1: Record, r2: Record)
    requires HasKey(k, r1) && HasKey(k, r2)
    ensures Compare(k, r1, r2) > 0 <==> Key(k, r2) > Key(k, r1)
  {
  }

  /** No key in `s` exceeds `b`. */
  ghost predicate AllAtMost(k: SortKey, s: seq<Record>, b: int)
    reads s
  {
    forall y :: y in s ==> Key(k, y) <= b
  }

  lemma {:induction false} DescendingCons(k: SortKey, y: Record, t: seq<Record>)
    requires Descending(k, t) && AllAtMost(k, t, Key(k, y))
    ensures Descending(k, [y] + t)
  {
    forall i, j | 0 <= i < j < |[y] + t| ensures Key(k, ([y] + t)[i]) >= Key(k, ([y] + t)[j]) {
      if i > 0 {
        assert ([y] + t)[i] == t[i - 1] && ([y] + t)[j] == t[j - 1];
      } else {
        assert ([y] + t)[j] == t[j - 1] && t[j - 1] in t;
      }
    }
  }

  lemma {:induction false} DescendingTail(k: SortKey, t: seq<Record>)
    requires t != [] && Descending(k, t)
    ensures Descending(k, t[1..]) && AllAtMost(k, t[1..], Key(k, t[0]))
  {
    forall y | y in t[1..] ensures Key(k, y) <= Key(k, t[0]) {
      var j :| 0 <= j < |t[1..]| && t[1..][j] == y;
      assert t[j + 1] == y;
    }
    forall i, j | 0 <= i < j < |t[1..]| ensures Key(k, t[1..][i]) >= Key(k, t[1..][j]) {
      assert t[1..][i] == t[i + 1] && t[1..][j] == t[j + 1];
    }
  }

  lemma {:induction false} InsertDescending(k: SortKey, x: Record, t: seq<Record>)
    requires HasKey(k, x) && Keyed(k, t) && Descending(k, t)
    ensures Descending(k, Insert(k, x, t))
  {
    if t == [] {
    } else {
      CompareIsKeyOrder(k, x, t[0]);
      DescendingTail(k, t);
      if Compare(k, x, t[0]) > 0 {
        var rest := Insert(k, x, t[1..]);
        InsertDescending(k, x, t[1..]);
        DescendingCons(k, t[0], rest);
      } else {
        DescendingCons(k, x, t);
      }
    }
  }

  lemma {:induction false} SortDescending(k: SortKey, s: seq<Record>)
    requires Keyed(k, s)
    ensures Descending(k, Sort(k, s))
  {
    if s != [] {
      SortDescending(k, s[1..]);
      InsertDescending(k, s[0], Sort(k, s[1..]));
    }
  }

  /** `sorted` returns a permutation ordered highest key first (when every key exists). */
  lemma {:induction false} SortIsDescending(k: SortKey, s: seq<Record>)
    requires Keyed(k, s)
    ensures multiset(Sort(k, s)) == multiset(s)
    ensures Descending(k, Sort(k, s))
  {
    SortPermutes(k, s);
    SortDescending(k, s);
  }

  /** The records of `s` whose key is `v`. */
  lemma {:induction false} SameKeyHead(k: SortKey, s: seq<Record>, v: int)
    requires s != []
    ensures Select(s, SameKey(k, v)) == (if Key(k, s[0]) == v then [s[0]] else []) + Select(s[1..], SameKey(k, v))
  {
    SelectHead(s, SameKey(k, v));
  }

  lemma {:induction false} SameKeyCons(k: SortKey, x: Record, t: seq<Record>, v: int)
    ensures Select([x] + t, SameKey(k, v)) == (if Key(k, x) == v then [x] else []) + Select(t, SameKey(k, v))
  {
    SelectCons(x, t, SameKey(k, v));
  }

  /** The step of `InsertStable` where `x` moves past the head `t[0]`. */
  lemma {:induction false} InsertStableStep(k: SortKey, x: Record, t: seq<Record>, v: int)
    requires t != [] && Key(k, t[0]) > Key(k, x)
    requires Insert(k, x, t) == [t[0]] + Insert(k, x, t[1..])
    requires Select(Insert(k, x, t[1..]), SameKey(k, v)) ==
             (if Key(k, x) == v then [x] else []) + Select(t[1..], SameKey(k, v))
    ensures Select(Insert(k, x, t), SameKey(k, v)) ==
            (if Key(k, x) == v then [x] else []) + Select(t, SameKey(k, v))
  {
    var c := SameKey(k, v);
    var rest := Insert(k, x, t[1..]);
    SameKeyCons(k, t[0], rest, v);
    SameKeyHead(k, t, v);
    var head := if Key(k, t[0]) == v then [t[0]] else [];
    var mine := if Key(k, x) == v then [x] else [];
    assert head == [] || mine == [];
    calc {
      Select(Insert(k, x, t), c);
      head + Select(rest, c);
      head + (mine + Select(t[1..], c));
      mine + (head + Select(t[1..], c));
      mine + Select(t, c);
    }
  }

  lemma {:induction false} InsertStable(k: SortKey, x: Record, t: seq<Record>, v: int)
    requires HasKey(k, x) && Keyed(k, t) && Descending(k, t)
    ensures Select(Insert(k, x, t), SameKey(k, v)) ==
            (if Key(k, x) == v then [x] else []) + Select(t, SameKey(k, v))
  {
    if t == [] {
      SameKeyCons(k, x, [], v);
    } else {
      CompareIsKeyOrder(k, x, t[0]);
      if Compare(k, x, t[0]) > 0 {
        DescendingTail(k, t);
        InsertStable(k, x, t[1..], v);
        InsertStableStep(k, x, t, v);
      } else {
        SameKeyCons(k, x, t, v);
      }
    }
  }

  /** Stability: the records sharing any one key keep their input order. */
  lemma {:induction false} SortIsStable(k: SortKey, s: seq<Record>, v: int)
    requires Keyed(k, s)
    ensures Select(Sort(k, s), SameKey(k, v)) == Select(s, SameKey(k, v))
  {
    if s != [] {
      var t := Sort(k, s[1..]);
      SortDescending(k, s[1..]);
      SortIsStable(k, s[1..], v);
      InsertStable(k, s[0], t, v);
      SameKeyHead(k, s, v);
    }
  }

  // ------------------------------------------------------------------ summing

  /** The balance term of one record: `+amount` for an "INCOME" type (any case), `-amount` otherwise. */
  function Signed(r: Record): int
    reads r
  {
    if EqualsIgnoreCase(r.kind, "INCOME") then r.amount else -r.amount
  }

  /** `mapToDouble(Signed).sum()`. */
  function SignedSum(rs: seq<Record>): int
    reads rs
  {
    if rs == [] then 0 else Signed(rs[0]) + SignedSum(rs[1..])
  }

  /** The plain sum of the amounts. */
  function Total(rs: seq<Record>): int
    reads rs
  {
    if rs == [] then 0 else rs[0].amount + Total(rs[1..])
  }

  lemma {:induction false} TotalAppend(a: seq<Record>, b: seq<Record>)
    ensures Total(a + b) == Total(a) + Total(b)
  {
    if a == [] {
      assert a + b == b;
    } else {
      assert (a + b)[1..] == a[1..] + b;
      TotalAppend(a[1..], b);
    }
  }

  /** The signed sum is the income total minus the total of every other type. */
  lemma {:induction false} SignedSumIsIncomeMinusRest(rs: seq<Record>)
    ensures SignedSum(rs) == Total(Select(rs, KindIs("INCOME"))) - Total(Select(rs, Not(KindIs("INCOME"))))
  {
    if rs != [] {
      SignedSumIsIncomeMinusRest(rs[1..]);
      var head := [rs[0]];
      var income := EqualsIgnoreCase(rs[0].kind, "INCOME");
      TotalAppend(if income then head else [], Select(rs[1..], KindIs("INCOME")));
      TotalAppend(if income then [] else head, Select(rs[1..], Not(KindIs("INCOME"))));
    }
  }
}
