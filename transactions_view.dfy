/** The transactions page (src/app/transactions/transactions.component.ts):
    the monthly breakdown of one viewed year, the year totals, the year
    navigation and the name lookups used to label a transaction.

    `MonthlyGroups` is the reference definition of `groupedTransactions`,
    `GroupedTransactions` is the step-by-step computation the component does
    (bucket map, month set, sorted months, result list), proved equal to it,
    and the lemmas state what the page shows. "now" is a parameter. */
module TransactionsView {
  import opened Wrappers
  import opened Models
  import opened Seqs
  import opened Chronology

  /** `MonthlyTransactions`: the first day of the month, its transactions
      newest first, and the two sums. */
  datatype MonthGroup = MonthGroup(date: Date, transactions: seq<Transaction>, totalIncome: real, totalExpense: real)

  const Unknown: string := "לא ידוע"

  function InYear(year: int): Transaction -> bool {
    (t: Transaction) => DateOf(t).year == year
  }

  function MonthIs(m: int): Transaction -> bool {
    (t: Transaction) => DateOf(t).month == m
  }

  /** The months that have at least one transaction (the keys of `groups`). */
  function MonthsWithData(s: seq<Transaction>): set<MonthIndex> {
    set i | 0 <= i < |s| :: DateOf(s[i]).month
  }

  /** The last month shown regardless of data: now's month in the current
      year, December otherwise. */
  function MaxMonth(year: int, now: Date): int {
    if year == now.year then now.month else 11
  }

  /** The months 0..k. */
  function MonthsUpTo(k: int): (r: set<MonthIndex>)
    requires k <= 11
    ensures forall m: MonthIndex :: m in r <==> m <= k
    decreases k + 1
  {
    if k < 0 then {} else MonthsUpTo(k - 1) + {k as MonthIndex}
  }

  /** `monthsToShow`: 0..maxMonth for a year not after now's, plus every month
      with data. */
  function MonthSet(byYear: seq<Transaction>, year: int, now: Date): set<MonthIndex> {
    (if year <= now.year then MonthsUpTo(MaxMonth(year, now)) else {}) + MonthsWithData(byYear)
  }

  /** The members of S that are at most hi, largest first: the set sorted with
      `(a, b) => b - a`. */
  function DescendingFrom(S: set<MonthIndex>, hi: int): (r: seq<MonthIndex>)
    requires hi <= 11
    ensures forall i :: 0 <= i < |r| ==> r[i] in S && r[i] <= hi
    ensures forall i, j :: 0 <= i < j < |r| ==> r[i] > r[j]
    decreases hi + 1
  {
    if hi < 0 then []
    else (if (hi as MonthIndex) in S then [hi as MonthIndex] else []) + DescendingFrom(S, hi - 1)
  }

  /** No member of S up to hi is left out of the sorted months. */
  lemma {:induction false} DescendingComplete(S: set<MonthIndex>, hi: int, m: MonthIndex)
    requires hi <= 11 && m <= hi && m in S
    ensures m in DescendingFrom(S, hi)
    decreases hi + 1
  {
    var rest := DescendingFrom(S, hi - 1);
    if m == hi {
      assert DescendingFrom(S, hi) == [m] + rest;
    } else {
      DescendingComplete(S, hi - 1, m);
      var i :| 0 <= i < |rest| && rest[i] == m;
      var head := if (hi as MonthIndex) in S then [hi as MonthIndex] else [];
      assert DescendingFrom(S, hi) == head + rest;
      assert DescendingFrom(S, hi)[|head| + i] == m;
    }
  }

  /** When S holds every month up to hi, the sorted months are hi, hi-1, ..., 0. */
  lemma {:induction false} DescendingAll(S: set<MonthIndex>, hi: int)
    requires -1 <= hi <= 11
    requires forall m: MonthIndex :: m <= hi ==> m in S
    ensures |DescendingFrom(S, hi)| == hi + 1
    ensures forall j :: 0 <= j < |DescendingFrom(S, hi)| ==> DescendingFrom(S, hi)[j] == hi - j
    decreases hi + 1
  {
    if hi >= 0 {
      DescendingAll(S, hi - 1);
      var rest := DescendingFrom(S, hi - 1);
      var r := DescendingFrom(S, hi);
      assert (hi as MonthIndex) in S;
      assert r == [hi as MonthIndex] + rest;
      forall j | 0 <= j < |r|
        ensures r[j] == hi - j
      {
        if j > 0 {
          assert r[j] == rest[j - 1];
        }
      }
    }
  }

  /** The transactions of the viewed year falling in month m. */
  function Bucket(all: seq<Transaction>, year: int, m: int): seq<Transaction> {
    Filter(Filter(all, InYear(year)), MonthIs(m))
  }

  /** The entry pushed for month m of the year with list ts: ts sorted
      newest first, its income sum and its expense sum. */
  function MonthEntry(year: int, m: MonthIndex, ts: seq<Transaction>): (g: MonthGroup)
    ensures g.date == Date(year, m, 1, 0)
  {
    var sorted := SortNewestFirst(ts);
    MonthGroup(Date(year, m, 1, 0), sorted, Total(Filter(sorted, IsIncome)), Total(Filter(sorted, IsExpense)))
  }

  /** The entry for month m: its bucket, sorted and summed. */
  function GroupFor(byYear: seq<Transaction>, year: int, m: MonthIndex): MonthGroup {
    MonthEntry(year, m, Filter(byYear, MonthIs(m)))
  }

  /** One entry per listed month, in the order of the list. */
  function Entries(byYear: seq<Transaction>, year: int, months: seq<MonthIndex>): (r: seq<MonthGroup>)
    ensures |r| == |months|
    ensures forall i :: 0 <= i < |r| ==> r[i] == GroupFor(byYear, year, months[i])
  {
    seq(|months|, j requires 0 <= j < |months| => GroupFor(byYear, year, months[j]))
  }

  /** `groupedTransactions` for the viewed year and now. */
  function MonthlyGroups(all: seq<Transaction>, year: int, now: Date): (r: seq<MonthGroup>)
    ensures year > now.year ==> r == []
    ensures forall i :: 0 <= i < |r| ==> r[i].date.year == year && r[i].date.day == 1 && r[i].date.millis == 0
    ensures forall i, j :: 0 <= i < j < |r| ==> r[i].date.month > r[j].date.month
  {
    if year > now.year then []
    else
      var byYear := Filter(all, InYear(year));
      var months := DescendingFrom(MonthSet(byYear, year, now), 11);
      Entries(byYear, year, months)
  }

  /** Step 2 of the component: the `groups` map, filled by appending each
      transaction of the year to its month's list. */
  method BucketByMonth(byYear: seq<Transaction>) returns (groups: map<MonthIndex, seq<Transaction>>)
    ensures forall m: MonthIndex :: m in groups ==> groups[m] == Filter(byYear, MonthIs(m))
    ensures forall m: MonthIndex :: m !in groups ==> Filter(byYear, MonthIs(m)) == []
    ensures groups.Keys == MonthsWithData(byYear)
  {
    groups := map[];
    var i := 0;
    while i < |byYear|
      invariant 0 <= i <= |byYear|
      invariant forall m: MonthIndex :: m in groups ==> groups[m] == Filter(byYear[..i], MonthIs(m)) && groups[m] != []
      invariant forall m: MonthIndex :: m !in groups ==> Filter(byYear[..i], MonthIs(m)) == []
    {
      var t := byYear[i];
      var month := DateOf(t).month;
      if month !in groups {
        groups := groups[month := []];
      }
      groups := groups[month := groups[month] + [t]];
      forall m: MonthIndex
        ensures Filter(byYear[..i + 1], MonthIs(m)) == Filter(byYear[..i], MonthIs(m)) + (if m == month then [t] else [])
      {
        assert byYear[..i + 1] == byYear[..i] + [t];
        FilterAppend(byYear[..i], [t], MonthIs(m));
        FilterSingle(t, MonthIs(m));
      }
      i := i + 1;
    }
    assert byYear[..i] == byYear;
    GroupKeys(byYear, groups);
  }

  /** Step 3 of the component: `monthsToShow`, the months 0..maxMonth and
      then every key of `groups`. */
  method CollectMonths(groups: map<MonthIndex, seq<Transaction>>, maxMonth: int) returns (monthsToShow: set<MonthIndex>)
    requires maxMonth <= 11
    ensures monthsToShow == MonthsUpTo(maxMonth) + groups.Keys
  {
    monthsToShow := {};
    var m: int := 0;
    while m <= maxMonth
      invariant 0 <= m <= if maxMonth < 0 then 0 else maxMonth + 1
      invariant monthsToShow == MonthsUpTo(m - 1)
    {
      monthsToShow := monthsToShow + {m as MonthIndex};
      m := m + 1;
    }
    var keys := groups.Keys;
    ghost var base := monthsToShow;
    while keys != {}
      invariant keys <= groups.Keys
      invariant monthsToShow == base + (groups.Keys - keys)
      decreases keys
    {
      var k :| k in keys;
      monthsToShow := monthsToShow + {k};
      keys := keys - {k};
    }
  }

  /** Step 4 of the component: one entry per sorted month, its list sorted
      newest first and summed by kind. */
  method AssembleGroups(byYear: seq<Transaction>, groups: map<MonthIndex, seq<Transaction>>, year: int, now: Date,
                        sortedMonths: seq<MonthIndex>) returns (result: seq<MonthGroup>)
    requires year <= now.year
    requires forall m: MonthIndex :: m in groups ==> groups[m] == Filter(byYear, MonthIs(m))
    requires forall m: MonthIndex :: m !in groups ==> Filter(byYear, MonthIs(m)) == []
    requires forall i :: 0 <= i < |sortedMonths| ==> year < now.year || sortedMonths[i] <= now.month || sortedMonths[i] in groups
    ensures |result| == |sortedMonths|
    ensures forall q :: 0 <= q < |result| ==> result[q] == GroupFor(byYear, year, sortedMonths[q])
  {
    result := [];
    var j := 0;
    while j < |sortedMonths|
      invariant 0 <= j <= |sortedMonths|
      invariant |result| == j
      invariant forall q :: 0 <= q < j ==> result[q] == GroupFor(byYear, year, sortedMonths[q])
    {
      var month := sortedMonths[j];
      if year == now.year && month > now.month && month !in groups {
        // The component skips such a month here; none reaches this point.
        assert false;
      } else {
        var monthTransactions := if month in groups then groups[month] else [];
        result := result + [MonthEntry(year, month, monthTransactions)];
      }
      j := j + 1;
    }
  }

  /** The computation as the component performs it. */
  method GroupedTransactions(all: seq<Transaction>, year: int, now: Date) returns (result: seq<MonthGroup>)
    ensures result == MonthlyGroups(all, year, now)
  {
    var byYear := Filter(all, InYear(year));
    var groups := BucketByMonth(byYear);

    var maxMonth: int := 11;
    if year == now.year {
      maxMonth := now.month;
    } else if year > now.year {
      return [];
    }
    var monthsToShow := CollectMonths(groups, maxMonth);
    assert monthsToShow == MonthSet(byYear, year, now);

    var sortedMonths := DescendingFrom(monthsToShow, 11);
    forall i | 0 <= i < |sortedMonths|
      ensures year < now.year || sortedMonths[i] <= now.month || sortedMonths[i] in groups
    {
      SkipNeverApplies(byYear, year, now, sortedMonths[i]);
    }
    result := AssembleGroups(byYear, groups, year, now, sortedMonths);
    MonthsOfGroups(all, year, now);
  }

  /** A month has a bucket exactly when some transaction falls in it. */
  lemma GroupKeys(byYear: seq<Transaction>, groups: map<MonthIndex, seq<Transaction>>)
    requires forall m: MonthIndex :: m in groups ==> Filter(byYear, MonthIs(m)) != []
    requires forall m: MonthIndex :: m !in groups ==> Filter(byYear, MonthIs(m)) == []
    ensures groups.Keys == MonthsWithData(byYear)
  {
    forall m: MonthIndex
      ensures m in groups <==> m in MonthsWithData(byYear)
    {
      BucketNonEmpty(byYear, m);
    }
  }

  lemma BucketNonEmpty(s: seq<Transaction>, m: MonthIndex)
    ensures Filter(s, MonthIs(m)) != [] <==> m in MonthsWithData(s)
  {
    var b := Filter(s, MonthIs(m));
    FilterMembers(s, MonthIs(m));
    if b != [] {
      assert b[0] in s && MonthIs(m)(b[0]);
      var i :| 0 <= i < |s| && s[i] == b[0];
      assert DateOf(s[i]).month == m;
    }
    if m in MonthsWithData(s) {
      var i :| 0 <= i < |s| && DateOf(s[i]).month == m;
      assert MonthIs(m)(s[i]);
      assert s[i] in b;
    }
  }

  /** The month of a transaction of the viewed year is among the months with
      data exactly when such a transaction exists in the full list. */
  lemma InYearMonthIff(all: seq<Transaction>, year: int, m: MonthIndex)
    ensures m in MonthsWithData(Filter(all, InYear(year)))
      <==> exists k :: 0 <= k < |all| && DateOf(all[k]).year == year && DateOf(all[k]).month == m
  {
    var byYear := Filter(all, InYear(year));
    FilterMembers(all, InYear(year));
    if m in MonthsWithData(byYear) {
      var i :| 0 <= i < |byYear| && DateOf(byYear[i]).month == m;
      assert byYear[i] in all && InYear(year)(byYear[i]);
      var k :| 0 <= k < |all| && all[k] == byYear[i];
      assert DateOf(all[k]).year == year && DateOf(all[k]).month == m;
    }
    if exists k :: 0 <= k < |all| && DateOf(all[k]).year == year && DateOf(all[k]).month == m {
      var k :| 0 <= k < |all| && DateOf(all[k]).year == year && DateOf(all[k]).month == m;
      assert InYear(year)(all[k]);
      assert all[k] in byYear;
      var i :| 0 <= i < |byYear| && byYear[i] == all[k];
      assert DateOf(byYear[i]).month == m;
    }
  }

  /** The guard at the skip inside the result loop never holds for a month of
      the month set: a late month of the current year is there only when it
      has data. */
  lemma SkipNeverApplies(byYear: seq<Transaction>, year: int, now: Date, m: MonthIndex)
    requires year <= now.year && m in MonthSet(byYear, year, now)
    ensures !(year == now.year && m > now.month && m !in MonthsWithData(byYear))
  {
  }

  /** The entries of the result are one group per sorted month. */
  lemma MonthsOfGroups(all: seq<Transaction>, year: int, now: Date)
    requires year <= now.year
    ensures var byYear := Filter(all, InYear(year));
      var months := DescendingFrom(MonthSet(byYear, year, now), 11);
      var r := MonthlyGroups(all, year, now);
      |r| == |months| && forall i :: 0 <= i < |r| ==> r[i] == GroupFor(byYear, year, months[i])
  {
  }

  /** A month is shown exactly when it belongs to the month set. */
  lemma ShownIffInMonthSet(all: seq<Transaction>, year: int, now: Date, m: MonthIndex)
    requires year <= now.year
    ensures var r := MonthlyGroups(all, year, now);
      (exists i :: 0 <= i < |r| && r[i].date.month == m) <==> m in MonthSet(Filter(all, InYear(year)), year, now)
  {
    var r := MonthlyGroups(all, year, now);
    var byYear := Filter(all, InYear(year));
    var S := MonthSet(byYear, year, now);
    var months := DescendingFrom(S, 11);
    MonthsOfGroups(all, year, now);
    if m in S {
      DescendingComplete(S, 11, m);
      var i :| 0 <= i < |months| && months[i] == m;
      assert r[i] == GroupFor(byYear, year, m);
      assert r[i].date.month == m;
    }
    if exists i :: 0 <= i < |r| && r[i].date.month == m {
      var i :| 0 <= i < |r| && r[i].date.month == m;
      assert r[i] == GroupFor(byYear, year, months[i]);
      assert months[i] == m;
    }
  }

  lemma TransactionOfGroup(all: seq<Transaction>, year: int, now: Date, i: int, k: int)
    requires var r := MonthlyGroups(all, year, now); 0 <= i < |r| && 0 <= k < |r[i].transactions|
    ensures var t := MonthlyGroups(all, year, now)[i].transactions[k];
      && t in all
      && DateOf(t).year == year
      && DateOf(t).month == MonthlyGroups(all, year, now)[i].date.month
  {
    var r := MonthlyGroups(all, year, now);
    var byYear := Filter(all, InYear(year));
    var months := DescendingFrom(MonthSet(byYear, year, now), 11);
    MonthsOfGroups(all, year, now);
    var m := months[i];
    var bucket := Filter(byYear, MonthIs(m));
    assert r[i] == GroupFor(byYear, year, m);
    var t := r[i].transactions[k];
    assert r[i].transactions == SortNewestFirst(bucket);
    assert t in multiset(r[i].transactions);
    assert t in bucket;
    FilterMembers(byYear, MonthIs(m));
    var b :| 0 <= b < |bucket| && bucket[b] == t;
    assert t in byYear && MonthIs(m)(t);
    FilterMembers(all, InYear(year));
    var y :| 0 <= y < |byYear| && byYear[y] == t;
    assert InYear(year)(t);
  }

  /** Every transaction shown belongs to the list, to the viewed year and to
      the month of the group that shows it. */
  lemma GroupsHoldOwnMonth(all: seq<Transaction>, year: int, now: Date)
    ensures var r := MonthlyGroups(all, year, now);
      forall i, k :: 0 <= i < |r| && 0 <= k < |r[i].transactions| ==>
        && r[i].transactions[k] in all
        && DateOf(r[i].transactions[k]).year == year
        && DateOf(r[i].transactions[k]).month == r[i].date.month
  {
    var r := MonthlyGroups(all, year, now);
    forall i, k | 0 <= i < |r| && 0 <= k < |r[i].transactions|
      ensures r[i].transactions[k] in all
      ensures DateOf(r[i].transactions[k]).year == year
      ensures DateOf(r[i].transactions[k]).month == r[i].date.month
    {
      TransactionOfGroup(all, year, now, i, k);
    }
  }

  /** A transaction of the viewed year is in its month's bucket. */
  lemma InOwnBucket(all: seq<Transaction>, year: int, k: int)
    requires 0 <= k < |all| && DateOf(all[k]).year == year
    ensures all[k] in Filter(Filter(all, InYear(year)), MonthIs(DateOf(all[k]).month))
  {
    var t := all[k];
    var byYear := Filter(all, InYear(year));
    assert InYear(year)(t);
    FilterMembers(all, InYear(year));
    assert t in byYear;
    var y :| 0 <= y < |byYear| && byYear[y] == t;
    assert MonthIs(DateOf(t).month)(t);
    FilterMembers(byYear, MonthIs(DateOf(t).month));
  }

  /** Conversely, for a year not after now's, every transaction of that year
      is shown, in the group of its own month. */
  lemma GroupsHoldEveryTransaction(all: seq<Transaction>, year: int, now: Date, k: int)
    requires year <= now.year
    requires 0 <= k < |all| && DateOf(all[k]).year == year
    ensures var r := MonthlyGroups(all, year, now);
      exists i :: 0 <= i < |r| && r[i].date.month == DateOf(all[k]).month && all[k] in r[i].transactions
  {
    var r := MonthlyGroups(all, year, now);
    var byYear := Filter(all, InYear(year));
    var months := DescendingFrom(MonthSet(byYear, year, now), 11);
    var m := DateOf(all[k]).month;
    InYearMonthIff(all, year, m);
    ShownIffInMonthSet(all, year, now, m);
    var i :| 0 <= i < |r| && r[i].date.month == m;
    MonthsOfGroups(all, year, now);
    assert r[i] == GroupFor(byYear, year, months[i]);
    var bucket := Filter(byYear, MonthIs(m));
    InOwnBucket(all, year, k);
    assert r[i].transactions == SortNewestFirst(bucket);
    assert all[k] in multiset(bucket);
    assert all[k] in multiset(r[i].transactions);
  }

  /** A past year shows all twelve months, December first, empty ones too. */
  lemma PastYearShowsTwelveMonths(all: seq<Transaction>, year: int, now: Date)
    requires year < now.year
    ensures var r := MonthlyGroups(all, year, now);
      |r| == 12 && forall j :: 0 <= j < 12 ==> r[j].date.month == 11 - j
  {
    var byYear := Filter(all, InYear(year));
    DescendingAll(MonthSet(byYear, year, now), 11);
  }

  /** In the current year a month is shown exactly when it is not after now's
      month or some transaction of the year falls in it. */
  lemma CurrentYearMonths(all: seq<Transaction>, now: Date, m: MonthIndex)
    ensures var r := MonthlyGroups(all, now.year, now);
      (exists i :: 0 <= i < |r| && r[i].date.month == m)
      <==> (m <= now.month || exists k :: 0 <= k < |all| && DateOf(all[k]).year == now.year && DateOf(all[k]).month == m)
  {
    ShownIffInMonthSet(all, now.year, now, m);
    InYearMonthIff(all, now.year, m);
  }

  /** Each group is its month's bucket, reordered newest first, and its sums
      are the income and expense amounts of that bucket. */
  lemma GroupIsSortedBucket(all: seq<Transaction>, year: int, now: Date)
    ensures var r := MonthlyGroups(all, year, now);
      forall i :: 0 <= i < |r| ==>
        && SortedNewestFirst(r[i].transactions)
        && multiset(r[i].transactions) == multiset(Bucket(all, year, r[i].date.month))
        && r[i].totalIncome == Total(Filter(Bucket(all, year, r[i].date.month), IsIncome))
        && r[i].totalExpense == Total(Filter(Bucket(all, year, r[i].date.month), IsExpense))
  {
    var r := MonthlyGroups(all, year, now);
    forall i | 0 <= i < |r|
      ensures SortedNewestFirst(r[i].transactions)
      ensures multiset(r[i].transactions) == multiset(Bucket(all, year, r[i].date.month))
      ensures r[i].totalIncome == Total(Filter(Bucket(all, year, r[i].date.month), IsIncome))
      ensures r[i].totalExpense == Total(Filter(Bucket(all, year, r[i].date.month), IsExpense))
    {
      var bucket := Bucket(all, year, r[i].date.month);
      assert r[i].transactions == SortNewestFirst(bucket);
      SortIsSortedPermutation(bucket);
      TotalFilterSort(bucket, IsIncome);
      TotalFilterSort(bucket, IsExpense);
    }
  }

  /** `totalYearIncome`: the sum of the groups' income totals. */
  function TotalYearIncome(gs: seq<MonthGroup>): (r: real)
    ensures (forall i :: 0 <= i < |gs| ==> gs[i].totalIncome >= 0.0) ==>
      r >= 0.0 && forall i :: 0 <= i < |gs| ==> gs[i].totalIncome <= r
  {
    if gs == [] then 0.0 else gs[0].totalIncome + TotalYearIncome(gs[1..])
  }

  /** `totalYearExpenses`: the sum of the groups' expense totals. */
  function TotalYearExpenses(gs: seq<MonthGroup>): (r: real)
    ensures (forall i :: 0 <= i < |gs| ==> gs[i].totalExpense >= 0.0) ==>
      r >= 0.0 && forall i :: 0 <= i < |gs| ==> gs[i].totalExpense <= r
  {
    if gs == [] then 0.0 else gs[0].totalExpense + TotalYearExpenses(gs[1..])
  }

  /** The sum over the listed months of what p selects in each month. */
  function MonthSum(byYear: seq<Transaction>, ms: seq<MonthIndex>, p: Transaction -> bool): real {
    if ms == [] then 0.0 else Total(Filter(Filter(byYear, MonthIs(ms[0])), p)) + MonthSum(byYear, ms[1..], p)
  }

  /** The same sum over the months 0..hi. */
  function UpToMonthSum(s: seq<Transaction>, hi: int, p: Transaction -> bool): real
    requires hi <= 11
    decreases hi + 1
  {
    if hi < 0 then 0.0 else Total(Filter(Filter(s, MonthIs(hi)), p)) + UpToMonthSum(s, hi - 1, p)
  }

  lemma {:induction false} IncomeOfGroups(gs: seq<MonthGroup>, byYear: seq<Transaction>, ms: seq<MonthIndex>)
    requires |gs| == |ms|
    requires forall j :: 0 <= j < |gs| ==> gs[j].totalIncome == Total(Filter(Filter(byYear, MonthIs(ms[j])), IsIncome))
    ensures TotalYearIncome(gs) == MonthSum(byYear, ms, IsIncome)
  {
    if gs != [] {
      IncomeOfGroups(gs[1..], byYear, ms[1..]);
    }
  }

  lemma {:induction false} ExpensesOfGroups(gs: seq<MonthGroup>, byYear: seq<Transaction>, ms: seq<MonthIndex>)
    requires |gs| == |ms|
    requires forall j :: 0 <= j < |gs| ==> gs[j].totalExpense == Total(Filter(Filter(byYear, MonthIs(ms[j])), IsExpense))
    ensures TotalYearExpenses(gs) == MonthSum(byYear, ms, IsExpense)
  {
    if gs != [] {
      ExpensesOfGroups(gs[1..], byYear, ms[1..]);
    }
  }

  /** Summing over the sorted month set loses nothing when every month with
      data is in the set: the other months contribute zero. */
  lemma {:induction false} DescendingSum(s: seq<Transaction>, S: set<MonthIndex>, hi: int, p: Transaction -> bool)
    requires hi <= 11
    requires MonthsWithData(s) <= S
    ensures MonthSum(s, DescendingFrom(S, hi), p) == UpToMonthSum(s, hi, p)
    decreases hi + 1
  {
    if hi >= 0 {
      DescendingSum(s, S, hi - 1, p);
      var rest := DescendingFrom(S, hi - 1);
      var h := hi as MonthIndex;
      if h in S {
        var ms := [h] + rest;
        assert DescendingFrom(S, hi) == ms;
        assert ms[0] == h && ms[1..] == rest;
      } else {
        assert DescendingFrom(S, hi) == rest;
        BucketNonEmpty(s, h);
        assert Filter(s, MonthIs(h)) == [];
        assert Filter([], p) == [];
      }
    }
  }

  lemma {:induction false} UpToMonthSumAppend(a: seq<Transaction>, b: seq<Transaction>, hi: int, p: Transaction -> bool)
    requires hi <= 11
    ensures UpToMonthSum(a + b, hi, p) == UpToMonthSum(a, hi, p) + UpToMonthSum(b, hi, p)
    decreases hi + 1
  {
    if hi >= 0 {
      UpToMonthSumAppend(a, b, hi - 1, p);
      FilterAppend(a, b, MonthIs(hi));
      TotalFilterAppend(Filter(a, MonthIs(hi)), Filter(b, MonthIs(hi)), p);
    }
  }

  lemma {:induction false} UpToMonthSumSingle(x: Transaction, hi: int, p: Transaction -> bool)
    requires hi <= 11
    ensures UpToMonthSum([x], hi, p) == if p(x) && DateOf(x).month <= hi then AmountOf(x) else 0.0
    decreases hi + 1
  {
    if hi >= 0 {
      UpToMonthSumSingle(x, hi - 1, p);
      FilterSingle(x, MonthIs(hi));
      FilterSingle(x, p);
      assert Filter([], p) == [];
      assert Total([x]) == AmountOf(x) by {
        assert [x][1..] == [];
      }
    }
  }

  lemma TotalFilterSingle(x: Transaction, p: Transaction -> bool)
    ensures Total(Filter([x], p)) == if p(x) then AmountOf(x) else 0.0
  {
    FilterSingle(x, p);
    assert [x][1..] == [];
  }

  /** Summing month by month over the whole year gives the plain total. */
  lemma {:induction false} UpToMonthSumWhole(s: seq<Transaction>, p: Transaction -> bool)
    ensures UpToMonthSum(s, 11, p) == Total(Filter(s, p))
  {
    if s == [] {
      UpToMonthSumEmpty(11, p);
    } else {
      var x, rest := s[0], s[1..];
      assert s == [x] + rest;
      UpToMonthSumWhole(rest, p);
      UpToMonthSumAppend([x], rest, 11, p);
      UpToMonthSumSingle(x, 11, p);
      TotalFilterAppend([x], rest, p);
      TotalFilterSingle(x, p);
      assert UpToMonthSum(s, 11, p) == UpToMonthSum([x], 11, p) + UpToMonthSum(rest, 11, p);
      assert Total(Filter(s, p)) == Total(Filter([x], p)) + Total(Filter(rest, p));
    }
  }

  lemma {:induction false} UpToMonthSumEmpty(hi: int, p: Transaction -> bool)
    requires hi <= 11
    ensures UpToMonthSum([], hi, p) == 0.0
    decreases hi + 1
  {
    if hi >= 0 {
      UpToMonthSumEmpty(hi - 1, p);
      assert Filter([], MonthIs(hi)) == [];
      assert Filter([], p) == [];
    }
  }

  lemma YearIncome(all: seq<Transaction>, year: int, now: Date)
    requires year <= now.year
    ensures TotalYearIncome(MonthlyGroups(all, year, now)) == Total(Filter(Filter(all, InYear(year)), IsIncome))
  {
    var r := MonthlyGroups(all, year, now);
    var byYear := Filter(all, InYear(year));
    var S := MonthSet(byYear, year, now);
    var months := DescendingFrom(S, 11);
    MonthsOfGroups(all, year, now);
    forall j | 0 <= j < |r|
      ensures r[j].totalIncome == Total(Filter(Filter(byYear, MonthIs(months[j])), IsIncome))
    {
      TotalFilterSort(Filter(byYear, MonthIs(months[j])), IsIncome);
    }
    IncomeOfGroups(r, byYear, months);
    DescendingSum(byYear, S, 11, IsIncome);
    UpToMonthSumWhole(byYear, IsIncome);
  }

  lemma YearExpenses(all: seq<Transaction>, year: int, now: Date)
    requires year <= now.year
    ensures TotalYearExpenses(MonthlyGroups(all, year, now)) == Total(Filter(Filter(all, InYear(year)), IsExpense))
  {
    var r := MonthlyGroups(all, year, now);
    var byYear := Filter(all, InYear(year));
    var S := MonthSet(byYear, year, now);
    var months := DescendingFrom(S, 11);
    MonthsOfGroups(all, year, now);
    forall j | 0 <= j < |r|
      ensures r[j].totalExpense == Total(Filter(Filter(byYear, MonthIs(months[j])), IsExpense))
    {
      TotalFilterSort(Filter(byYear, MonthIs(months[j])), IsExpense);
    }
    ExpensesOfGroups(r, byYear, months);
    DescendingSum(byYear, S, 11, IsExpense);
    UpToMonthSumWhole(byYear, IsExpense);
  }

  /** The year totals are the income and the expense amounts of the viewed
      year's transactions; for a year after now's they are zero. */
  lemma YearTotals(all: seq<Transaction>, year: int, now: Date)
    ensures var r := MonthlyGroups(all, year, now);
      && TotalYearIncome(r) == (if year <= now.year then Total(Filter(Filter(all, InYear(year)), IsIncome)) else 0.0)
      && TotalYearExpenses(r) == (if year <= now.year then Total(Filter(Filter(all, InYear(year)), IsExpense)) else 0.0)
  {
    if year <= now.year {
      YearIncome(all, year, now);
      YearExpenses(all, year, now);
    }
  }

  /** The label of an optional reference: "" when the id is absent or empty,
      the first match's name when that is non-empty, `Unknown` otherwise. */
  function NameOf<T>(s: seq<T>, id: Option<string>, idOf: T -> string, nameOf: T -> string): (r: string)
    ensures !Truthy(id) ==> r == ""
    ensures Truthy(id) && (forall j :: 0 <= j < |s| ==> idOf(s[j]) != id.value) ==> r == Unknown
    ensures forall k :: Truthy(id) && FirstWithId(s, id.value, idOf, k) ==> r == (if nameOf(s[k]) != "" then nameOf(s[k]) else Unknown)
    ensures r == "" <==> !Truthy(id)
  {
    if !Truthy(id) then ""
    else
      match Find(s, x => idOf(x) == id.value)
      case None => Unknown
      case Some(x) => if nameOf(x) != "" then nameOf(x) else Unknown
  }

  function BudgetName(b: Budget): string { b.info.name }
  function AccountName(a: Account): string { a.info.name }
  function CardName(c: CreditCard): string { c.details.displayName }

  /** `getBudgetName`. */
  function BudgetLabel(budgets: seq<Budget>, id: Option<string>): (r: string)
    ensures r == "" <==> !Truthy(id)
    ensures Truthy(id) && (forall j :: 0 <= j < |budgets| ==> budgets[j].id != id.value) ==> r == Unknown
    ensures forall k :: Truthy(id) && FirstWithId(budgets, id.value, BudgetId, k) ==>
      r == (if budgets[k].info.name != "" then budgets[k].info.name else Unknown)
  {
    NameOf(budgets, id, BudgetId, BudgetName)
  }

  /** `getAccountName`. */
  function AccountLabel(accounts: seq<Account>, id: Option<string>): (r: string)
    ensures r == "" <==> !Truthy(id)
    ensures Truthy(id) && (forall j :: 0 <= j < |accounts| ==> accounts[j].id != id.value) ==> r == Unknown
    ensures forall k :: Truthy(id) && FirstWithId(accounts, id.value, AccountId, k) ==>
      r == (if accounts[k].info.name != "" then accounts[k].info.name else Unknown)
  {
    NameOf(accounts, id, AccountId, AccountName)
  }

  /** `getCardName`. */
  function CardLabel(cards: seq<CreditCard>, id: Option<string>): (r: string)
    ensures r == "" <==> !Truthy(id)
    ensures Truthy(id) && (forall j :: 0 <= j < |cards| ==> cards[j].id != id.value) ==> r == Unknown
    ensures forall k :: Truthy(id) && FirstWithId(cards, id.value, CardId, k) ==>
      r == (if cards[k].details.displayName != "" then cards[k].details.displayName else Unknown)
  {
    NameOf(cards, id, CardId, CardName)
  }

  /** `getBudgetId` and `getCreditCardId`: an expense's references; an
      income has none. */
  function BudgetIdOf(t: Transaction): (r: Option<string>)
    ensures r.Some? <==> IsExpense(t)
    ensures IsExpense(t) ==> r == Some(t.expense.info.budgetId)
  {
    match t
    case Exp(e) => Some(e.info.budgetId)
    case Inc(_) => None
  }

  function CreditCardIdOf(t: Transaction): (r: Option<string>)
    ensures IsIncome(t) ==> r.None?
    ensures IsExpense(t) ==> r == t.expense.info.creditCardId
  {
    match t
    case Exp(e) => e.info.creditCardId
    case Inc(_) => None
  }

  /** `getTargetType`, `getReceivingAccountId` and `getReceivingCreditCardId`:
      an income's target; an expense has none. */
  function TargetTypeOf(t: Transaction): (r: Option<TargetType>)
    ensures r.Some? <==> IsIncome(t)
    ensures IsIncome(t) ==> r == Some(t.income.info.targetType)
  {
    match t
    case Exp(_) => None
    case Inc(i) => Some(i.info.targetType)
  }

  function ReceivingAccountIdOf(t: Transaction): (r: Option<string>)
    ensures IsExpense(t) ==> r.None?
    ensures IsIncome(t) ==> r == t.income.info.receivingAccountId
  {
    match t
    case Exp(_) => None
    case Inc(i) => i.info.receivingAccountId
  }

  function ReceivingCreditCardIdOf(t: Transaction): (r: Option<string>)
    ensures IsExpense(t) ==> r.None?
    ensures IsIncome(t) ==> r == t.income.info.receivingCreditCardId
  {
    match t
    case Exp(_) => None
    case Inc(i) => i.info.receivingCreditCardId
  }

  /** An income row names no budget and no paying card, and an expense row
      no receiving account or card, whatever the loaded lists hold. */
  lemma RowLabelsOfKind(t: Transaction, budgets: seq<Budget>, accounts: seq<Account>, cards: seq<CreditCard>)
    ensures IsIncome(t) ==> BudgetLabel(budgets, BudgetIdOf(t)) == "" && CardLabel(cards, CreditCardIdOf(t)) == ""
    ensures IsExpense(t) ==> AccountLabel(accounts, ReceivingAccountIdOf(t)) == "" && CardLabel(cards, ReceivingCreditCardIdOf(t)) == ""
  {
  }

  /** The page's navigation state: the viewed year, starting at now's. */
  class TransactionsPage {
    var currentYear: int

    constructor(now: Date)
      ensures currentYear == now.year
    {
      currentYear := now.year;
    }

    method PrevYear()
      modifies this
      ensures currentYear == old(currentYear) - 1
    {
      currentYear := currentYear - 1;
    }

    method NextYear()
      modifies this
      ensures currentYear == old(currentYear) + 1
    {
      currentYear := currentYear + 1;
    }

    /** What the page shows for the viewed year. */
    method Groups(all: seq<Transaction>, now: Date) returns (r: seq<MonthGroup>)
      ensures r == MonthlyGroups(all, currentYear, now)
    {
      r := GroupedTransactions(all, currentYear, now);
    }
  }
}
