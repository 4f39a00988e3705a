/** The home page: the transaction filter, the income and expense totals,
    the list of years offered by the year filter, and the draft behind the
    "add transaction" form. */
module Dashboard {
  import opened Seqs
  import opened JsNumbers
  import opened Types
  import Store

  // ---------------------------------------------------------------------
  // Filtering

  /** `a` is strictly earlier than `b`. */
  predicate DateBefore(a: Date, b: Date) {
    a.year < b.year || (a.year == b.year && (a.month < b.month || (a.month == b.month && a.day < b.day)))
  }

  /** `Date.prototype.getMonth`: the 0-based month. */
  function MonthIndex(d: Date): int {
    d.month - 1
  }

  /** The four filter inputs. An empty start or end date is `None`; the
      month select's value is `None` for "all" and `Some(m)` for month `m`
      (1 to 12); the year select's value is the year's text or "". */
  datatype Filters = Filters(startDate: Option<Date>, endDate: Option<Date>, month: Option<int>, year: string)

  const NoFilters: Filters := Filters(None, None, None, "")

  /** When `e` precedes `s`, no date lies on or after `s` and on or before `e`. */
  lemma NothingBetweenInverted(s: Date, e: Date, d: Date)
    requires DateBefore(e, s)
    ensures DateBefore(d, s) || DateBefore(e, d)
  {
  }

  /** The date-range filter applies only when both ends are set; both ends
      are inclusive, so a range whose end precedes its start keeps nothing. */
  predicate InDateRange(f: Filters, d: Date)
    ensures f.startDate.Some? && f.endDate.Some? && DateBefore(f.endDate.value, f.startDate.value) ==> !InDateRange(f, d)
  {
    if f.startDate.Some? && f.endDate.Some? then
      var s, e := f.startDate.value, f.endDate.value;
      if DateBefore(e, s) then NothingBetweenInverted(s, e, d); !DateBefore(d, s) && !DateBefore(e, d)
      else !DateBefore(d, s) && !DateBefore(e, d)
    else true
  }

  /** The month filter compares the 0-based month with the selected month
      minus one, which keeps exactly the dates in the selected month. */
  predicate InMonth(f: Filters, d: Date)
    ensures f.month.Some? ==> (InMonth(f, d) <==> d.month == f.month.value)
    ensures f.month.None? ==> InMonth(f, d)
  {
    f.month.Some? ==> MonthIndex(d) == f.month.value - 1
  }

  /** The year filter compares the year's decimal text with the selected
      text, so a selected text keeps only dates in the year it spells. */
  predicate InYear(f: Filters, d: Date)
    ensures f.year != [] && InYear(f, d) ==> d.year == DigitsValue(f.year)
    ensures f.year == [] ==> InYear(f, d)
  {
    DecimalTextRoundTrip(d.year);
    f.year != [] ==> DecimalText(d.year) == f.year
  }

  /** A transaction passes when it passes every active filter: inside a
      set range, in a set month and in a set year. */
  predicate Passes(f: Filters, t: Transaction)
    ensures Passes(f, t) && f.month.Some? ==> t.date.month == f.month.value
    ensures Passes(f, t) && f.year != [] ==> t.date.year == DigitsValue(f.year)
    ensures Passes(f, t) && f.startDate.Some? && f.endDate.Some? ==>
              !DateBefore(t.date, f.startDate.value) && !DateBefore(f.endDate.value, t.date)
    ensures f == NoFilters ==> Passes(f, t)
  {
    InDateRange(f, t.date) && InMonth(f, t.date) && InYear(f, t.date)
  }

  function Keep(f: Filters): Transaction -> bool {
    (t: Transaction) => Passes(f, t)
  }

  /** `filteredTransactions`: a transaction is kept exactly when it passes
      every active filter. */
  function Filtered(ts: seq<Transaction>, f: Filters): (r: seq<Transaction>)
    ensures forall i :: 0 <= i < |r| ==> r[i] in ts && Passes(f, r[i])
    ensures forall i :: 0 <= i < |ts| && Passes(f, ts[i]) ==> ts[i] in r
    ensures forall i :: 0 <= i < |ts| ==> multiset(r)[ts[i]] == if Passes(f, ts[i]) then multiset(ts)[ts[i]] else 0
    ensures forall t :: t in r <==> t in ts && Passes(f, t)
  {
    Filter(ts, Keep(f))
  }

  /** The filtered list is an order-preserving subsequence of the transactions. */
  lemma FilteredKeepsOrder(ts: seq<Transaction>, f: Filters)
    ensures IsSubsequence(Filtered(ts, f), ts)
  {
    FilterIsSubsequence(ts, Keep(f));
  }

  /** With every filter field empty, the list is shown whole and in order. */
  lemma NoFiltersKeepAll(ts: seq<Transaction>)
    ensures Filtered(ts, NoFilters) == ts
  {
    FilterAllPass(ts, Keep(NoFilters));
  }

  /** Setting only one end of the date range filters nothing by date, and
      a transaction dated on either end of a full range is inside it. */
  lemma DateRangeInclusive(f: Filters, d: Date)
    ensures f.startDate.None? || f.endDate.None? ==> InDateRange(f, d)
    ensures f.startDate == Some(d) && f.endDate.Some? && !DateBefore(f.endDate.value, d) ==> InDateRange(f, d)
    ensures f.endDate == Some(d) && f.startDate.Some? && !DateBefore(d, f.startDate.value) ==> InDateRange(f, d)
  {
  }

  // ---------------------------------------------------------------------
  // Totals

  function HasKind(k: TxType): Transaction -> bool {
    (t: Transaction) => t.kind == k
  }

  function OfKind(ts: seq<Transaction>, k: TxType): (r: seq<Transaction>)
    ensures forall i :: 0 <= i < |r| ==> r[i] in ts && r[i].kind == k
    ensures forall i :: 0 <= i < |ts| && ts[i].kind == k ==> ts[i] in r
    ensures forall i :: 0 <= i < |ts| ==> multiset(r)[ts[i]] == if ts[i].kind == k then multiset(ts)[ts[i]] else 0
    ensures forall t :: t in r <==> t in ts && t.kind == k
  {
    Filter(ts, HasKind(k))
  }

  /** `ts.reduce((acc, t) => acc + t.amount, 0)`: a left fold from zero.
      A single NaN amount makes the whole sum NaN, and only a NaN amount does. */
  function SumAmounts(ts: seq<Transaction>): (r: Number)
    ensures r.Finite? <==> forall i :: 0 <= i < |ts| ==> ts[i].amount.Finite?
  {
    if ts == [] then Finite(0.0)
    else
      var front := ts[..|ts| - 1];
      assert forall i :: 0 <= i < |front| ==> front[i] == ts[i];
      Add(SumAmounts(front), ts[|ts| - 1].amount)
  }

  /** The same sum, taken from the front. */
  lemma {:induction false} SumAmountsCons(t: Transaction, ts: seq<Transaction>)
    ensures SumAmounts([t] + ts) == Add(t.amount, SumAmounts(ts))
    decreases |ts|
  {
    if ts != [] {
      var front := ts[..|ts| - 1];
      assert ([t] + ts)[..|ts|] == [t] + front;
      SumAmountsCons(t, front);
    }
  }

  /** `totalIncome`: the sum over the filtered income transactions. It is
      NaN exactly when one of them has a NaN amount. */
  function TotalIncome(ts: seq<Transaction>, f: Filters): (r: Number)
    ensures r.NaN? <==> exists i :: 0 <= i < |ts| && Passes(f, ts[i]) && ts[i].kind == Income && ts[i].amount.NaN?
  {
    var chosen := OfKind(Filtered(ts, f), Income);
    SelectedSumNaN(ts, f, Income);
    SumAmounts(chosen)
  }

  /** `totalExpenses`: the sum over the filtered expense transactions. It is
      NaN exactly when one of them has a NaN amount. */
  function TotalExpenses(ts: seq<Transaction>, f: Filters): (r: Number)
    ensures r.NaN? <==> exists i :: 0 <= i < |ts| && Passes(f, ts[i]) && ts[i].kind == Expense && ts[i].amount.NaN?
  {
    var chosen := OfKind(Filtered(ts, f), Expense);
    SelectedSumNaN(ts, f, Expense);
    SumAmounts(chosen)
  }

  /** The sum over the filtered transactions of one kind is NaN exactly
      when one of them has a NaN amount. */
  lemma SelectedSumNaN(ts: seq<Transaction>, f: Filters, k: TxType)
    ensures SumAmounts(OfKind(Filtered(ts, f), k)).NaN? <==>
            exists i :: 0 <= i < |ts| && Passes(f, ts[i]) && ts[i].kind == k && ts[i].amount.NaN?
  {
    var chosen := OfKind(Filtered(ts, f), k);
    if SumAmounts(chosen).NaN? {
      var j :| 0 <= j < |chosen| && chosen[j].amount.NaN?;
      assert chosen[j] in ts;
    }
  }

  /** Income and expense split a list: every transaction lands in exactly
      one of the two, so the two counts add up to the list's length and the
      two sums add up to the list's sum. */
  lemma {:induction false} KindsPartition(ts: seq<Transaction>)
    ensures |OfKind(ts, Income)| + |OfKind(ts, Expense)| == |ts|
    ensures Add(SumAmounts(OfKind(ts, Income)), SumAmounts(OfKind(ts, Expense))) == SumAmounts(ts)
  {
    if ts != [] {
      var t, rest := ts[0], ts[1..];
      KindsPartition(rest);
      var inc, exp := OfKind(rest, Income), OfKind(rest, Expense);
      assert ts == [t] + rest;
      SumAmountsCons(t, rest);
      FilterCons(t, rest, HasKind(Income));
      FilterCons(t, rest, HasKind(Expense));
      var si, se := SumAmounts(inc), SumAmounts(exp);
      if t.kind == Income {
        assert OfKind(ts, Income) == [t] + inc && OfKind(ts, Expense) == exp;
        SumAmountsCons(t, inc);
        AddAssociative(t.amount, si, se);
      } else {
        assert OfKind(ts, Income) == inc && OfKind(ts, Expense) == [t] + exp;
        SumAmountsCons(t, exp);
        AddAssociative(t.amount, se, si);
        AddCommutative(si, Add(t.amount, se));
        AddCommutative(si, se);
      }
    }
  }

  /** The two totals together account for every filtered transaction. */
  lemma TotalsCoverFiltered(ts: seq<Transaction>, f: Filters)
    ensures Add(TotalIncome(ts, f), TotalExpenses(ts, f)) == SumAmounts(Filtered(ts, f))
  {
    KindsPartition(Filtered(ts, f));
  }

  // ---------------------------------------------------------------------
  // Years

  function DigitChar(d: nat): (c: char)
    requires d < 10
    ensures IsDigit(c) && DigitValue(c) == d
  {
    (48 + d) as char
  }

  /** `n.toString()` for a natural number. */
  function DecimalText(n: nat): (s: string)
    ensures |s| >= 1 && AllDigits(s)
  {
    if n < 10 then [DigitChar(n)] else DecimalText(n / 10) + [DigitChar(n % 10)]
  }

  /** Reading the decimal text back gives the number. */
  lemma {:induction false} DecimalTextRoundTrip(n: nat)
    ensures DigitsValue(DecimalText(n)) == n
  {
    if n >= 10 {
      DecimalTextRoundTrip(n / 10);
      var s := DecimalText(n);
      assert s[..|s| - 1] == DecimalText(n / 10);
    }
  }

  /** Distinct years have distinct texts. */
  lemma DecimalTextInjective(a: nat, b: nat)
    ensures DecimalText(a) == DecimalText(b) <==> a == b
  {
    DecimalTextRoundTrip(a);
    DecimalTextRoundTrip(b);
  }

  /** The default order of `Array.prototype.sort` on strings: character by
      character, a proper prefix first. */
  predicate StrLess(a: string, b: string) {
    if a == [] then b != []
    else if b == [] then false
    else if a[0] != b[0] then a[0] < b[0]
    else StrLess(a[1..], b[1..])
  }

  lemma {:induction false} StrLessIrreflexive(a: string)
    ensures !StrLess(a, a)
  {
    if a != [] {
      StrLessIrreflexive(a[1..]);
    }
  }

  lemma {:induction false} StrLessTransitive(a: string, b: string, c: string)
    requires StrLess(a, b) && StrLess(b, c)
    ensures StrLess(a, c)
  {
    if a != [] && a[0] == b[0] && b[0] == c[0] {
      StrLessTransitive(a[1..], b[1..], c[1..]);
    }
  }

  lemma {:induction false} StrLessTotal(a: string, b: string)
    requires a != b
    ensures StrLess(a, b) || StrLess(b, a)
  {
    if a != [] && b != [] && a[0] == b[0] {
      assert a == [a[0]] + a[1..] && b == [b[0]] + b[1..];
      StrLessTotal(a[1..], b[1..]);
    }
  }

  predicate StrictlySorted(s: seq<string>) {
    forall i, j :: 0 <= i < j < |s| ==> StrLess(s[i], s[j])
  }

  predicate NoDuplicates(s: seq<string>) {
    forall i, j :: 0 <= i < j < |s| ==> s[i] != s[j]
  }

  /** `Array.from(new Set(s))`: each value once, in order of first appearance. */
  function Distinct(s: seq<string>): (r: seq<string>)
    ensures NoDuplicates(r)
    ensures forall x :: x in r <==> x in s
  {
    if s == [] then []
    else
      var prefix := Distinct(s[..|s| - 1]);
      if s[|s| - 1] in prefix then prefix else prefix + [s[|s| - 1]]
  }

  function Insert(x: string, s: seq<string>): (r: seq<string>)
    ensures |r| == |s| + 1
    ensures forall y :: y in r <==> y == x || y in s
  {
    if s == [] || StrLess(x, s[0]) then [x] + s
    else [s[0]] + Insert(x, s[1..])
  }

  /** Inserting a new value into a strictly sorted list keeps it strictly sorted. */
  lemma {:induction false} InsertSorted(x: string, s: seq<string>)
    requires StrictlySorted(s) && x !in s
    ensures StrictlySorted(Insert(x, s))
  {
    if s == [] {
    } else if StrLess(x, s[0]) {
      forall j | 1 <= j < |s| ensures StrLess(x, s[j]) {
        StrLessTransitive(x, s[0], s[j]);
      }
    } else {
      InsertSorted(x, s[1..]);
      StrLessTotal(x, s[0]);
      var r := Insert(x, s);
      forall j | 1 <= j < |r| ensures StrLess(s[0], r[j]) {
        assert r[j] in Insert(x, s[1..]);
      }
    }
  }

  /** `.sort()` on a list of strings. */
  function SortStrings(s: seq<string>): (r: seq<string>)
    ensures |r| == |s|
    ensures forall y :: y in r <==> y in s
  {
    if s == [] then [] else Insert(s[0], SortStrings(s[1..]))
  }

  /** Sorting a list without duplicates gives a strictly increasing list. */
  lemma {:induction false} SortStringsSorted(s: seq<string>)
    requires NoDuplicates(s)
    ensures StrictlySorted(SortStrings(s))
  {
    if s != [] {
      SortStringsSorted(s[1..]);
      InsertSorted(s[0], SortStrings(s[1..]));
    }
  }

  function YearTexts(ts: seq<Transaction>): (r: seq<string>)
    ensures |r| == |ts|
    ensures forall i :: 0 <= i < |ts| ==> r[i] == DecimalText(ts[i].date.year)
  {
    seq(|ts|, i requires 0 <= i < |ts| => DecimalText(ts[i].date.year))
  }

  /** A strictly sorted list repeats no value. */
  lemma SortedHasNoDuplicates(s: seq<string>)
    requires StrictlySorted(s)
    ensures NoDuplicates(s)
  {
    forall i, j | 0 <= i < j < |s| ensures s[i] != s[j] {
      StrLessIrreflexive(s[i]);
    }
  }

  /** `years`: every year of any transaction (filters ignored) exactly
      once, as text, sorted in string order. */
  function Years(ts: seq<Transaction>): (r: seq<string>)
    ensures StrictlySorted(r)
    ensures NoDuplicates(r)
    ensures forall y :: y in r <==> exists i :: 0 <= i < |ts| && DecimalText(ts[i].date.year) == y
  {
    var texts := YearTexts(ts);
    SortStringsSorted(Distinct(texts));
    SortedHasNoDuplicates(SortStrings(Distinct(texts)));
    assert forall y :: y in texts <==> exists i :: 0 <= i < |ts| && DecimalText(ts[i].date.year) == y by {
      forall y | y in texts ensures exists i :: 0 <= i < |ts| && DecimalText(ts[i].date.year) == y {
        var i :| 0 <= i < |texts| && texts[i] == y;
      }
    }
    SortStrings(Distinct(texts))
  }

  // ---------------------------------------------------------------------
  // The "add transaction" form

  /** `Omit<Transaction, 'id'>`: the form's draft. */
  datatype TxDraft = TxDraft(date: Date, amount: Number, kind: TxType, category: Category)

  /** The category used when the store has none. */
  const DefaultCategory: Category := Category("default", "Uncategorized", "Default category", Expense)

  /** The draft an edit starts from: the current one, or a fresh one dated
      today with amount 0, kind expense and the first category. */
  function StartingDraft(prev: Option<TxDraft>, categories: seq<Category>, today: Date): (d: TxDraft)
    ensures prev.Some? ==> d == prev.value
    ensures prev.None? ==> d.date == today && d.amount == Finite(0.0) && d.kind == Expense
    ensures prev.None? ==> d.category == if |categories| > 0 then categories[0] else DefaultCategory
  {
    prev.GetOr(TxDraft(today, Finite(0.0), Expense, if |categories| > 0 then categories[0] else DefaultCategory))
  }

  /** A change in one of the form's text fields. */
  datatype DraftInput = AmountText(text: string) | DateValue(date: Date)

  /** A change in one of the form's selects. */
  datatype DraftSelect = CategoryChoice(id: string) | KindChoice(kind: TxType)

  class HomePage {
    var newTransaction: Option<TxDraft>

    constructor ()
      ensures newTransaction == None
    {
      newTransaction := None;
    }

    /** `handleInputChange`: the amount field is read with `parseFloat`
        (NaN included); the date field is copied. Nothing else changes. */
    method InputChange(store: Store.Store, input: DraftInput, today: Date)
      modifies this
      ensures var base := StartingDraft(old(newTransaction), store.categories, today);
              newTransaction == Some(match input
                                     case AmountText(text) => base.(amount := ParseFloat(text))
                                     case DateValue(d) => base.(date := d))
    {
      var base := StartingDraft(newTransaction, store.categories, today);
      match input
      case AmountText(text) => newTransaction := Some(base.(amount := ParseFloat(text)));
      case DateValue(d) => newTransaction := Some(base.(date := d));
    }

    /** `handleSelectChange`: an unknown category id keeps the current
        category; choosing a kind changes the kind only, whatever the
        category's own kind is. */
    method SelectChange(store: Store.Store, choice: DraftSelect, today: Date)
      modifies this
      ensures var base := StartingDraft(old(newTransaction), store.categories, today);
              newTransaction == Some(match choice
                                     case CategoryChoice(id) => base.(category := FindCategory(store.categories, id).GetOr(base.category))
                                     case KindChoice(k) => base.(kind := k))
    {
      var base := StartingDraft(newTransaction, store.categories, today);
      match choice
      case CategoryChoice(id) =>
        newTransaction := Some(base.(category := FindCategory(store.categories, id).GetOr(base.category)));
      case KindChoice(k) =>
        newTransaction := Some(base.(kind := k));
    }

    /** `handleAddTransaction`: with a draft, adds it under the fresh id and
        clears the form; without one, only alerts. A draft always carries a
        category, so the category check never fails on its own. */
    method AddTransaction(store: Store.Store, freshId: string) returns (alerted: bool)
      modifies this, store
      ensures alerted <==> old(newTransaction).None?
      ensures !alerted ==>
                var d := old(newTransaction).value;
                && store.transactions == old(store.transactions) + [Transaction(freshId, d.date, d.amount, d.kind, d.category)]
                && newTransaction == None
      ensures alerted ==> store.transactions == old(store.transactions) && newTransaction == old(newTransaction)
      ensures store.categories == old(store.categories) && store.settings == old(store.settings)
    {
      if newTransaction.Some? {
        var d := newTransaction.value;
        store.AddTransaction(Transaction(freshId, d.date, d.amount, d.kind, d.category));
        newTransaction := None;
        alerted := false;
      } else {
        alerted := true;
      }
    }
  }

  /** The form does not validate the amount: an emptied amount field reads
      as NaN and is stored as such, after which every total that includes
      it is NaN. */
  method EmptiedAmountReachesStore(store: Store.Store, page: HomePage, freshId: string, today: Date)
    modifies store, page
    ensures |store.transactions| == |old(store.transactions)| + 1
    ensures store.transactions[|store.transactions| - 1].amount.NaN?
    ensures SumAmounts(store.transactions).NaN?
  {
    page.InputChange(store, AmountText(""), today);
    var alerted := page.AddTransaction(store, freshId);
    var last := |store.transactions| - 1;
    assert store.transactions[last].amount.NaN?;
  }
}
