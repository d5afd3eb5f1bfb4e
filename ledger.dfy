/** Filters and sums over a transaction list: the `filter(...).reduce((sum, t) =>
    sum + t.amount, 0)` pattern every page and the dashboard summary are built from. */
module Ledger {
  import opened FinanceTypes

  /** The transactions of one type, in list order. */
  function OfType(ts: seq<Transaction>, k: TxType): (r: seq<Transaction>)
    ensures |r| <= |ts|
    ensures forall t :: t in r <==> t in ts && t.kind == k
  {
    if ts == [] then []
    else if ts[0].kind == k then [ts[0]] + OfType(ts[1..], k)
    else OfType(ts[1..], k)
  }

  /** The transactions of one category, in list order. */
  function OfCategory(ts: seq<Transaction>, c: Category): (r: seq<Transaction>)
    ensures |r| <= |ts|
    ensures forall t :: t in r <==> t in ts && t.category == c
  {
    if ts == [] then []
    else if ts[0].category == c then [ts[0]] + OfCategory(ts[1..], c)
    else OfCategory(ts[1..], c)
  }

  /** The sum of the amounts, starting from 0. */
  function Total(ts: seq<Transaction>): real
  {
    if ts == [] then 0.0 else ts[0].amount + Total(ts[1..])
  }

  /** Sum of the rows of one type. */
  function TypeTotal(ts: seq<Transaction>, k: TxType): real
  {
    Total(OfType(ts, k))
  }

  /** Sum of the rows of one category, whatever their type. */
  function CategoryTotal(ts: seq<Transaction>, c: Category): real
  {
    Total(OfCategory(ts, c))
  }

  /** Sum of the rows of one category and one type. */
  function CategoryTypeTotal(ts: seq<Transaction>, c: Category, k: TxType): real
  {
    Total(OfType(OfCategory(ts, c), k))
  }

  /** The ledger read as a running balance: income adds its amount, expense takes it
      away. */
  function Signed(ts: seq<Transaction>): real
  {
    if ts == [] then 0.0
    else (if ts[0].kind == Income then ts[0].amount else -ts[0].amount) + Signed(ts[1..])
  }

  /** The running balance is income minus expense. */
  lemma {:induction false} SignedSplit(ts: seq<Transaction>)
    ensures Signed(ts) == TypeTotal(ts, Income) - TypeTotal(ts, Expense)
  {
    if ts != [] {
      SignedSplit(ts[1..]);
      TotalCons(ts[0], OfType(ts[1..], ts[0].kind));
    }
  }

  predicate NonNegativeAmounts(ts: seq<Transaction>)
  {
    forall i :: 0 <= i < |ts| ==> ts[i].amount >= 0.0
  }

  lemma TotalCons(t: Transaction, ts: seq<Transaction>)
    ensures Total([t] + ts) == t.amount + Total(ts)
  {
    assert ([t] + ts)[1..] == ts;
  }

  lemma {:induction false} TotalConcat(a: seq<Transaction>, b: seq<Transaction>)
    ensures Total(a + b) == Total(a) + Total(b)
  {
    if a == [] {
      assert a + b == b;
    } else {
      assert (a + b)[1..] == a[1..] + b;
      TotalConcat(a[1..], b);
    }
  }

  lemma {:induction false} OfTypeConcat(a: seq<Transaction>, b: seq<Transaction>, k: TxType)
    ensures OfType(a + b, k) == OfType(a, k) + OfType(b, k)
  {
    if a == [] {
      assert a + b == b;
    } else {
      assert (a + b)[1..] == a[1..] + b;
      OfTypeConcat(a[1..], b, k);
    }
  }

  lemma {:induction false} OfCategoryConcat(a: seq<Transaction>, b: seq<Transaction>, c: Category)
    ensures OfCategory(a + b, c) == OfCategory(a, c) + OfCategory(b, c)
  {
    if a == [] {
      assert a + b == b;
    } else {
      assert (a + b)[1..] == a[1..] + b;
      OfCategoryConcat(a[1..], b, c);
    }
  }

  /** Every transaction is income or expense, so the two type totals add up to the
      sum of all amounts, and the two type filters split the list. */
  lemma {:induction false} TypeSplit(ts: seq<Transaction>)
    ensures TypeTotal(ts, Income) + TypeTotal(ts, Expense) == Total(ts)
    ensures |OfType(ts, Income)| + |OfType(ts, Expense)| == |ts|
  {
    if ts != [] {
      TypeSplit(ts[1..]);
      TotalCons(ts[0], OfType(ts[1..], ts[0].kind));
    }
  }

  /** Filtering by category and by type commute: one filter on the conjunction. */
  lemma {:induction false} FiltersCommute(ts: seq<Transaction>, c: Category, k: TxType)
    ensures OfType(OfCategory(ts, c), k) == OfCategory(OfType(ts, k), c)
  {
    if ts != [] {
      FiltersCommute(ts[1..], c, k);
      var t, rest := ts[0], ts[1..];
      if t.category == c {
        assert ([t] + OfCategory(rest, c))[0] == t;
        assert ([t] + OfCategory(rest, c))[1..] == OfCategory(rest, c);
      }
      if t.kind == k {
        assert ([t] + OfType(rest, k))[0] == t;
        assert ([t] + OfType(rest, k))[1..] == OfType(rest, k);
      }
    }
  }

  /** A category total splits into its income and its expense part. */
  lemma CategorySplit(ts: seq<Transaction>, c: Category)
    ensures CategoryTypeTotal(ts, c, Income) + CategoryTypeTotal(ts, c, Expense) == CategoryTotal(ts, c)
  {
    TypeSplit(OfCategory(ts, c));
  }

  lemma {:induction false} TotalNonNegative(ts: seq<Transaction>)
    requires NonNegativeAmounts(ts)
    ensures Total(ts) >= 0.0
  {
    if ts != [] {
      TotalNonNegative(ts[1..]);
    }
  }

  /** With non-negative amounts, a category's total never exceeds the whole ledger's,
      and a type's total neither. */
  lemma {:induction false} FilteredTotalsBounded(ts: seq<Transaction>, c: Category, k: TxType)
    requires NonNegativeAmounts(ts)
    ensures 0.0 <= CategoryTotal(ts, c) <= Total(ts)
    ensures 0.0 <= TypeTotal(ts, k) <= Total(ts)
  {
    if ts != [] {
      FilteredTotalsBounded(ts[1..], c, k);
      TotalNonNegative(ts[1..]);
      if ts[0].category == c { TotalCons(ts[0], OfCategory(ts[1..], c)); }
      if ts[0].kind == k { TotalCons(ts[0], OfType(ts[1..], k)); }
    }
  }
}
