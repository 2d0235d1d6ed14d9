/** The transaction ledger kept by the application shell (App.tsx):
    prepend with the auto-reconcile rule, delete by id, the reconcile
    toggle, the income/expense totals and the per-category breakdown
    behind the dashboard's pie chart. */
module Ledger {

  import opened Types
  import opened Sorting

  /** `addTransaction`: the record gets the fresh id, is reconciled when
      the auto-reconcile setting is on or the caller marked it so, and
      goes to the front of the ledger. */
  function AddTransaction(ledger: seq<Transaction>, t: Transaction, freshId: string, autoReconcile: bool): (r: seq<Transaction>)
    ensures |r| == |ledger| + 1 && r[1..] == ledger
    ensures r[0].id == freshId
    ensures r[0].isReconciled <==> autoReconcile || t.isReconciled
    ensures r[0].(id := t.id, isReconciled := t.isReconciled) == t
  {
    [t.(id := freshId, isReconciled := autoReconcile || t.isReconciled)] + ledger
  }

  /** The records of `ledger` whose id differs from `id`, in order. */
  function WithoutId(ledger: seq<Transaction>, id: string): (r: seq<Transaction>)
    ensures forall t :: t in r <==> t in ledger && t.id != id
    ensures forall t :: multiset(r)[t] == if t.id == id then 0 else multiset(ledger)[t]
    ensures IsSubsequence(r, ledger)
    ensures |r| == |ledger| - CountId(ledger, id)
  {
    KeptLength(ledger, id);
    Filter(ledger, OtherId(id))
  }

  function OtherId(id: string): Transaction -> bool {
    (t: Transaction) => t.id != id
  }

  /** Filtering out one id drops exactly as many records as carry it. */
  lemma {:induction false} KeptLength(ledger: seq<Transaction>, id: string)
    ensures |Filter(ledger, OtherId(id))| == |ledger| - CountId(ledger, id)
    decreases |ledger|
  {
    if |ledger| > 0 {
      KeptLength(ledger[1..], id);
    }
  }

  function CountId(ledger: seq<Transaction>, id: string): (n: nat)
    ensures n <= |ledger|
    decreases |ledger|
  {
    if |ledger| == 0 then 0 else (if ledger[0].id == id then 1 else 0) + CountId(ledger[1..], id)
  }

  /** `deleteTransaction`: only after the user confirms are the records
      with that id dropped. */
  function DeleteTransaction(ledger: seq<Transaction>, id: string, confirmed: bool): (r: seq<Transaction>)
    ensures !confirmed ==> r == ledger
    ensures confirmed ==> r == WithoutId(ledger, id)
    ensures confirmed ==> forall t :: multiset(r)[t] == if t.id == id then 0 else multiset(ledger)[t]
    ensures IsSubsequence(r, ledger)
  {
    if confirmed then WithoutId(ledger, id)
    else
      SubsequenceSelf(ledger);
      ledger
  }

  lemma {:induction false} SubsequenceSelf(s: seq<Transaction>)
    ensures IsSubsequence(s, s)
    decreases |s|
  {
    if |s| > 0 {
      SubsequenceSelf(s[1..]);
    }
  }

  /** Flip the reconciled flag of one record when its id matches. */
  function Flip(t: Transaction, id: string): Transaction {
    if t.id == id then t.(isReconciled := !t.isReconciled) else t
  }

  /** `toggleReconcile`: flips the flag of the records with that id. */
  function ToggleReconcile(ledger: seq<Transaction>, id: string): (r: seq<Transaction>)
    ensures |r| == |ledger|
    ensures forall i :: 0 <= i < |r| ==> r[i].(isReconciled := ledger[i].isReconciled) == ledger[i]
    ensures forall i :: 0 <= i < |r| ==> (r[i].isReconciled != ledger[i].isReconciled <==> ledger[i].id == id)
  {
    seq(|ledger|, i requires 0 <= i < |ledger| => Flip(ledger[i], id))
  }

  /** Toggling the same id twice restores the ledger. */
  lemma ToggleTwice(ledger: seq<Transaction>, id: string)
    ensures ToggleReconcile(ToggleReconcile(ledger, id), id) == ledger
  {
    var once := ToggleReconcile(ledger, id);
    var twice := ToggleReconcile(once, id);
    forall i | 0 <= i < |ledger|
      ensures twice[i] == ledger[i]
    {
      assert once[i].id == ledger[i].id;
    }
  }

  /** Toggling an id no record carries changes nothing. */
  lemma ToggleAbsent(ledger: seq<Transaction>, id: string)
    requires forall t :: t in ledger ==> t.id != id
    ensures ToggleReconcile(ledger, id) == ledger
  {
    var r := ToggleReconcile(ledger, id);
    forall i | 0 <= i < |ledger|
      ensures r[i] == ledger[i]
    {
      assert ledger[i] in ledger;
    }
  }

  // ---------------------------------------------------------------------
  // Totals

  /** Sum of the amounts of the records of the given type. */
  function TotalOf(ledger: seq<Transaction>, ty: TransactionType): int
    decreases |ledger|
  {
    if |ledger| == 0 then 0
    else (if ledger[0].txType == ty then ledger[0].amount else 0) + TotalOf(ledger[1..], ty)
  }

  function SumAmounts(ledger: seq<Transaction>): int
    decreases |ledger|
  {
    if |ledger| == 0 then 0 else ledger[0].amount + SumAmounts(ledger[1..])
  }

  datatype Totals = Totals(totalIncome: int, totalExpense: int, netProfit: int)

  /** The dashboard's income, expense and net figures. */
  function ComputeTotals(ledger: seq<Transaction>): (r: Totals)
    ensures r.totalIncome == TotalOf(ledger, Income) && r.totalExpense == TotalOf(ledger, Expense)
    ensures r.netProfit == r.totalIncome - r.totalExpense
    ensures r.totalIncome + r.totalExpense == SumAmounts(ledger)
  {
    TotalsSplit(ledger);
    var income := TotalOf(ledger, Income);
    var expense := TotalOf(ledger, Expense);
    Totals(income, expense, income - expense)
  }

  /** Every record is either income or expense. */
  lemma {:induction false} TotalsSplit(ledger: seq<Transaction>)
    ensures TotalOf(ledger, Income) + TotalOf(ledger, Expense) == SumAmounts(ledger)
    decreases |ledger|
  {
    if |ledger| > 0 {
      TotalsSplit(ledger[1..]);
    }
  }

  /** Adding a record moves exactly its own type's total by its amount. */
  lemma AddTransactionTotals(ledger: seq<Transaction>, t: Transaction, freshId: string, autoReconcile: bool, ty: TransactionType)
    ensures TotalOf(AddTransaction(ledger, t, freshId, autoReconcile), ty)
      == TotalOf(ledger, ty) + (if t.txType == ty then t.amount else 0)
  {
    var r := AddTransaction(ledger, t, freshId, autoReconcile);
    assert r[1..] == ledger;
  }

  /** Toggling the reconciled flag leaves every total unchanged. */
  lemma {:induction false} ToggleKeepsTotals(ledger: seq<Transaction>, id: string, ty: TransactionType)
    ensures TotalOf(ToggleReconcile(ledger, id), ty) == TotalOf(ledger, ty)
    decreases |ledger|
  {
    if |ledger| > 0 {
      ToggleKeepsTotals(ledger[1..], id, ty);
      assert ToggleReconcile(ledger, id)[1..] == ToggleReconcile(ledger[1..], id);
    }
  }

  // ---------------------------------------------------------------------
  // Per-category breakdown

  datatype Slice = Slice(name: Category, value: int)

  /** The total recorded so far for category `c`, 0 when absent. */
  function ValueOf(groups: seq<Slice>, c: Category): int
    decreases |groups|
  {
    if |groups| == 0 then 0
    else if groups[0].name == c then groups[0].value
    else ValueOf(groups[1..], c)
  }

  function Names(groups: seq<Slice>): set<Category>
    decreases |groups|
  {
    if |groups| == 0 then {} else {groups[0].name} + Names(groups[1..])
  }

  /** No category has two slices. */
  predicate DistinctNames(groups: seq<Slice>)
    decreases |groups|
  {
    |groups| == 0 || (groups[0].name !in Names(groups[1..]) && DistinctNames(groups[1..]))
  }

  function SumValues(groups: seq<Slice>): int
    decreases |groups|
  {
    if |groups| == 0 then 0 else groups[0].value + SumValues(groups[1..])
  }

  /** One step of the `reduce`: add `amount` to the slice for `c`,
      appending a new slice when `c` is new. */
  function Accumulate(groups: seq<Slice>, c: Category, amount: int): (r: seq<Slice>)
    requires DistinctNames(groups)
    ensures DistinctNames(r)
    ensures Names(r) == Names(groups) + {c}
    ensures forall d :: ValueOf(r, d) == ValueOf(groups, d) + (if d == c then amount else 0)
    ensures SumValues(r) == SumValues(groups) + amount
    decreases |groups|
  {
    if |groups| == 0 then
      [Slice(c, amount)]
    else if groups[0].name == c then
      var r := [Slice(c, groups[0].value + amount)] + groups[1..];
      assert r[1..] == groups[1..];
      r
    else
      var r := [groups[0]] + Accumulate(groups[1..], c, amount);
      assert r[1..] == Accumulate(groups[1..], c, amount);
      r
  }

  /** The records of one type, in order. */
  function OfType(ledger: seq<Transaction>, ty: TransactionType): (r: seq<Transaction>)
    ensures forall t :: t in r <==> t in ledger && t.txType == ty
    decreases |ledger|
  {
    if |ledger| == 0 then []
    else if ledger[0].txType == ty then [ledger[0]] + OfType(ledger[1..], ty)
    else OfType(ledger[1..], ty)
  }

  /** Sum of the amounts of the records in category `c`. */
  function CategoryTotal(ledger: seq<Transaction>, c: Category): int
    decreases |ledger|
  {
    if |ledger| == 0 then 0
    else (if ledger[0].category == c then ledger[0].amount else 0) + CategoryTotal(ledger[1..], c)
  }

  /** The categories the records use. */
  function CategoriesOf(ledger: seq<Transaction>): set<Category>
    decreases |ledger|
  {
    if |ledger| == 0 then {} else {ledger[0].category} + CategoriesOf(ledger[1..])
  }

  /** The `reduce` over `txs`, left to right, starting from `acc`. */
  function GroupFrom(acc: seq<Slice>, txs: seq<Transaction>): (r: seq<Slice>)
    requires DistinctNames(acc)
    ensures DistinctNames(r)
    ensures Names(r) == Names(acc) + CategoriesOf(txs)
    ensures forall c :: ValueOf(r, c) == ValueOf(acc, c) + CategoryTotal(txs, c)
    ensures SumValues(r) == SumValues(acc) + SumAmounts(txs)
    decreases |txs|
  {
    if |txs| == 0 then acc
    else GroupFrom(Accumulate(acc, txs[0].category, txs[0].amount), txs[1..])
  }

  /** Slices in order of first appearance, one per category used. */
  function GroupByCategory(txs: seq<Transaction>): (r: seq<Slice>)
    ensures DistinctNames(r)
    ensures Names(r) == CategoriesOf(txs)
    ensures forall c :: ValueOf(r, c) == CategoryTotal(txs, c)
    ensures SumValues(r) == SumAmounts(txs)
  {
    GroupFrom([], txs)
  }

  /** `b` goes no later than `a` when its value is not larger: the pie's
      comparator `b.value > a.value ? 1 : ...` with ties kept in order. */
  predicate ValueDesc(a: Slice, b: Slice) {
    a.value >= b.value
  }

  lemma ValueDescPreorder()
    ensures TotalPreorder(ValueDesc)
  {
  }

  /** `categoryPieData`: the records of the selected type grouped by
      category and ordered by total, largest first; slices of equal value
      keep the order in which their categories were first met. */
  function CategoryPieData(ledger: seq<Transaction>, mode: TransactionType): (r: seq<Slice>)
    ensures SortedBy(r, ValueDesc)
    ensures multiset(r) == multiset(GroupByCategory(OfType(ledger, mode)))
    ensures forall c: Slice :: Filter(r, SameKey(ValueDesc, c)) == Filter(GroupByCategory(OfType(ledger, mode)), SameKey(ValueDesc, c))
  {
    ValueDescPreorder();
    var g := GroupByCategory(OfType(ledger, mode));
    assert forall c: Slice :: Filter(Sort(g, ValueDesc), SameKey(ValueDesc, c)) == Filter(g, SameKey(ValueDesc, c)) by {
      forall c: Slice ensures Filter(Sort(g, ValueDesc), SameKey(ValueDesc, c)) == Filter(g, SameKey(ValueDesc, c)) {
        SortStable(g, ValueDesc, c);
      }
    }
    Sort(g, ValueDesc)
  }

  /** Each slice of the pie is the total of one category within the
      selected type, no category appears twice, and the slices add up to
      that type's total. */
  lemma PieSlices(ledger: seq<Transaction>, mode: TransactionType, s: Slice)
    ensures s in CategoryPieData(ledger, mode) ==> s.value == CategoryTotal(OfType(ledger, mode), s.name)
    ensures SumValues(GroupByCategory(OfType(ledger, mode))) == TotalOf(ledger, mode)
  {
    var g := GroupByCategory(OfType(ledger, mode));
    if s in CategoryPieData(ledger, mode) {
      assert s in multiset(g);
      var i :| 0 <= i < |g| && g[i] == s;
      ValueOfAt(g, i);
    }
    OfTypeTotal(ledger, mode);
  }

  lemma {:induction false} ValueOfAt(g: seq<Slice>, i: int)
    requires DistinctNames(g) && 0 <= i < |g|
    ensures g[i].name in Names(g)
    ensures ValueOf(g, g[i].name) == g[i].value
    decreases i
  {
    if i > 0 {
      ValueOfAt(g[1..], i - 1);
      assert g[1..][i - 1] == g[i];
    }
  }

  lemma {:induction false} OfTypeTotal(ledger: seq<Transaction>, ty: TransactionType)
    ensures SumAmounts(OfType(ledger, ty)) == TotalOf(ledger, ty)
    decreases |ledger|
  {
    if |ledger| > 0 {
      OfTypeTotal(ledger[1..], ty);
    }
  }
}
