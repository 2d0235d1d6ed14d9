/** The manual entry form (components/ManualEntry.tsx): a type switch, a
    category select restricted to the current type's categories, and a
    submit that refuses an empty amount or description. */
module ManualEntry {

  import opened Types
  import opened Strings

  const IncomeCategories: seq<Category> := [RoomRevenue, FoodBeverage, SpaService, OtherIncome]

  const ExpenseCategories: seq<Category> := [
    Utilities, StaffSalary, Marketing, Maintenance, Supplies,
    TaxFee, SoftwareSubscription, OfficeSupplies, CleaningSupplies
  ]

  /** The select's options for a type. */
  function CategoriesFor(ty: TransactionType): seq<Category> {
    if ty == Income then IncomeCategories else ExpenseCategories
  }

  /** The two lists split the thirteen categories: four income, nine
      expense, none in both, each listed once. */
  lemma CategoriesPartition(c: Category)
    ensures c in IncomeCategories <==> c !in ExpenseCategories
    ensures |IncomeCategories| == 4 && |ExpenseCategories| == 9
    ensures |IncomeCategories| + |ExpenseCategories| == |AllCategories|
    ensures forall i, j :: 0 <= i < j < |ExpenseCategories| ==> ExpenseCategories[i] != ExpenseCategories[j]
  {
    AllCategoriesComplete(c);
  }

  datatype Form = Form(
    txType: TransactionType,
    category: Category,
    amount: string,
    description: string,
    date: string)

  /** The form's invariant: the chosen category is one the select offers. */
  predicate WellFormed(f: Form) {
    f.category in CategoriesFor(f.txType)
  }

  /** The form as it opens: an expense for supplies, dated today. */
  function Initial(today: string): (f: Form)
    ensures WellFormed(f)
    ensures f.txType == Expense && f.category == Supplies && f.amount == "" && f.description == ""
    ensures f.date == today
  {
    Form(Expense, Supplies, "", "", today)
  }

  /** The type buttons: income resets the category to room revenue,
      expense to supplies; nothing else changes. */
  function SwitchType(f: Form, ty: TransactionType): (r: Form)
    ensures WellFormed(r)
    ensures r.txType == ty && r.category == (if ty == Income then RoomRevenue else Supplies)
    ensures r.(txType := f.txType, category := f.category) == f
  {
    f.(txType := ty, category := if ty == Income then RoomRevenue else Supplies)
  }

  /** The category select: only the current type's options are offered. */
  function SelectCategory(f: Form, c: Category): (r: Form)
    requires c in CategoriesFor(f.txType)
    ensures WellFormed(r) && r.category == c
    ensures r.(category := f.category) == f
  {
    f.(category := c)
  }

  /** The form stays well-formed under any sequence of edits. */
  datatype Edit = Switch(ty: TransactionType) | Select(c: Category) | SetAmount(a: string)
                | SetDescription(d: string) | SetDate(date: string)

  /** Apply an edit; a category the select does not offer cannot be
      chosen, so such an edit is ignored. */
  function Apply(f: Form, e: Edit): (r: Form)
    ensures WellFormed(f) ==> WellFormed(r)
  {
    match e
    case Switch(ty) => SwitchType(f, ty)
    case Select(c) => if c in CategoriesFor(f.txType) then SelectCategory(f, c) else f
    case SetAmount(a) => f.(amount := a)
    case SetDescription(d) => f.(description := d)
    case SetDate(d) => f.(date := d)
  }

  function ApplyAll(f: Form, edits: seq<Edit>): Form
    decreases |edits|
  {
    if |edits| == 0 then f else ApplyAll(Apply(f, edits[0]), edits[1..])
  }

  lemma {:induction false} EditsKeepWellFormed(today: string, edits: seq<Edit>)
    ensures WellFormed(ApplyAll(Initial(today), edits))
  {
    KeepWellFormed(Initial(today), edits);
  }

  lemma {:induction false} KeepWellFormed(f: Form, edits: seq<Edit>)
    requires WellFormed(f)
    ensures WellFormed(ApplyAll(f, edits))
    decreases |edits|
  {
    if |edits| > 0 {
      KeepWellFormed(Apply(f, edits[0]), edits[1..]);
    }
  }

  /** `handleSubmit`: nothing happens while the amount or description is
      empty; otherwise an unreconciled entry of the form's date, type,
      category and amount. An amount that reads as `NaN` is not submitted,
      since ledger amounts are integers. */
  function Submit(f: Form): (r: Option<Transaction>)
    ensures r.Some? <==> f.amount != "" && f.description != "" && ParseFloat(f.amount).Val?
    ensures r.Some? ==>
      && !r.value.isReconciled
      && r.value.date == f.date && r.value.txType == f.txType && r.value.category == f.category
      && r.value.description == f.description
      && ParseFloat(f.amount) == Val(r.value.amount)
  {
    if f.amount == "" || f.description == "" then None
    else match ParseFloat(f.amount)
      case Val(n) => Some(Draft(f.date, f.txType, f.category, n, f.description, None, false))
      case NaN => None
  }

  /** A typed whole amount is submitted as that number. */
  lemma SubmitAmount(f: Form, n: int)
    requires f.amount == IntToString(n) && f.description != ""
    ensures Submit(f).Some? && Submit(f).value.amount == n
  {
    ParseFloatRoundTrip(n);
    assert f.amount != "" && ParseFloat(f.amount) == Val(n);
    assert Submit(f) == Some(Draft(f.date, f.txType, f.category, n, f.description, None, false));
  }
}
