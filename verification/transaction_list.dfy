/** The searchable ledger list (components/TransactionList.tsx): a search
    term and a type filter select entries, in ledger order. */
module TransactionList {

  import opened Types
  import opened Strings
  import opened Sorting

  datatype TypeFilter = All | Only(ty: TransactionType)

  function ThaiName(t: Transaction): string {
    match t.guestData
    case Some(g) => Lower(g.firstNameTH + " " + g.lastNameTH)
    case None => ""
  }

  function EnglishName(t: Transaction): string {
    match t.guestData
    case Some(g) => Lower(g.firstNameEN + " " + g.lastNameEN)
    case None => ""
  }

  /** The case-insensitive part of the search: description, category and
      the guest's Thai and English names. */
  predicate MatchesText(t: Transaction, term: string) {
    var q := Lower(term);
    || Contains(Lower(t.description), q)
    || Contains(Lower(CategoryLabel(t.category)), q)
    || Contains(ThaiName(t), q)
    || Contains(EnglishName(t), q)
  }

  /** The ID-number part of the search uses the term as typed. */
  predicate MatchesId(t: Transaction, term: string) {
    t.guestData.Some? && Contains(t.guestData.value.idNumber, term)
  }

  predicate MatchesSearch(t: Transaction, term: string) {
    MatchesText(t, term) || MatchesId(t, term)
  }

  predicate MatchesType(t: Transaction, filter: TypeFilter) {
    filter.All? || t.txType == filter.ty
  }

  /** An entry is listed when it matches both the search and the type
      filter. */
  predicate Selected(t: Transaction, term: string, filter: TypeFilter) {
    MatchesSearch(t, term) && MatchesType(t, filter)
  }

  /** `filteredTransactions`: the entries matching both the search and the
      type filter, in ledger order. */
  function Filtered(ledger: seq<Transaction>, term: string, filter: TypeFilter): (r: seq<Transaction>)
    ensures forall t :: t in r <==> t in ledger && Selected(t, term, filter)
    ensures forall t :: multiset(r)[t] == if Selected(t, term, filter) then multiset(ledger)[t] else 0
    ensures IsSubsequence(r, ledger)
  {
    Filter(ledger, t => Selected(t, term, filter))
  }

  /** With no search term and no type filter the whole ledger is listed. */
  lemma EmptySearchListsAll(ledger: seq<Transaction>)
    ensures Filtered(ledger, "", All) == ledger
  {
    forall i | 0 <= i < |ledger|
      ensures Selected(ledger[i], "", All)
    {
      ContainsEmpty(Lower(ledger[i].description));
    }
    FilterAll(ledger, t => Selected(t, "", All));
  }

  /** A type filter keeps exactly the entries of that type when the search
      is empty. */
  lemma TypeFilterOnly(ledger: seq<Transaction>, ty: TransactionType)
    ensures forall t :: t in Filtered(ledger, "", Only(ty)) <==> t in ledger && t.txType == ty
  {
    forall t | t in ledger
      ensures MatchesSearch(t, "")
    {
      ContainsEmpty(Lower(t.description));
    }
  }

  /** The text search ignores ASCII case: a term and its upper-case form
      select the same entries by description, category and names. */
  lemma SearchIgnoresCase(t: Transaction, term: string)
    ensures MatchesText(t, Upper(term)) <==> MatchesText(t, term)
  {
    LowerUpper(term);
  }

  /** The ID-number search does not ignore case. */
  lemma IdSearchKeepsCase()
    ensures var g := NameOnlyGuest("", "", None).(idNumber := "ab");
      var t := Draft("", Income, RoomRevenue, 0, "", None, false).(guestData := Some(g));
      MatchesId(t, "ab") && !MatchesId(t, "AB")
  {
    var g := NameOnlyGuest("", "", None).(idNumber := "ab");
    assert IsPrefix("ab", g.idNumber);
    assert !IsPrefix("AB", "ab");
    assert !IsPrefix("AB", "b");
    assert !IsPrefix("AB", "");
    assert "ab"[1..] == "b";
    assert "b"[1..] == "";
  }

  /** What the list shows. */
  datatype ListView = NoHistory | Rows(rows: seq<Transaction>)

  /** An empty ledger shows the no-history placeholder whatever the search
      and filter; otherwise the filtered rows are listed. */
  function View(ledger: seq<Transaction>, term: string, filter: TypeFilter): (r: ListView)
    ensures r.NoHistory? <==> |ledger| == 0
    ensures r.Rows? ==> r.rows == Filtered(ledger, term, filter)
  {
    if |ledger| == 0 then NoHistory else Rows(Filtered(ledger, term, filter))
  }
}
