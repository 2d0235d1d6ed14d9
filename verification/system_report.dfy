/** The pending-approval widget of the operations report
    (components/SystemReport.tsx): the newest unreconciled entries, at
    most four of them, and the count of all unreconciled entries. */
module SystemReport {

  import opened Types
  import opened Strings
  import opened Sorting

  /** The unreconciled entries, in ledger order. */
  function Unreconciled(ledger: seq<Transaction>): (r: seq<Transaction>)
    ensures forall t :: t in r <==> t in ledger && !t.isReconciled
    ensures forall t :: multiset(r)[t] == if t.isReconciled then 0 else multiset(ledger)[t]
    ensures IsSubsequence(r, ledger)
  {
    Filter(ledger, (t: Transaction) => !t.isReconciled)
  }

  /** `pendingCount`. */
  function PendingCount(ledger: seq<Transaction>): nat {
    |Unreconciled(ledger)|
  }

  /** Newer first: `a` may precede `b` when `b`'s date is not later. */
  predicate DateDesc(a: Transaction, b: Transaction) {
    LexLe(b.date, a.date)
  }

  lemma DateDescPreorder()
    ensures TotalPreorder(DateDesc)
  {
    forall a: Transaction, b: Transaction
      ensures DateDesc(a, b) || DateDesc(b, a)
    {
      LexLeTotal(a.date, b.date);
    }
    forall a: Transaction, b: Transaction, c: Transaction | DateDesc(a, b) && DateDesc(b, c)
      ensures DateDesc(a, c)
    {
      LexLeTransitive(c.date, b.date, a.date);
    }
  }

  function Min(a: int, b: int): int {
    if a <= b then a else b
  }

  /** An element of a newest-first sequence that is not among its first
      `n` is no newer than any of them. */
  lemma LeftOutNotNewer(s: seq<Transaction>, n: nat, t: Transaction)
    requires SortedBy(s, DateDesc) && n <= |s| && t in multiset(s) && t !in s[..n]
    ensures forall k :: 0 <= k < n ==> LexLe(t.date, s[..n][k].date)
  {
    var j :| 0 <= j < |s| && s[j] == t;
    assert forall i :: 0 <= i < n ==> s[..n][i] == s[i];
    forall k | 0 <= k < n
      ensures LexLe(t.date, s[k].date)
    {
      assert DateDesc(s[k], s[j]);
    }
  }

  /** A prefix holds no element more often than the whole. */
  lemma PrefixMultiset(s: seq<Transaction>, n: nat)
    requires n <= |s|
    ensures multiset(s[..n]) <= multiset(s)
  {
    assert s == s[..n] + s[n..];
  }

  /** The first `n` entries of `u` sorted newest first: the entries it
      leaves out are no newer than any it keeps. */
  function Newest(u: seq<Transaction>, n: nat): (r: seq<Transaction>)
    ensures |r| == Min(n, |u|)
    ensures multiset(r) <= multiset(u)
    ensures SortedBy(r, DateDesc)
    ensures forall t :: t in u && t !in r ==> forall k :: 0 <= k < |r| ==> LexLe(t.date, r[k].date)
  {
    DateDescPreorder();
    var s := Sort(u, DateDesc);
    var r := s[..Min(n, |s|)];
    PrefixMultiset(s, |r|);
    forall t | t in u && t !in r
      ensures forall k :: 0 <= k < |r| ==> LexLe(t.date, r[k].date)
    {
      assert t in multiset(u);
      LeftOutNotNewer(s, |r|, t);
    }
    r
  }

  /** `pendingItems`: the unreconciled entries sorted newest first, cut to
      four. Every unreconciled entry left out is no newer than any entry
      shown, and no entry is shown more often than it is pending. */
  function PendingItems(ledger: seq<Transaction>): (r: seq<Transaction>)
    ensures |r| == Min(4, PendingCount(ledger))
    ensures |r| == 0 <==> PendingCount(ledger) == 0
    ensures multiset(r) <= multiset(Unreconciled(ledger))
    ensures forall t :: t in r ==> t in ledger && !t.isReconciled
    ensures SortedBy(r, DateDesc)
    ensures forall t :: t in ledger && !t.isReconciled && t !in r ==>
      forall k :: 0 <= k < |r| ==> LexLe(t.date, r[k].date)
  {
    var r := Newest(Unreconciled(ledger), 4);
    forall t | t in r
      ensures t in Unreconciled(ledger)
    {
      assert t in multiset(r);
    }
    r
  }

  /** Entries dated `d`. */
  function OnDate(d: string): Transaction -> bool {
    (t: Transaction) => t.date == d
  }

  /** The sort is stable: among the shown entries of any one date, the
      entries come in ledger order and are the first pending ones of that
      date. */
  lemma PendingItemsStable(ledger: seq<Transaction>, d: string)
    ensures var shown := Filter(PendingItems(ledger), OnDate(d));
      var pending := Filter(Unreconciled(ledger), OnDate(d));
      |shown| <= |pending| && shown == pending[..|shown|]
  {
    DateDescPreorder();
    var u := Unreconciled(ledger);
    var s := Sort(u, DateDesc);
    var m := Min(4, |s|);
    assert PendingItems(ledger) == s[..m];
    var c := Transaction("", d, Income, RoomRevenue, 0, "", None, false, None, None, None);
    SameDateKey(c);
    SortStable(u, DateDesc, c);
    FilterSame(s, SameKey(DateDesc, c), OnDate(d));
    FilterSame(u, SameKey(DateDesc, c), OnDate(d));
    assert Filter(s, OnDate(d)) == Filter(u, OnDate(d));
    FilterPrefix(s, m, OnDate(d));
  }

  /** Two entries rank level newest-first exactly when they share a date. */
  lemma SameDateKey(c: Transaction)
    ensures forall t :: SameKey(DateDesc, c)(t) == OnDate(c.date)(t)
  {
    LexLeReflexive(c.date);
    forall t
      ensures SameKey(DateDesc, c)(t) == OnDate(c.date)(t)
    {
      assert SameKey(DateDesc, c)(t) == (DateDesc(t, c) && DateDesc(c, t));
      if DateDesc(t, c) && DateDesc(c, t) {
        LexLeAntisymmetric(t.date, c.date);
      }
    }
  }

  /** The new-items badge and the all-reviewed placeholder. */
  datatype PendingPanel = AllReviewed | Awaiting(badge: string, items: seq<Transaction>)

  /** Nothing is pending exactly when every entry is reconciled. */
  lemma NonePending(ledger: seq<Transaction>)
    ensures PendingCount(ledger) == 0 <==> forall t :: t in ledger ==> t.isReconciled
  {
    if PendingCount(ledger) > 0 {
      assert Unreconciled(ledger)[0] in Unreconciled(ledger);
    }
  }

  /** The panel shows the placeholder exactly when nothing is unreconciled;
      otherwise it carries the count badge and the items. */
  function Panel(ledger: seq<Transaction>): (r: PendingPanel)
    ensures r.AllReviewed? <==> forall t :: t in ledger ==> t.isReconciled
    ensures r.Awaiting? ==> r.items == PendingItems(ledger) && 1 <= |r.items| <= 4
  {
    NonePending(ledger);
    var items := PendingItems(ledger);
    if |items| == 0 then AllReviewed
    else Awaiting(NatToString(PendingCount(ledger)) + " รายการใหม่", items)
  }
}
