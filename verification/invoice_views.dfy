/**
 * The two getters of the invoice store (src/stores/invoiceStore.ts): `recentInvoices`,
 * the five newest invoices by `createdAt`, and `totalStats`, four per-status sums of
 * `amount`. Both are pure functions of the invoice list; neither can change it.
 */
module InvoiceViews {
  import opened InvoiceTypes
  import opened Slices

  /** How many invoices `recentInvoices` keeps. */
  const RecentCount: nat := 5

  // ---------------------------------------------------------------------------
  // recentInvoices: copy, sort newest first, keep the first five
  // ---------------------------------------------------------------------------

  predicate SortedNewestFirst(s: seq<Invoice>)
  {
    forall i, j :: 0 <= i < j < |s| ==> s[i].createdAt >= s[j].createdAt
  }

  /** A list stays newest-first when an invoice no older than all of its elements is put in front. */
  lemma PrependNewest(y: Invoice, t: seq<Invoice>)
    requires SortedNewestFirst(t)
    requires forall z :: z in multiset(t) ==> z.createdAt <= y.createdAt
    ensures SortedNewestFirst([y] + t)
  {
    forall j | 0 <= j < |t| ensures t[j].createdAt <= y.createdAt {
      assert t[j] in multiset(t);
    }
  }

  /** No invoice of a newest-first list is newer than its head. */
  lemma HeadIsNewest(s: seq<Invoice>)
    requires SortedNewestFirst(s)
    ensures s != [] ==> forall z :: z in multiset(s) ==> z.createdAt <= s[0].createdAt
  {
    if s != [] {
      forall z | z in multiset(s) ensures z.createdAt <= s[0].createdAt {
        assert z in s;
      }
    }
  }

  /** Putting `x` in front of a list whose head is no newer than `x` keeps it newest-first. */
  lemma InsertAtHead(x: Invoice, s: seq<Invoice>)
    requires SortedNewestFirst(s)
    requires s == [] || s[0].createdAt <= x.createdAt
    ensures SortedNewestFirst([x] + s)
  {
    HeadIsNewest(s);
    PrependNewest(x, s);
  }

  /**
   * When the head of `s` is strictly newer than `x`, the head followed by `t`, the rest
   * of `s` with `x` inserted, is newest-first and holds `s` and `x`.
   */
  lemma InsertBehindHead(x: Invoice, s: seq<Invoice>, t: seq<Invoice>)
    requires SortedNewestFirst(s) && s != [] && x.createdAt < s[0].createdAt
    requires SortedNewestFirst(t) && multiset(t) == multiset(s[1..]) + multiset{x}
    ensures SortedNewestFirst([s[0]] + t)
    ensures multiset([s[0]] + t) == multiset(s) + multiset{x}
  {
    HeadIsNewest(s);
    assert s == [s[0]] + s[1..];
    assert multiset(s) == multiset{s[0]} + multiset(s[1..]);
    PrependNewest(s[0], t);
  }

  /**
   * Inserts `x` into a newest-first list in front of the first element that is not
   * strictly newer, so that `x` stays ahead of the elements it tied with.
   */
  function InsertByCreated(x: Invoice, s: seq<Invoice>): (r: seq<Invoice>)
    requires SortedNewestFirst(s)
    ensures SortedNewestFirst(r)
    ensures multiset(r) == multiset(s) + multiset{x}
  {
    if s == [] || s[0].createdAt <= x.createdAt then
      InsertAtHead(x, s);
      [x] + s
    else
      var t := InsertByCreated(x, s[1..]);
      InsertBehindHead(x, s, t);
      [s[0]] + t
  }

  /**
   * The copy-and-sort of `recentInvoices` with the comparator
   * `b.createdAt - a.createdAt`: a stable sort, newest first.
   */
  function SortNewestFirst(invoices: seq<Invoice>): (r: seq<Invoice>)
    ensures SortedNewestFirst(r)
    ensures multiset(r) == multiset(invoices)
  {
    if invoices == [] then []
    else
      assert invoices == [invoices[0]] + invoices[1..];
      InsertByCreated(invoices[0], SortNewestFirst(invoices[1..]))
  }

  /** The first `n` invoices of a newest-first list are at least as new as all the others. */
  lemma PrefixOfSortedIsNewest(s: seq<Invoice>, n: nat)
    requires SortedNewestFirst(s) && n <= |s|
    ensures multiset(s[..n]) <= multiset(s)
    ensures forall x :: x in multiset(s) - multiset(s[..n]) ==>
              forall y :: y in s[..n] ==> x.createdAt <= y.createdAt
  {
    assert s == s[..n] + s[n..];
    assert multiset(s) - multiset(s[..n]) == multiset(s[n..]);
    forall x, y | x in multiset(s[n..]) && y in s[..n] ensures x.createdAt <= y.createdAt {
      var i :| 0 <= i < |s[n..]| && s[n..][i] == x;
      var j :| 0 <= j < n && s[..n][j] == y;
      assert s[j] == y && s[n + i] == x;
    }
  }

  /**
   * `recentInvoices`: at most five invoices of the list, newest first, and no invoice
   * that was left out is newer than one that was kept.
   */
  function RecentInvoices(invoices: seq<Invoice>): (r: seq<Invoice>)
    ensures |r| == Min(RecentCount, |invoices|)
    ensures SortedNewestFirst(r)
    ensures multiset(r) <= multiset(invoices)
    ensures forall x :: x in multiset(invoices) - multiset(r) ==>
              forall y :: y in r ==> x.createdAt <= y.createdAt
  {
    var sorted := SortNewestFirst(invoices);
    PrefixOfSortedIsNewest(sorted, Min(RecentCount, |sorted|));
    Take(sorted, RecentCount)
  }

  /** Every invoice shown by `recentInvoices` is in the list. */
  lemma RecentInvoicesFromList(invoices: seq<Invoice>, y: Invoice)
    requires y in RecentInvoices(invoices)
    ensures y in invoices
  {
  }

  /** With five invoices or fewer, `recentInvoices` shows every one of them. */
  lemma RecentInvoicesShowsAllWhenFew(invoices: seq<Invoice>)
    requires |invoices| <= RecentCount
    ensures multiset(RecentInvoices(invoices)) == multiset(invoices)
  {
  }

  /** An invoice pushed onto a list of fewer than five is shown by `recentInvoices`. */
  lemma PushedInvoiceIsRecent(inv: Invoice, invoices: seq<Invoice>)
    requires |invoices| < RecentCount
    ensures inv in RecentInvoices([inv] + invoices)
  {
    var l := [inv] + invoices;
    RecentInvoicesShowsAllWhenFew(l);
    assert inv in multiset(l);
  }

  /** An element that occurs at one index only occurs once in the multiset. */
  lemma {:induction false} OccursOnce(s: seq<Invoice>, k: nat)
    requires k < |s|
    requires forall j :: 0 <= j < |s| && j != k ==> s[j] != s[k]
    ensures multiset(s)[s[k]] == 1
  {
    var x := s[k];
    assert s == s[..k] + [x] + s[k + 1..];
    assert forall j :: 0 <= j < k ==> s[..k][j] == s[j];
    assert x !in s[..k];
    var tail := s[k + 1..];
    forall j | 0 <= j < |tail| ensures tail[j] != x {
      assert tail[j] == s[k + 1 + j];
    }
    assert x !in tail;
    assert multiset(s) == multiset(s[..k]) + multiset{x} + multiset(s[k + 1..]);
  }

  /**
   * With more than five invoices, one strictly older than all the others is left out
   * of `recentInvoices`.
   */
  lemma RecentInvoicesDropsOldest(invoices: seq<Invoice>, k: nat)
    requires RecentCount < |invoices| && k < |invoices|
    requires forall j :: 0 <= j < |invoices| && j != k ==> invoices[j].createdAt > invoices[k].createdAt
    ensures invoices[k] !in RecentInvoices(invoices)
  {
    var r := RecentInvoices(invoices);
    var x := invoices[k];
    var left := multiset(invoices) - multiset(r);
    OccursOnce(invoices, k);
    assert multiset(r) + left == multiset(invoices);
    assert |left| == |invoices| - |r| > 0;
    var y :| y in left;
    assert y in invoices;
    var j :| 0 <= j < |invoices| && invoices[j] == y;
    if j == k {
      assert multiset(r)[x] == 0;
    } else {
      assert y.createdAt > x.createdAt;
    }
  }

  /**
   * Six invoices pushed one by one with ids 0 to 5, id `n` created `n` seconds before
   * `now`, leave the list ordered ids 5 down to 0: `recentInvoices` then shows five of
   * them and not the one with id 5.
   */
  lemma SixPushedKeepsNewestFive(invoices: seq<Invoice>, now: int)
    requires |invoices| == 6
    requires forall i :: 0 <= i < 6 ==> invoices[i].id == 5 - i && invoices[i].createdAt == now - (5 - i) * 1000
    ensures |RecentInvoices(invoices)| == 5
    ensures forall y :: y in RecentInvoices(invoices) ==> y.id != 5
  {
    RecentInvoicesDropsOldest(invoices, 0);
    forall y | y in RecentInvoices(invoices) ensures y.id != 5 {
      RecentInvoicesFromList(invoices, y);
    }
  }

  // ---------------------------------------------------------------------------
  // totalStats: a left fold putting each amount into its status bucket
  // ---------------------------------------------------------------------------

  datatype Stats = Stats(totalPaid: real, totalOverdue: real, totalDraft: real, totalUnpaid: real)

  const ZeroStats: Stats := Stats(0.0, 0.0, 0.0, 0.0)

  /** The statuses counted as unpaid: SENT, VIEWED and PENDING (OVERDUE is not). */
  const UnpaidStatuses: set<InvoiceStatus> := {SENT, VIEWED, PENDING}

  /**
   * The reducer: four independent status tests. Exactly one of them fires, adding
   * `amount` to the one total that the status belongs to.
   */
  function Tally(stats: Stats, inv: Invoice): (r: Stats)
    ensures r == AddToBucket(stats, BucketOf(inv.status), inv.amount)
  {
    Stats(
      if inv.status == PAID then stats.totalPaid + inv.amount else stats.totalPaid,
      if inv.status == OVERDUE then stats.totalOverdue + inv.amount else stats.totalOverdue,
      if inv.status == DRAFT then stats.totalDraft + inv.amount else stats.totalDraft,
      if inv.status in UnpaidStatuses then stats.totalUnpaid + inv.amount else stats.totalUnpaid)
  }

  /** The four totals. */
  datatype Bucket = PaidTotal | OverdueTotal | DraftTotal | UnpaidTotal

  /** Reference definition: the one total each status belongs to. */
  function BucketOf(s: InvoiceStatus): Bucket
  {
    match s
    case PAID => PaidTotal
    case OVERDUE => OverdueTotal
    case DRAFT => DraftTotal
    case SENT | VIEWED | PENDING => UnpaidTotal
  }

  function AddToBucket(stats: Stats, b: Bucket, amount: real): Stats
  {
    match b
    case PaidTotal => stats.(totalPaid := stats.totalPaid + amount)
    case OverdueTotal => stats.(totalOverdue := stats.totalOverdue + amount)
    case DraftTotal => stats.(totalDraft := stats.totalDraft + amount)
    case UnpaidTotal => stats.(totalUnpaid := stats.totalUnpaid + amount)
  }

  /** `reduce`: fold `Tally` over the list from the front, adding the per-status sums to `acc`. */
  function FoldStats(acc: Stats, invoices: seq<Invoice>): (r: Stats)
    ensures r == Stats(
              acc.totalPaid + SumWhere(invoices, {PAID}),
              acc.totalOverdue + SumWhere(invoices, {OVERDUE}),
              acc.totalDraft + SumWhere(invoices, {DRAFT}),
              acc.totalUnpaid + SumWhere(invoices, UnpaidStatuses))
    decreases |invoices|
  {
    if invoices == [] then acc else FoldStats(Tally(acc, invoices[0]), invoices[1..])
  }

  /** Reference definition: the sum of `amount` over the invoices whose status is in `statuses`. */
  function SumWhere(invoices: seq<Invoice>, statuses: set<InvoiceStatus>): real
  {
    if invoices == [] then 0.0
    else (if invoices[0].status in statuses then invoices[0].amount else 0.0)
         + SumWhere(invoices[1..], statuses)
  }

  /** Reference definition: the sum of every `amount`. */
  function TotalAmount(invoices: seq<Invoice>): real
  {
    if invoices == [] then 0.0 else invoices[0].amount + TotalAmount(invoices[1..])
  }

  /**
   * `totalStats`: PAID, OVERDUE and DRAFT amounts in their own totals, SENT, VIEWED and
   * PENDING amounts in `totalUnpaid`.
   */
  function TotalStats(invoices: seq<Invoice>): (r: Stats)
    ensures r.totalPaid == SumWhere(invoices, {PAID})
    ensures r.totalOverdue == SumWhere(invoices, {OVERDUE})
    ensures r.totalDraft == SumWhere(invoices, {DRAFT})
    ensures r.totalUnpaid == SumWhere(invoices, UnpaidStatuses)
  {
    FoldStats(ZeroStats, invoices)
  }

  /** Each status falls into exactly one of the four sets, so the totals share out the whole amount. */
  lemma {:induction false} BucketsPartitionTotal(invoices: seq<Invoice>)
    ensures SumWhere(invoices, {PAID}) + SumWhere(invoices, {OVERDUE})
          + SumWhere(invoices, {DRAFT}) + SumWhere(invoices, UnpaidStatuses)
          == TotalAmount(invoices)
  {
    if invoices != [] {
      BucketsPartitionTotal(invoices[1..]);
      match invoices[0].status
      case PAID =>
      case OVERDUE =>
      case DRAFT =>
      case SENT =>
      case VIEWED =>
      case PENDING =>
    }
  }

  /** The four totals add up to the sum of all amounts. */
  lemma {:induction false} TotalStatsAddUp(invoices: seq<Invoice>)
    ensures var st := TotalStats(invoices);
            st.totalPaid + st.totalOverdue + st.totalDraft + st.totalUnpaid == TotalAmount(invoices)
  {
    BucketsPartitionTotal(invoices);
  }

  lemma {:induction false} SumWhereNonNegative(invoices: seq<Invoice>, statuses: set<InvoiceStatus>)
    requires forall i :: 0 <= i < |invoices| ==> invoices[i].amount >= 0.0
    ensures SumWhere(invoices, statuses) >= 0.0
  {
    if invoices != [] {
      SumWhereNonNegative(invoices[1..], statuses);
    }
  }

  /** With non-negative amounts every total is non-negative. */
  lemma TotalStatsNonNegative(invoices: seq<Invoice>)
    requires forall i :: 0 <= i < |invoices| ==> invoices[i].amount >= 0.0
    ensures var st := TotalStats(invoices);
            st.totalPaid >= 0.0 && st.totalOverdue >= 0.0 && st.totalDraft >= 0.0 && st.totalUnpaid >= 0.0
  {
    SumWhereNonNegative(invoices, {PAID});
    SumWhereNonNegative(invoices, {OVERDUE});
    SumWhereNonNegative(invoices, {DRAFT});
    SumWhereNonNegative(invoices, UnpaidStatuses);
  }

  /** Putting an invoice in front of the list changes the totals by exactly that invoice's bucket. */
  lemma TotalStatsPrepend(inv: Invoice, invoices: seq<Invoice>)
    ensures TotalStats([inv] + invoices) == Tally(TotalStats(invoices), inv)
  {
  }

  /** The four totals of a list holding 100 PAID, 50 OVERDUE, 30 DRAFT and 20 SENT. */
  lemma TotalStatsExample(l: seq<Invoice>)
    requires |l| == 4
    requires l[0].amount == 100.0 && l[0].status == PAID
    requires l[1].amount == 50.0 && l[1].status == OVERDUE
    requires l[2].amount == 30.0 && l[2].status == DRAFT
    requires l[3].amount == 20.0 && l[3].status == SENT
    ensures TotalStats(l) == Stats(100.0, 50.0, 30.0, 20.0)
  {
    assert TotalStats(l[3..]) == Stats(0.0, 0.0, 0.0, 20.0) by {
      assert l[3..] == [l[3]] + [];
      TotalStatsPrepend(l[3], []);
    }
    assert TotalStats(l[2..]) == Stats(0.0, 0.0, 30.0, 20.0) by {
      assert l[2..] == [l[2]] + l[3..];
      TotalStatsPrepend(l[2], l[3..]);
    }
    assert TotalStats(l[1..]) == Stats(0.0, 50.0, 30.0, 20.0) by {
      assert l[1..] == [l[1]] + l[2..];
      TotalStatsPrepend(l[1], l[2..]);
    }
    assert l == [l[0]] + l[1..];
    TotalStatsPrepend(l[0], l[1..]);
  }

}
