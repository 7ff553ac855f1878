/** The dashboard (app/dashboard/page.tsx): initial stats, recent invoices, paid percentage. */
module DashboardModel {
  import opened Types
  import opened StoreModel

  /** The stats shown before the store has been read: all six are zero. */
  const InitialStats: Stats := Stats(0, 0, 0.0, 0.0, 0, 0)

  /** The placeholder agrees with what an empty store reports. */
  lemma InitialStatsMatchEmptyStore()
    ensures ComputeStats([]) == InitialStats
  {
  }

  const RecentCount: nat := 5

  /** The first five invoices in store order, or all of them when there are fewer. */
  function RecentInvoices(all: seq<Invoice>): (r: seq<Invoice>)
    ensures |r| == if |all| < RecentCount then |all| else RecentCount
    ensures r == all[..|r|]
  {
    if |all| < RecentCount then all else all[..RecentCount]
  }

  /**
   * The paid share as a whole percentage, 0 when there are no invoices
   * (the quotient is then not a number, which counts as false). The rounding
   * bound says `pct - 1/2 <= 100 * paid / total < pct + 1/2`, i.e. the share
   * rounded half up, multiplied out by `2 * total`.
   */
  function PaidPercent(paid: nat, total: nat): (pct: int)
    requires paid <= total
    ensures total == 0 ==> pct == 0
    ensures 0 <= pct <= 100
    ensures total > 0 ==> (2 * pct - 1) * total <= 200 * paid < (2 * pct + 1) * total
  {
    if total == 0 then 0
    else
      var pct := (200 * paid + total) / (2 * total);
      PaidPercentRounds(paid, total, pct);
      pct
  }

  /** Multiplying by a positive factor keeps the order, in both directions. */
  lemma ScaleKeepsOrder(t: int, x: int, y: int)
    requires t > 0
    ensures x <= y <==> t * x <= t * y
  {
    if x <= y {
      assert t * y - t * x == t * (y - x);
    } else {
      assert t * x - t * y == t * (x - y);
    }
  }

  lemma PaidPercentRounds(paid: nat, total: nat, pct: int)
    requires 0 < total && paid <= total
    requires pct == (200 * paid + total) / (2 * total)
    ensures 0 <= pct <= 100
    ensures (2 * pct - 1) * total <= 200 * paid < (2 * pct + 1) * total
  {
    var n, d := 200 * paid + total, 2 * total;
    var rem := n % d;
    assert n == d * pct + rem && 0 <= rem < d;
    var tp := total * pct;
    assert d * pct == 2 * tp;
    assert 2 * tp <= n < 2 * tp + d;
    assert (2 * pct - 1) * total == 2 * tp - total;
    assert (2 * pct + 1) * total == 2 * tp + total;
    ScaleKeepsOrder(total, 101, pct);
    ScaleKeepsOrder(total, pct, -1);
  }

  /** Fed with what the store reports, the percentage is always between 0 and 100. */
  lemma PaidPercentOfStoreInRange(invs: seq<Invoice>)
    ensures var st := ComputeStats(invs);
      st.paidInvoices <= st.totalInvoices && 0 <= PaidPercent(st.paidInvoices, st.totalInvoices) <= 100
  {
  }
}
