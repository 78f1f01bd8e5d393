/** The dashboard's statistics over the cached trades: counts of wins and
    losses, a win-rate over all trades, the net P&L and the five most recent
    entries. */
module Dashboard {
  import opened Journal

  /** The number of trades whose result is exactly `result`. */
  function CountResult(ts: seq<Trade>, result: string): (n: nat)
    ensures n <= |ts|
    ensures n == 0 <==> forall i :: 0 <= i < |ts| ==> ts[i].result != result
  {
    if ts == [] then 0
    else (if ts[0].result == result then 1 else 0) + CountResult(ts[1..], result)
  }

  lemma {:induction false} CountResultAppend(a: seq<Trade>, b: seq<Trade>, result: string)
    ensures CountResult(a + b, result) == CountResult(a, result) + CountResult(b, result)
    decreases |a|
  {
    if a == [] {
      assert a + b == b;
    } else {
      assert (a + b)[1..] == a[1..] + b;
      CountResultAppend(a[1..], b, result);
    }
  }

  /** No trade is both a win and a loss, so the two counts together never
      exceed the number of trades; break-even and pending trades make up the
      difference. */
  lemma {:induction false} WinsAndLossesBounded(ts: seq<Trade>)
    ensures CountResult(ts, "Win") + CountResult(ts, "Lose") <= |ts|
    ensures CountResult(ts, "Win") + CountResult(ts, "Lose") == |ts| <==>
            forall i :: 0 <= i < |ts| ==> ts[i].result == "Win" || ts[i].result == "Lose"
    decreases |ts|
  {
    if ts != [] {
      WinsAndLossesBounded(ts[1..]);
      assert forall i :: 1 <= i < |ts| ==> ts[i] == ts[1..][i - 1];
    }
  }

  /** wins / totalTrades * 100 over all trades, whatever their result, or 0
      with no trades. */
  function WinRate(ts: seq<Trade>): (r: real)
    ensures 0.0 <= r <= 100.0
    ensures |ts| == 0 ==> r == 0.0
    ensures |ts| > 0 ==> r * (|ts| as real) == 100.0 * (CountResult(ts, "Win") as real)
  {
    if |ts| > 0 then
      Percentage(CountResult(ts, "Win") as real, |ts| as real);
      (CountResult(ts, "Win") as real / |ts| as real) * 100.0
    else 0.0
  }

  /** A part of a positive whole, as a percentage. */
  lemma Percentage(w: real, n: real)
    requires 0.0 <= w <= n && n > 0.0
    ensures 0.0 <= (w / n) * 100.0 <= 100.0
    ensures ((w / n) * 100.0) * n == 100.0 * w
  {
    assert (w / n) * n == w;
    assert w / n <= 1.0;
  }

  lemma RateIs(ts: seq<Trade>)
    requires |ts| > 0
    ensures WinRate(ts) == (CountResult(ts, "Win") as real / |ts| as real) * 100.0
  {
  }

  lemma ShareShrinks(w: real, n: real, m: real)
    requires n > 0.0 && m == n + 1.0 && w >= 0.0
    ensures (w / m) * 100.0 <= (w / n) * 100.0
  {
    assert w / m <= w / n by {
      assert (w / m) * m == w && (w / n) * n == w;
      assert (w / n) * m == w + w / n;
    }
  }

  lemma AppendNonWin(ts: seq<Trade>, t: Trade)
    requires t.result != "Win"
    ensures CountResult(ts + [t], "Win") == CountResult(ts, "Win")
  {
    CountResultAppend(ts, [t], "Win");
    assert CountResult([t], "Win") == 0;
  }

  /** A trade that is not a win, a break-even or a pending one included, can
      only lower the win-rate: the denominator counts every trade. */
  lemma NonWinNeverRaisesRate(ts: seq<Trade>, t: Trade)
    requires t.result != "Win"
    ensures WinRate(ts + [t]) <= WinRate(ts)
  {
    if |ts| > 0 {
      AppendNonWin(ts, t);
      RateIs(ts);
      RateIs(ts + [t]);
      ShareShrinks(CountResult(ts, "Win") as real, |ts| as real, |ts + [t]| as real);
    }
  }

  /** The sum of the trades' P&L, a trade without one adding 0. */
  function NetPnL(ts: seq<Trade>): (r: real)
    ensures ts == [] ==> r == 0.0
    ensures (forall i :: 0 <= i < |ts| ==> PnlOrZero(ts[i]) >= 0.0) ==> r >= 0.0
    ensures (forall i :: 0 <= i < |ts| ==> PnlOrZero(ts[i]) <= 0.0) ==> r <= 0.0
  {
    if ts == [] then 0.0 else PnlOrZero(ts[0]) + NetPnL(ts[1..])
  }

  lemma {:induction false} NetPnLAppend(a: seq<Trade>, b: seq<Trade>)
    ensures NetPnL(a + b) == NetPnL(a) + NetPnL(b)
    decreases |a|
  {
    if a == [] {
      assert a + b == b;
    } else {
      assert (a + b)[1..] == a[1..] + b;
      NetPnLAppend(a[1..], b);
    }
  }

  /** Trades without a P&L do not move the total. */
  lemma {:induction false} NetPnLWithoutValues(ts: seq<Trade>)
    requires forall i :: 0 <= i < |ts| ==> ts[i].pnl.None?
    ensures NetPnL(ts) == 0.0
    decreases |ts|
  {
    if ts != [] {
      NetPnLWithoutValues(ts[1..]);
    }
  }

  /** The recent-activity table: the first five trades, in list order. */
  function RecentActivity(ts: seq<Trade>): (r: seq<Trade>)
    ensures |r| == Min(5, |ts|)
    ensures r <= ts
  {
    ts[..Min(5, |ts|)]
  }

  /** A trade just added to the front of the list leads the table, and the
      previous leaders move down by one. */
  lemma RecentAfterPrepend(row: Trade, ts: seq<Trade>)
    ensures RecentActivity([row] + ts) == [row] + RecentActivity(ts)[..Min(4, |ts|)]
  {
    var n := Min(4, |ts|);
    assert ([row] + ts)[..n + 1] == [row] + ts[..n];
  }

  datatype Summary = Summary(totalTrades: nat, wins: nat, losses: nat, winRate: real, netPnL: real)

  /** The four figures of the statistics cards. */
  function Summarize(ts: seq<Trade>): (s: Summary)
    ensures s.totalTrades == |ts|
    ensures s.wins + s.losses <= s.totalTrades
    ensures 0.0 <= s.winRate <= 100.0
    ensures s.totalTrades == 0 ==> s.wins == 0 && s.losses == 0 && s.winRate == 0.0 && s.netPnL == 0.0
    ensures s.wins == CountResult(ts, "Win") && s.losses == CountResult(ts, "Lose")
    ensures s.winRate == WinRate(ts) && s.netPnL == NetPnL(ts)
  {
    WinsAndLossesBounded(ts);
    Summary(|ts|, CountResult(ts, "Win"), CountResult(ts, "Lose"), WinRate(ts), NetPnL(ts))
  }
}
