/** Which configurations can trade below the loss line, exactly. */
module ReplayStop {
  import opened ExecutionSimulator
  import opened Replay
  import opened ReplayExact
  import opened ReplayLedger
  import opened ReplayRisk
  import opened Rounding
  import opened Strategy
  import opened Wrappers

  /** A crash: the lag quote opens around the lead so far that a buy is sold `depth` below the bait's price. */
  function CrashTick(x: Bait, ts: int, depth: real): Tick {
    Tick(ts, x.base - depth, x.base + x.gap + x.gap + depth, true)
  }

  /** Deep enough to lose the daily limit whatever an exit costs. */
  ghost predicate Deep(c: Config, p: Params, depth: real) {
    depth + p.holdExitSlipPts + p.holdExitMarkupPts + p.spreadMarkupPts + p.slippagePts >= c.maxDailyLoss
  }

  /** When the second buy is signalled, and when the first is closed in the crash. */
  function SecondTs(p: Params, x: Bait): int {
    1 + x.pause + (if p.holdTolPts >= 0.0 then 0 else p.holdMaxMs - 1)
  }

  function CrashTs(p: Params, x: Bait): int {
    SecondTs(p, x) + (if p.holdTolPts >= 0.0 then 0 else 1)
  }

  function SinkingLag(p: Params, x: Bait, depth: real): seq<Tick> {
    [x.LagTick(1, 0.0), x.LagTick(1 + x.pause, x.over), x.LagTick(SecondTs(p, x), 0.0),
     CrashTick(x, CrashTs(p, x), depth), x.LagTick(CrashTs(p, x), x.over)]
  }

  /** The first buy was closed below the line while the second, signalled at `t`, is still in flight. */
  ghost predicate Sunk(c: Config, p: Params, x: Bait, s: State, t: int) {
    && s.pending == Some(OrderOf(p, Buy, t, x.Lead(), x.base, x.base)) && s.held == None
    && |s.acct.trades| == 1 && s.acct.equity <= Capital(p) - c.maxDailyLoss && s.risk.dayPnl <= -c.maxDailyLoss
  }

  /** The trade that the crash makes of a bought position. */
  lemma CrashPnl(c: Config, p: Params, x: Bait, f: Fill, t: int, now: int, exit: Exit, depth: real)
    requires Bought(p, x, f, t) && Deep(c, p, depth)
    ensures var q := CrashTick(x, now, depth);
            HoldTrade(p, f, now, exit, x.Lead(), q.bid, q.ask).pnl <= -c.maxDailyLoss - Commission(p)
  {
  }

  lemma CrashBooked(c: Config, p: Params, s: State, trade: Trade, capital: real) returns (u: State)
    requires s.acct == OpenAccount(capital) && s.risk.dayPnl == 0.0 && trade.entry.commission >= 0.0
    requires trade.pnl <= -c.maxDailyLoss - trade.entry.commission
    ensures u == Book(s, trade) && |u.acct.trades| == 1 && u.acct.equity <= capital - c.maxDailyLoss
    ensures u.risk.dayPnl <= -c.maxDailyLoss && u.held == s.held && u.pending == s.pending && u.market == s.market
  {
    u := Book(s, trade);
  }

  /** No signal once the daily pnl is at the limit. */
  lemma NoSignalBelow(c: Config, p: Params, s: State, now: int)
    requires s.risk.dayPnl <= -c.maxDailyLoss
    ensures Emit(s, c, p, now) == s
  {
  }

  lemma CrashCloses(c: Config, p: Params, x: Bait, s: State, fill: int, t: int, now: int, depth: real)
    returns (u: State)
    requires Loaded(p, x, s, fill, t) && Deep(c, p, depth) && Commission(p) >= 0.0
    requires s.acct == OpenAccount(Capital(p))
    requires now < t + p.delayMs && (p.holdTolPts >= 0.0 || (p.holdMaxMs > 0 && now - fill >= p.holdMaxMs))
    ensures u == OnLag(s, c, p, CrashTick(x, now, depth)) && Sunk(c, p, x, u, t)
  {
    var q := CrashTick(x, now, depth);
    var a := TakeQuote(s, q);
    assert HandleFill(a, p, now) == a;
    assert 0.5 * (q.bid + q.ask) == x.Lead();
    var exit := ExitReason(p, s.held.value, now, x.Lead(), q.bid, q.ask, false);
    CrashPnl(c, p, x, s.held.value, fill, now, exit.value, depth);
    var trade := HoldTrade(p, s.held.value, now, exit.value, x.Lead(), q.bid, q.ask);
    var b := CrashBooked(c, p, a.(held := None), trade, Capital(p));
    assert Settle(a, p, now) == b;
    NoSignalBelow(c, p, b, now);
    u := Remember(b);
  }

  /** A quote within the cap, before the second buy is due ... */
  lemma QuoteReturns(c: Config, p: Params, x: Bait, s: State, t: int, now: int) returns (u: State)
    requires Sunk(c, p, x, s, t) && now < t + p.delayMs
    ensures u == OnLag(s, c, p, x.LagTick(now, x.over)) && Sunk(c, p, x, u, t)
    ensures u.market.bid == x.base + x.over && u.market.ask == x.base
  {
    var a := TakeQuote(s, x.LagTick(now, x.over));
    assert Settle(a, p, now) == a;
    NoSignalBelow(c, p, a, now);
    u := Remember(a);
  }

  /** ... on which it is filled at the end of the streams and force-closed: a trade below the line. */
  lemma TradesBelow(c: Config, p: Params, x: Bait, s: State, t: int, end: int) returns (r: State)
    requires CanOverwrite(c, p) && Suits(c, p, x) && Sunk(c, p, x, s, t) && end >= t
    requires s.market.bid == x.base + x.over && s.market.ask == x.base
    ensures r == Finish(s, p, end) && |r.acct.trades| == 2
    ensures !TradeAbove(Capital(p) - c.maxDailyLoss, r.acct.trades[1])
  {
    var now := end + p.delayMs + 1;
    var a := HandleFill(s, p, now);
    assert a.held.Some? && a.acct == s.acct;
    r := ForceClose(a, p, now + 1);
  }

  // ------------------------------------------------------------------
  // The whole run
  // ------------------------------------------------------------------

  /** The first four lag ticks leave the account below the line. */
  lemma SinkingFront(c: Config, p: Params, x: Bait, depth: real, lead: seq<Tick>, lag: seq<Tick>) returns (u: State)
    requires !KeepsLine(c, p) && Suits(c, p, x) && Deep(c, p, depth) && Commission(p) >= 0.0
    requires lead == LosingLead(x) && lag == SinkingLag(p, x, depth)
    ensures Through(Start(p), c, p, Merge(lead, lag)) == Through(u, c, p, MergeFrom(lead, lag, |lead|, 4))
    ensures Sunk(c, p, x, u, SecondTs(p, x))
  {
    var s := StartRun(c, p, x, lead, lag);
    s := CrossedMiddle(c, p, x, lead, lag, s, SecondTs(p, x));
    RunLags(s, c, p, lead, lag, 3);
    u := CrashCloses(c, p, x, s, 1 + x.pause, SecondTs(p, x), CrashTs(p, x), depth);
  }

  lemma SinkingRun(c: Config, p: Params, x: Bait, depth: real) returns (r: State)
    requires !KeepsLine(c, p) && Suits(c, p, x) && Deep(c, p, depth) && Commission(p) >= 0.0
    ensures r == Replayed(c, p, LosingLead(x), SinkingLag(p, x, depth)) && |r.acct.trades| == 2
    ensures !TradeAbove(Capital(p) - c.maxDailyLoss, r.acct.trades[1])
  {
    var lead, lag := LosingLead(x), SinkingLag(p, x, depth);
    var s := SinkingFront(c, p, x, depth, lead, lag);
    RunLags(s, c, p, lead, lag, 4);
    s := QuoteReturns(c, p, x, s, SecondTs(p, x), CrashTs(p, x));
    r := TradesBelow(c, p, x, s, SecondTs(p, x), EndTs(lead, lag));
  }

  // ------------------------------------------------------------------
  // Main result
  // ------------------------------------------------------------------

  /** Equity just before every trade is above the capital less the daily loss limit. */
  ghost predicate LineKept(c: Config, p: Params, lead: seq<Tick>, lag: seq<Tick>)
    requires Streams(lead, lag)
  {
    var trades := Replayed(c, p, lead, lag).acct.trades;
    forall i :: 0 <= i < |trades| ==> TradeAbove(Capital(p) - c.maxDailyLoss, trades[i])
  }

  lemma KeptWhen(c: Config, p: Params, lead: seq<Tick>, lag: seq<Tick>)
    requires KeepsLine(c, p) && Commission(p) >= 0.0 && Streams(lead, lag)
    ensures LineKept(c, p, lead, lag)
  {
    var es, end := Merge(lead, lag), EndTs(lead, lag);
    MergeOrdered(lead, lag, 0, 0);
    ThroughGuarded(c, p, Start(p), es, es[0].tick.ts);
    assert forall k :: 0 <= k < |lag| ==> lag[k].ts <= lag[|lag| - 1].ts;
    MergeLagBy(lead, lag, 0, 0, end);
    ThroughDueBy(c, p, Start(p), es, end);
    var r := FinishStopped(c, p, Through(Start(p), c, p, es), end);
  }

  lemma BrokenUnless(c: Config, p: Params) returns (lead: seq<Tick>, lag: seq<Tick>)
    requires !KeepsLine(c, p) && Commission(p) >= 0.0
    ensures Streams(lead, lag) && !LineKept(c, p, lead, lag)
  {
    var costs := Abs(p.holdExitSlipPts) + Abs(p.holdExitMarkupPts) + Abs(p.spreadMarkupPts) + Abs(p.slippagePts);
    var depth := c.maxDailyLoss + costs;
    var x := BaitAbove(c, p, depth);
    lead, lag := LosingLead(x), SinkingLag(p, x, depth);
    var r := SinkingRun(c, p, x, depth);
  }

  /** Without rebates, the line is kept on every sorted pair of streams iff the configuration keeps it. */
  lemma {:induction false} LossStopExact(c: Config, p: Params)
    requires Commission(p) >= 0.0
    ensures (forall lead, lag :: Streams(lead, lag) ==> LineKept(c, p, lead, lag)) <==> KeepsLine(c, p)
  {
    if KeepsLine(c, p) {
      forall lead, lag | Streams(lead, lag) ensures LineKept(c, p, lead, lag) {
        KeptWhen(c, p, lead, lag);
      }
    } else {
      var lead, lag := BrokenUnless(c, p);
    }
  }
}
