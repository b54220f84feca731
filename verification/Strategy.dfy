/** The lead-lag strategy: threshold rule, risk gates and risk state. */
module Strategy {
  import opened Rounding
  import opened Wrappers

  datatype Side = Buy | Sell | NoSide

  datatype Decision = Long | Short | Hold

  datatype Config = Config(thresholdPips: real, latencyBufferPips: real, minProfitMarginPips: real,
                           maxOpenLots: int, maxDailyLoss: real, maxOrdersPerInterval: int,
                           intervalSeconds: int, roundFourDecimals: bool)

  datatype Quote = Quote(bid: real, ask: real, spread: real)

  datatype Signal = Signal(side: Side, lead: real, bid: real, ask: real, threshold: real, edge: real,
                           ts: int, reason: string)

  datatype Risk = Risk(openLots: int, dayPnl: real, orders: int, intervalStart: int, lastSignal: int)

  const NO_RISK := Risk(0, 0.0, 0, 0, 0)

  function Rounded(c: Config, v: real): real {
    if c.roundFourDecimals then Round4(v) else v
  }

  /** `dynamic_threshold`. */
  function Threshold(c: Config, q: Quote): real {
    var spread := if q.spread <= 0.0 then Abs(q.ask - q.bid) else q.spread;
    Max(spread + c.latencyBufferPips + c.minProfitMarginPips, c.thresholdPips)
  }

  /** `evaluate`. */
  function Evaluate(c: Config, lead: real, q: Quote): Decision {
    if Rounded(c, lead) > Rounded(c, q.ask) + Threshold(c, q) then Long
    else if Rounded(c, q.bid) > Rounded(c, lead) + Threshold(c, q) then Short
    else Hold
  }

  /** The threshold is the larger of its fixed floor and the spread, published or else derived, plus both buffers. */
  lemma ThresholdCovers(c: Config, q: Quote)
    ensures Threshold(c, q) >= c.thresholdPips
    ensures var cost := (if q.spread > 0.0 then q.spread else Abs(q.ask - q.bid))
                        + c.latencyBufferPips + c.minProfitMarginPips;
            && Threshold(c, q) >= cost
            && (Threshold(c, q) == cost || Threshold(c, q) == c.thresholdPips)
  {
  }

  lemma RoundedMonotone(c: Config, a: real, b: real)
    requires a <= b
    ensures Rounded(c, a) <= Rounded(c, b)
  {
    Round4Monotone(a, b);
  }

  /** On an uncrossed quote with no negative threshold the two triggers exclude each other, so their order is free. */
  lemma {:induction false} TriggersExclusive(c: Config, lead: real, q: Quote)
    requires q.bid <= q.ask && Threshold(c, q) >= 0.0
    ensures Evaluate(c, lead, q) == Long <==> Rounded(c, lead) - Rounded(c, q.ask) > Threshold(c, q)
    ensures Evaluate(c, lead, q) == Short <==> Rounded(c, q.bid) - Rounded(c, lead) > Threshold(c, q)
  {
    RoundedMonotone(c, q.bid, q.ask);
  }

  /** int64 division: truncation toward zero. */
  function TruncDiv(a: int, b: int): int
    requires b > 0
  {
    if a >= 0 then a / b else -((-a) / b)
  }

  predicate IntervalSpent(c: Config, r: Risk, now: int) {
    r.intervalStart != 0 && TruncDiv(now - r.intervalStart, 1000) >= c.intervalSeconds
  }

  /** `can_trade_now`. */
  predicate CanTrade(c: Config, r: Risk, now: int) {
    && r.openLots < c.maxOpenLots
    && r.dayPnl > -c.maxDailyLoss
    && (IntervalSpent(c, r, now) || r.orders < c.maxOrdersPerInterval)
  }

  /** `on_order_placed`. */
  function Placed(r: Risk): Risk {
    r.(openLots := r.openLots + 1, orders := r.orders + 1)
  }

  /** `on_order_closed`. */
  function Closed(r: Risk, pnl: real, commission: real): Risk {
    r.(dayPnl := r.dayPnl + pnl - commission, openLots := if r.openLots > 0 then r.openLots - 1 else r.openLots)
  }

  predicate CoolingDown(c: Config, r: Risk, now: int) {
    r.lastSignal != 0 && now - r.lastSignal < c.intervalSeconds * 1000
  }

  predicate Emits(c: Config, r: Risk, d: Decision, now: int) {
    d != Hold && CanTrade(c, r, now) && !CoolingDown(c, r, now)
  }

  function SignalOf(c: Config, d: Decision, lead: real, q: Quote, now: int): Signal
    requires d != Hold
  {
    var th := Threshold(c, q);
    if d == Long then
      Signal(Buy, lead, q.bid, q.ask, th, Rounded(c, lead) - Rounded(c, q.ask) - th, now, "lead_gt_ask")
    else
      Signal(Sell, lead, q.bid, q.ask, th, Rounded(c, q.bid) - Rounded(c, lead) - th, now, "bid_gt_lead")
  }

  /** The edge of an emitted signal is positive. */
  lemma EdgePositive(c: Config, lead: real, q: Quote, now: int)
    requires Evaluate(c, lead, q) != Hold
    ensures SignalOf(c, Evaluate(c, lead, q), lead, q, now).edge > 0.0
  {
  }

  /** Truncated division reaches `k` with the k-th full divisor, or for k <= 0 a whole divisor earlier. */
  lemma TruncDivReaches(a: int, k: int)
    ensures TruncDiv(a, 1000) >= k <==> if k > 0 then a >= 1000 * k else a > 1000 * (k - 1)
  {
  }

  /** A lot is free, the day's loss is under its limit, and an order is free or the interval is over. */
  predicate GatesOpen(c: Config, r: Risk, now: int) {
    var age := now - r.intervalStart;
    && r.openLots < c.maxOpenLots && r.dayPnl > -c.maxDailyLoss
    && (|| r.orders < c.maxOrdersPerInterval
        || (r.intervalStart != 0
            && if c.intervalSeconds > 0 then age >= 1000 * c.intervalSeconds else age > 1000 * (c.intervalSeconds - 1)))
  }

  lemma GatesAre(c: Config, r: Risk, now: int)
    ensures CanTrade(c, r, now) <==> GatesOpen(c, r, now)
  {
    TruncDivReaches(now - r.intervalStart, c.intervalSeconds);
  }

  /** The signal of a decision: side and reason, the quote and lead it was taken on, the threshold and the excess. */
  predicate Describes(c: Config, s: Signal, d: Decision, lead: real, q: Quote, now: int) {
    var cost := (if q.spread > 0.0 then q.spread else if q.ask >= q.bid then q.ask - q.bid else q.bid - q.ask)
                + c.latencyBufferPips + c.minProfitMarginPips;
    var l, b, a := if c.roundFourDecimals then Round4(lead) else lead,
                   if c.roundFourDecimals then Round4(q.bid) else q.bid,
                   if c.roundFourDecimals then Round4(q.ask) else q.ask;
    && s.lead == lead && s.bid == q.bid && s.ask == q.ask && s.ts == now
    && s.threshold == (if cost >= c.thresholdPips then cost else c.thresholdPips)
    && if d == Long then s.side == Buy && s.reason == "lead_gt_ask" && s.edge == l - a - s.threshold
       else s.side == Sell && s.reason == "bid_gt_lead" && s.edge == b - l - s.threshold
  }

  lemma SignalDescribes(c: Config, d: Decision, lead: real, q: Quote, now: int)
    requires d != Hold
    ensures Describes(c, SignalOf(c, d, lead, q, now), d, lead, q, now)
  {
  }

  class Strategy {
    const cfg: Config
    var openLots: int
    var dayPnl: real
    var ordersThisInterval: int
    var intervalStart: int
    var lastSignal: int

    ghost function View(): Risk
      reads this
    {
      Risk(openLots, dayPnl, ordersThisInterval, intervalStart, lastSignal)
    }

    constructor (cfg: Config)
      ensures this.cfg == cfg && View() == NO_RISK
    {
      this.cfg := cfg;
      openLots, dayPnl, ordersThisInterval, intervalStart, lastSignal := 0, 0.0, 0, 0, 0;
    }

    method CanTradeNow(now: int) returns (ok: bool)
      ensures ok == CanTrade(cfg, View(), now) == GatesOpen(cfg, View(), now)
    {
      GatesAre(cfg, View(), now);
      if openLots >= cfg.maxOpenLots {
        return false;
      }
      if dayPnl <= -cfg.maxDailyLoss {
        return false;
      }
      if intervalStart != 0 && TruncDiv(now - intervalStart, 1000) >= cfg.intervalSeconds {
        return true;
      }
      return ordersThisInterval < cfg.maxOrdersPerInterval;
    }

    method OnOrderPlaced()
      modifies this
      ensures View() == Placed(old(View()))
    {
      openLots := openLots + 1;
      if intervalStart == 0 {
        intervalStart := 0;
      }
      ordersThisInterval := ordersThisInterval + 1;
    }

    method OnOrderClosed(pnl: real, commission: real)
      modifies this
      ensures View() == Closed(old(View()), pnl, commission)
    {
      dayPnl := dayPnl + (pnl - commission);
      if openLots > 0 {
        openLots := openLots - 1;
      }
    }

    method MaybeEmit(d: Decision, lead: real, q: Quote, now: int) returns (sig: Option<Signal>)
      modifies this
      ensures sig == if Emits(cfg, old(View()), d, now) then Some(SignalOf(cfg, d, lead, q, now)) else None
      ensures View() == if sig.Some? then old(View()).(lastSignal := now) else old(View())
      ensures sig.Some? <==>
                && d != Hold && GatesOpen(cfg, old(View()), now)
                && (old(lastSignal) == 0 || now - old(lastSignal) >= cfg.intervalSeconds * 1000)
      ensures sig.Some? ==> Describes(cfg, sig.value, d, lead, q, now)
    {
      if d == Hold {
        return None;
      }
      var ok := CanTradeNow(now);
      if !ok {
        return None;
      }
      if lastSignal != 0 && now - lastSignal < cfg.intervalSeconds * 1000 {
        return None;
      }
      lastSignal := now;
      SignalDescribes(cfg, d, lead, q, now);
      return Some(SignalOf(cfg, d, lead, q, now));
    }
  }
}
