/** Which configurations can signal again too soon after time 0, exactly. */
module ReplaySpacing {
  import opened ExecutionSimulator
  import opened Replay
  import opened ReplayExact
  import opened ReplayLedger
  import opened ReplayRisk
  import opened Rounding
  import opened Strategy
  import opened Wrappers

  /** The strategy signalled on event `k`. */
  ghost predicate SignalAt(c: Config, p: Params, es: seq<Event>, k: nat)
    requires k < |es|
  {
    Signalled(c, p, Through(Start(p), c, p, es[..k]), es[k])
  }

  /** Any two signals are a whole interval apart. */
  ghost predicate Spaced(c: Config, p: Params, es: seq<Event>) {
    forall j, k :: 0 <= j < k < |es| && SignalAt(c, p, es, j) && SignalAt(c, p, es, k) ==>
      es[k].tick.ts - es[j].tick.ts >= c.intervalSeconds * 1000
  }

  /** The first fill is due, not before time 0. */
  function DueTs(p: Params): int {
    if p.delayMs < 0 then 0 else p.delayMs
  }

  /** The lot of an order signalled at time 0 can be back before the interval is over. */
  predicate LotReturns(c: Config, p: Params) {
    && p.slippagePts <= p.slippageCapPts
    && (|| p.pnlModel == Instant || p.holdTolPts >= 0.0
        || (p.holdMaxMs > 0 && DueTs(p) + p.holdMaxMs < c.intervalSeconds * 1000))
  }

  /** The configurations under which some streams make two signals within the interval. */
  predicate CanRush(c: Config, p: Params) {
    && CanSignal(c) && c.maxOrdersPerInterval >= 2
    && c.intervalSeconds > 0 && p.delayMs < c.intervalSeconds * 1000
    && (c.maxOpenLots >= 2 || LotReturns(c, p))
  }

  // ------------------------------------------------------------------
  // The rushing streams
  // ------------------------------------------------------------------

  /** A lag quote whose bid stands `w` above the lead and whose ask stands `w` below it. */
  function RallyTick(x: Bait, w: real, ts: int): Tick {
    Tick(ts, x.Lead() + w, x.Lead() - w, true)
  }

  /** A buy can be filled there, any exit there is a gain, and the quote calls for nothing. */
  ghost predicate Rallies(c: Config, p: Params, x: Bait, w: real) {
    var costs := p.spreadMarkupPts + p.slippagePts + 2.0 * Commission(p);
    && x.Lead() - w > 0.0 && x.Lead() - w + p.spreadMarkupPts + p.slippagePts > 0.0 && -(w + w) <= p.spreadCapPts
    && w + w >= costs && w + w - p.holdExitSlipPts - p.holdExitMarkupPts >= costs
    && Evaluate(c, x.Lead(), Quote(x.Lead() + w, x.Lead() - w, -(w + w))) == Hold
  }

  lemma RallyIsHold(c: Config, lead: real, w: real, buffers: real)
    requires buffers == Buffers(c) && w >= buffers + 1.0
    ensures Evaluate(c, lead, Quote(lead + w, lead - w, -(w + w))) == Hold
  {
  }

  lemma RallyFor(c: Config, p: Params) returns (x: Bait, w: real)
    ensures Suits(c, p, x) && Rallies(c, p, x, w)
  {
    var m, l, f := Abs(p.spreadMarkupPts), Abs(p.slippagePts), Abs(Commission(p));
    var e, cap := Abs(p.holdExitSlipPts) + Abs(p.holdExitMarkupPts), Abs(p.spreadCapPts);
    x, w := RallyOf(c, p, m + l, f, e, cap, Buffers(c));
  }

  lemma RallyOf(c: Config, p: Params, entry: real, fee: real, exit: real, cap: real, buffers: real)
    returns (x: Bait, w: real)
    requires entry >= 0.0 && fee >= 0.0 && exit >= 0.0 && cap >= 0.0 && buffers >= 0.0 && buffers == Buffers(c)
    requires -entry <= p.spreadMarkupPts + p.slippagePts <= entry && Commission(p) <= fee
    requires p.holdExitSlipPts + p.holdExitMarkupPts <= exit && -cap <= p.spreadCapPts
    ensures Suits(c, p, x) && Rallies(c, p, x, w)
  {
    w := 1.0 + buffers + entry + fee + fee + exit + cap;
    x := BaitAbove(c, p, w + entry);
    RallyIsHold(c, x.Lead(), w, buffers);
  }

  /** The price of a buy filled on the rally tick. */
  function RallyPrice(p: Params, x: Bait, w: real): real {
    x.Lead() - w + p.spreadMarkupPts + p.slippagePts
  }

  /**
   * After the rally tick at `t`: the first order was rejected, or was a trade that gained, or is held where
   * positions do not converge.
   */
  ghost predicate Rallied(p: Params, x: Bait, w: real, s: State, t: int) {
    && s.pending == None && s.market.lead == x.Lead()
    && s.risk.dayPnl >= 0.0 && s.risk.orders == 1 && s.risk.intervalStart == 0 && s.risk.lastSignal == 0
    && if s.held.None? then s.risk.openLots == 0 || (s.risk.openLots == 1 && p.slippagePts > p.slippageCapPts)
       else
         && s.risk.openLots == 1 && p.pnlModel == HoldConvergence && p.holdTolPts < 0.0
         && s.held.value.fillTs == t && s.held.value.order.side == Buy
         && s.held.value.price == RallyPrice(p, x, w) && s.held.value.commission == Commission(p)
  }

  lemma RallyFill(c: Config, p: Params, x: Bait, w: real, s: State, t: int) returns (u: State)
    requires Hooked(p, x, s, 0) && Rallies(c, p, x, w) && t >= p.delayMs
    ensures u == HandleFill(TakeQuote(s, RallyTick(x, w, t)), p, t)
    ensures u.pending == None && u.market == TakeQuote(s, RallyTick(x, w, t)).market
    ensures u.risk.orders == 1 && u.risk.intervalStart == 0 && u.risk.lastSignal == 0 && u.risk.dayPnl >= 0.0
    ensures if p.slippagePts > p.slippageCapPts then u.held == None && u.risk.openLots == 1
            else if p.pnlModel == Instant then u.held == None && u.risk.openLots == 0
            else && u.risk.openLots == 1 && u.held.Some? && u.held.value.fillTs == t
                 && u.held.value.order.side == Buy && u.held.value.commission == Commission(p)
                 && u.held.value.price == RallyPrice(p, x, w)
  {
    u := HandleFill(TakeQuote(s, RallyTick(x, w, t)), p, t);
  }

  /** What a buy held at the rally price gains by an exit on a rally tick. */
  lemma RallyGain(c: Config, p: Params, x: Bait, w: real, f: Fill, now: int, exit: Exit)
    requires Rallies(c, p, x, w) && f.order.side == Buy && f.commission == Commission(p)
    requires f.price == RallyPrice(p, x, w)
    ensures var q := RallyTick(x, w, now);
            HoldTrade(p, f, now, exit, x.Lead(), q.bid, q.ask).pnl >= Commission(p)
  {
  }

  lemma RallyClose(c: Config, p: Params, x: Bait, w: real, s: State, now: int) returns (u: State)
    requires Rallies(c, p, x, w) && s.held.Some? && s.risk.openLots == 1 && s.risk.dayPnl >= 0.0
    requires s.held.value.order.side == Buy && s.held.value.commission == Commission(p)
    requires s.held.value.price == RallyPrice(p, x, w)
    requires (s.market.lead, s.market.bid, s.market.ask) == (x.Lead(), x.Lead() + w, x.Lead() - w)
    ensures u == CloseOpen(s, p, now, s.market.lead, s.market.bid, s.market.ask, false)
    ensures u.pending == s.pending && u.market == s.market
    ensures u.risk == s.risk.(dayPnl := u.risk.dayPnl, openLots := u.risk.openLots) && u.risk.dayPnl >= 0.0
    ensures if p.holdTolPts >= 0.0 || (p.holdMaxMs > 0 && now - s.held.value.fillTs >= p.holdMaxMs)
            then u.held == None && u.risk.openLots == 0 else u == s
  {
    u := CloseOpen(s, p, now, s.market.lead, s.market.bid, s.market.ask, false);
    assert 0.5 * (s.market.bid + s.market.ask) == s.market.lead;
    var exit := ExitReason(p, s.held.value, now, s.market.lead, s.market.bid, s.market.ask, false);
    if exit.Some? {
      RallyGain(c, p, x, w, s.held.value, now, exit.value);
    }
  }

  /** A rally tick calls for nothing. */
  lemma RallyQuiet(c: Config, p: Params, x: Bait, w: real, s: State, now: int)
    requires Rallies(c, p, x, w)
    requires (s.market.lead, s.market.bid, s.market.ask) == (x.Lead(), x.Lead() + w, x.Lead() - w)
    ensures Emit(s, c, p, now) == s
  {
    assert QuoteOf(s.market) == Quote(x.Lead() + w, x.Lead() - w, -(w + w));
  }

  lemma RallyOnce(c: Config, p: Params, x: Bait, w: real, s: State, t: int) returns (u: State)
    requires Hooked(p, x, s, 0) && Rallies(c, p, x, w) && t >= p.delayMs
    ensures u == OnLag(s, c, p, RallyTick(x, w, t)) && Rallied(p, x, w, u, t)
  {
    var a := RallyFill(c, p, x, w, s, t);
    if a.held.Some? {
      a := RallyClose(c, p, x, w, a, t);
    }
    RallyQuiet(c, p, x, w, a, t);
    u := Remember(a);
  }

  /** Nothing stands in the way of a second signal at `t`. */
  ghost predicate Free(c: Config, p: Params, x: Bait, s: State, t: int) {
    && s.pending == None && s.market.lead == x.Lead() && s.risk.openLots < c.maxOpenLots
    && s.risk.dayPnl >= 0.0 && s.risk.orders == 1 && s.risk.intervalStart == 0 && s.risk.lastSignal == 0
    && (s.held.Some? ==> p.holdTolPts < 0.0 && s.held.value.fillTs == t)
  }

  /** When the lot is free again. */
  function FreeTs(c: Config, p: Params): int {
    if c.maxOpenLots >= 2 || p.pnlModel == Instant || p.holdTolPts >= 0.0 then DueTs(p) else DueTs(p) + p.holdMaxMs
  }

  lemma RallyTwice(c: Config, p: Params, x: Bait, w: real, s: State) returns (u: State)
    requires CanRush(c, p) && Rallies(c, p, x, w) && Rallied(p, x, w, s, DueTs(p))
    ensures u == OnLag(s, c, p, RallyTick(x, w, FreeTs(c, p))) && Free(c, p, x, u, FreeTs(c, p))
  {
    var now := FreeTs(c, p);
    var a := TakeQuote(s, RallyTick(x, w, now));
    assert HandleFill(a, p, now) == a;
    if a.held.Some? {
      a := RallyClose(c, p, x, w, a, now);
    }
    RallyQuiet(c, p, x, w, a, now);
    u := Remember(a);
  }

  lemma SecondSignal(c: Config, p: Params, x: Bait, s: State, now: int)
    requires CanRush(c, p) && Suits(c, p, x) && Free(c, p, x, s, now)
    ensures Signalled(c, p, s, Event.LagTick(x.LagTick(now, 0.0)))
  {
    var a := TakeQuote(s, x.LagTick(now, 0.0));
    assert Settle(a, p, now) == a;
    assert Emit(a, c, p, now).counts.signals == a.counts.signals + 1;
  }

  function RushingLead(x: Bait): seq<Tick> {
    [x.LeadTick(0)]
  }

  function RushingLag(c: Config, p: Params, x: Bait, w: real): seq<Tick> {
    [x.LagTick(0, 0.0), RallyTick(x, w, DueTs(p)), RallyTick(x, w, FreeTs(c, p)), x.LagTick(FreeTs(c, p), 0.0)]
  }

  lemma MergeFive(lead: seq<Tick>, lag: seq<Tick>)
    requires |lead| == 1 && |lag| == 4 && lead[0].ts <= lag[0].ts
    ensures Merge(lead, lag) == [Event.LeadTick(lead[0]), Event.LagTick(lag[0]), Event.LagTick(lag[1]),
                                 Event.LagTick(lag[2]), Event.LagTick(lag[3])]
  {
    assert MergeFrom(lead, lag, 1, 3) == [Event.LagTick(lag[3])] + MergeFrom(lead, lag, 1, 4);
    assert MergeFrom(lead, lag, 1, 2) == [Event.LagTick(lag[2]), Event.LagTick(lag[3])];
    assert MergeFrom(lead, lag, 1, 1) == [Event.LagTick(lag[1])] + MergeFrom(lead, lag, 1, 2);
    assert MergeFrom(lead, lag, 1, 0) == [Event.LagTick(lag[0])] + MergeFrom(lead, lag, 1, 1);
  }

  lemma ThroughSnoc(s: State, c: Config, p: Params, es: seq<Event>, k: nat)
    requires k < |es|
    ensures Through(s, c, p, es[..k + 1]) == On(Through(s, c, p, es[..k]), c, p, es[k])
  {
    ThroughConcat(s, c, p, es[..k], [es[k]]);
    assert es[..k + 1] == es[..k] + [es[k]];
    assert [es[k]][1..] == [];
  }

  lemma {:induction false} ThroughConcat(s: State, c: Config, p: Params, es: seq<Event>, fs: seq<Event>)
    ensures Through(s, c, p, es + fs) == Through(Through(s, c, p, es), c, p, fs)
    decreases |es|
  {
    if es == [] {
      assert es + fs == fs;
    } else {
      assert (es + fs)[1..] == es[1..] + fs;
      ThroughConcat(On(s, c, p, es[0]), c, p, es[1..], fs);
    }
  }

  lemma RushStarts(c: Config, p: Params, x: Bait, es: seq<Event>) returns (s: State)
    requires CanSignal(c) && Suits(c, p, x) && |es| > 1
    requires es[0] == Event.LeadTick(x.LeadTick(0)) && es[1] == Event.LagTick(x.LagTick(0, 0.0))
    ensures SignalAt(c, p, es, 1) && s == Through(Start(p), c, p, es[..2]) && Hooked(p, x, s, 0)
  {
    assert es[..0] == [];
    ThroughSnoc(Start(p), c, p, es, 0);
    s := FirstSignal(c, p, x, 0);
    ThroughSnoc(Start(p), c, p, es, 1);
  }

  lemma {:induction false} RushRallies(c: Config, p: Params, x: Bait, w: real, es: seq<Event>, s: State)
    returns (u: State)
    requires CanRush(c, p) && Rallies(c, p, x, w) && |es| > 3
    requires s == Through(Start(p), c, p, es[..2]) && Hooked(p, x, s, 0)
    requires es[2] == Event.LagTick(RallyTick(x, w, DueTs(p)))
    requires es[3] == Event.LagTick(RallyTick(x, w, FreeTs(c, p)))
    ensures u == Through(Start(p), c, p, es[..4]) && Free(c, p, x, u, FreeTs(c, p))
  {
    ThroughSnoc(Start(p), c, p, es, 2);
    u := RallyOnce(c, p, x, w, s, DueTs(p));
    ThroughSnoc(Start(p), c, p, es, 3);
    u := RallyTwice(c, p, x, w, u);
  }

  /** The run over the rushing streams signals on its first and on its last lag tick. */
  lemma RushingRun(c: Config, p: Params, x: Bait, w: real, es: seq<Event>)
    requires CanRush(c, p) && Suits(c, p, x) && Rallies(c, p, x, w) && |es| == 5
    requires es[0] == Event.LeadTick(x.LeadTick(0)) && es[1] == Event.LagTick(x.LagTick(0, 0.0))
    requires es[2] == Event.LagTick(RallyTick(x, w, DueTs(p)))
    requires es[3] == Event.LagTick(RallyTick(x, w, FreeTs(c, p)))
    requires es[4] == Event.LagTick(x.LagTick(FreeTs(c, p), 0.0))
    ensures SignalAt(c, p, es, 1) && SignalAt(c, p, es, 4)
  {
    var s := RushStarts(c, p, x, es);
    s := RushRallies(c, p, x, w, es, s);
    SecondSignal(c, p, x, s, FreeTs(c, p));
  }

  /** Two signals, at time 0 and before the interval is over. */
  lemma Rushes(c: Config, p: Params) returns (lead: seq<Tick>, lag: seq<Tick>)
    requires CanRush(c, p)
    ensures Streams(lead, lag) && !Spaced(c, p, Merge(lead, lag))
  {
    var x, w := RallyFor(c, p);
    lead, lag := RushingLead(x), RushingLag(c, p, x, w);
    MergeFive(lead, lag);
    RushingRun(c, p, x, w, Merge(lead, lag));
  }

  // ------------------------------------------------------------------
  // The other configurations
  // ------------------------------------------------------------------

  /** The lot of the order signalled at time 0 is still taken. */
  ghost predicate Locked(p: Params, s: State) {
    && s.risk.openLots >= 1
    && (s.pending.Some? ==> s.pending.value.target == p.delayMs)
    && (s.held.Some? ==> p.pnlModel == HoldConvergence && p.slippagePts <= p.slippageCapPts
                         && s.held.value.fillTs >= DueTs(p))
  }

  lemma LockedFill(p: Params, s: State, now: int)
    requires Locked(p, s) && now >= 0 && (p.slippagePts > p.slippageCapPts || p.pnlModel == HoldConvergence)
    ensures Locked(p, HandleFill(s, p, now))
  {
  }

  lemma LockedClose(c: Config, p: Params, s: State, now: int, lead: real, bid: real, ask: real)
    requires Locked(p, s) && !LotReturns(c, p) && now < c.intervalSeconds * 1000
    ensures CloseOpen(s, p, now, lead, bid, ask, false) == s
  {
  }

  lemma LockedOn(c: Config, p: Params, s: State, e: Event)
    requires Locked(p, s) && c.maxOpenLots <= 1 && !LotReturns(c, p) && 0 <= e.tick.ts < c.intervalSeconds * 1000
    ensures Locked(p, On(s, c, p, e)) && !Signalled(c, p, s, e)
  {
    if e.LagTick? && e.tick.valid {
      var now := e.tick.ts;
      LockedFill(p, TakeQuote(s, e.tick), now);
      var t := HandleFill(TakeQuote(s, e.tick), p, now);
      LockedClose(c, p, t, now, t.market.lead, t.market.bid, t.market.ask);
      assert Emit(t, c, p, now) == t;
    }
  }

  lemma {:induction false} LockedThrough(c: Config, p: Params, s: State, es: seq<Event>)
    requires Locked(p, s) && c.maxOpenLots <= 1 && !LotReturns(c, p)
    requires forall i :: 0 <= i < |es| ==> 0 <= es[i].tick.ts < c.intervalSeconds * 1000
    ensures Locked(p, Through(s, c, p, es))
    decreases |es|
  {
    if es != [] {
      LockedOn(c, p, s, es[0]);
      assert forall i :: 0 <= i < |es| - 1 ==> es[1..][i] == es[i + 1];
      LockedThrough(c, p, On(s, c, p, es[0]), es[1..]);
    }
  }

  /** A signal at time 0 leaves its order in flight. */
  lemma AfterSignal(c: Config, p: Params, s: State, e: Event)
    requires Ledger(c, p, s) && Signalled(c, p, s, e) && e.tick.ts == 0
    ensures var u := On(s, c, p, e); u.pending.Some? && u.pending.value.target == p.delayMs && u.risk.openLots >= 1
  {
    OnLedger(c, p, s, e);
    assert On(s, c, p, e) == OnLag(s, c, p, e.tick);
  }

  lemma InFlightAlone(c: Config, p: Params, s: State)
    requires Ledger(c, p, s) && c.maxOpenLots <= 1 && s.pending.Some?
    ensures s.held == None
  {
  }

  /** Under the other configurations no second signal comes within the interval. */
  lemma NoRush(c: Config, p: Params, s: State, e: Event, es: seq<Event>, f: Event)
    requires !CanRush(c, p) && CanSignal(c) && c.maxOrdersPerInterval >= 2 && c.intervalSeconds > 0
    requires Ledger(c, p, s) && Signalled(c, p, s, e) && e.tick.ts == 0
    requires Timely(es, 0, f.tick.ts) && f.tick.ts < c.intervalSeconds * 1000
    ensures !Signalled(c, p, Through(On(s, c, p, e), c, p, es), f)
  {
    var u := On(s, c, p, e);
    AfterSignal(c, p, s, e);
    if p.delayMs >= c.intervalSeconds * 1000 {
      WaitsUntilDue(u, c, p, es);
      WaitsUntilDue(Through(u, c, p, es), c, p, [f]);
      assert [f][1..] == [];
    } else {
      OnLedger(c, p, s, e);
      InFlightAlone(c, p, u);
      LockedThrough(c, p, u, es);
      LockedOn(c, p, Through(u, c, p, es), f);
    }
  }

  /** Where no order or only one can go out, no two signals follow each other at all. */
  lemma OneSignal(c: Config, p: Params, es: seq<Event>, j: nat, k: nat)
    requires !CanSignal(c) || c.maxOrdersPerInterval < 2
    requires j < k < |es| && SignalAt(c, p, es, j)
    ensures !SignalAt(c, p, es, k)
  {
    var s, t := Through(Start(p), c, p, es[..j + 1]), Through(Start(p), c, p, es[..k]);
    ThroughSnoc(Start(p), c, p, es, j);
    ThroughSnoc(Start(p), c, p, es, k);
    SplitThrough(c, p, es, j, k);
    LedgerAlways(c, p, es[..j + 1]);
    LedgerAlways(c, p, es[..k + 1]);
    SignalsGrow(c, p, s, es[j + 1..k]);
    if c.maxOpenLots < 1 {
      NoSignalAfterLeaks(c, p, Start(p), es[..j + 1]);
    } else if c.maxDailyLoss <= 0.0 {
      ThroughNoneLost(c, p, Start(p), es[..j + 1]);
    }
  }

  lemma {:induction false} SignalsGrow(c: Config, p: Params, s: State, es: seq<Event>)
    ensures Through(s, c, p, es).counts.signals >= s.counts.signals
    decreases |es|
  {
    if es != [] {
      SignalsGrow(c, p, On(s, c, p, es[0]), es[1..]);
    }
  }

  lemma SplitThrough(c: Config, p: Params, es: seq<Event>, j: nat, k: nat)
    requires j < k <= |es|
    ensures Through(Start(p), c, p, es[..k])
            == Through(On(Through(Start(p), c, p, es[..j]), c, p, es[j]), c, p, es[j + 1..k])
  {
    ThroughSnoc(Start(p), c, p, es, j);
    ThroughConcat(Start(p), c, p, es[..j + 1], es[j + 1..k]);
    assert es[..k] == es[..j + 1] + es[j + 1..k];
  }

  lemma TimelyBetween(es: seq<Event>, j: nat, k: nat)
    requires Ordered(es) && j < k < |es|
    ensures Timely(es[j + 1..k], es[j].tick.ts, es[k].tick.ts)
  {
    var mid := es[j + 1..k];
    assert InOrder(es[j], es[k]);
    forall i | 0 <= i < |mid|
      ensures es[j].tick.ts <= mid[i].tick.ts <= es[k].tick.ts
    {
      assert InOrder(es[j], es[j + 1 + i]) && InOrder(es[j + 1 + i], es[k]);
    }
    forall h, i | 0 <= h < i < |mid|
      ensures mid[h].tick.ts <= mid[i].tick.ts
    {
      assert InOrder(es[j + 1 + h], es[j + 1 + i]);
    }
  }

  lemma FarApart(c: Config, p: Params, es: seq<Event>, j: nat, k: nat)
    requires !CanRush(c, p) && Ordered(es) && j < k < |es| && SignalAt(c, p, es, j) && SignalAt(c, p, es, k)
    ensures es[k].tick.ts - es[j].tick.ts >= c.intervalSeconds * 1000
  {
    var s := Through(Start(p), c, p, es[..j]);
    SplitThrough(c, p, es, j, k);
    TimelyBetween(es, j, k);
    if es[j].tick.ts != 0 {
      SignalsSpaced(c, p, s, es[j], es[j + 1..k], es[k]);
    } else if !CanSignal(c) || c.maxOrdersPerInterval < 2 {
      OneSignal(c, p, es, j, k);
    } else if c.intervalSeconds > 0 && es[k].tick.ts < c.intervalSeconds * 1000 {
      LedgerAlways(c, p, es[..j]);
      NoRush(c, p, s, es[j], es[j + 1..k], es[k]);
    }
  }

  // ------------------------------------------------------------------
  // Main result
  // ------------------------------------------------------------------

  /** Signals are a whole interval apart on every sorted pair of streams iff the configuration cannot rush. */
  lemma {:induction false} SpacingExact(c: Config, p: Params)
    ensures (forall lead, lag :: Streams(lead, lag) ==> Spaced(c, p, Merge(lead, lag))) <==> !CanRush(c, p)
  {
    if CanRush(c, p) {
      var lead, lag := Rushes(c, p);
    } else {
      forall lead, lag | Streams(lead, lag) ensures Spaced(c, p, Merge(lead, lag)) {
        var es := Merge(lead, lag);
        MergeOrdered(lead, lag, 0, 0);
        forall j, k | 0 <= j < k < |es| && SignalAt(c, p, es, j) && SignalAt(c, p, es, k)
          ensures es[k].tick.ts - es[j].tick.ts >= c.intervalSeconds * 1000
        {
          FarApart(c, p, es, j, k);
        }
      }
    }
  }
}
