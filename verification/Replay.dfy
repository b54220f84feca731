/** The backtest replay: merge of two tick streams through strategy, simulator and books. */
module Replay {
  import opened ExecutionSimulator
  import opened Rounding
  import opened Strategy
  import opened Wrappers

  datatype Tick = Tick(ts: int, bid: real, ask: real, valid: bool) {
    function Mid(): real {
      (bid + ask) * 0.5
    }
  }

  // ------------------------------------------------------------------
  // Merge
  // ------------------------------------------------------------------

  datatype Event = LeadTick(tick: Tick) | LagTick(tick: Tick)

  predicate LeadNext(lead: seq<Tick>, lag: seq<Tick>, i: nat, j: nat) {
    i < |lead| && (j >= |lag| || lead[i].ts <= lag[j].ts)
  }

  /** The order in which the loop visits the ticks from indices `i` and `j` on. */
  function MergeFrom(lead: seq<Tick>, lag: seq<Tick>, i: nat, j: nat): seq<Event>
    requires i <= |lead| && j <= |lag|
    decreases |lead| - i + |lag| - j
  {
    if LeadNext(lead, lag, i, j) then [LeadTick(lead[i])] + MergeFrom(lead, lag, i + 1, j)
    else if j < |lag| then [LagTick(lag[j])] + MergeFrom(lead, lag, i, j + 1)
    else []
  }

  function Merge(lead: seq<Tick>, lag: seq<Tick>): seq<Event> {
    MergeFrom(lead, lag, 0, 0)
  }

  // ------------------------------------------------------------------
  // Books
  // ------------------------------------------------------------------

  /** Why a position was closed. */
  datatype Exit = Converged | MaxHold | Forced | Immediate

  /** A recorded trade; the entry fill and the exit quote stay attached for attribution. */
  datatype Trade = Trade(fillTs: int, pnl: real, equityAfter: real, entry: Fill,
                         exit: Exit, exitLead: real, exitBid: real, exitAsk: real)

  datatype Account = Account(equity: real, peak: real, grossProfit: real, grossLoss: real,
                             maxDrawdown: real, maxDrawdownPct: real, trades: seq<Trade>)

  function OpenAccount(capital: real): Account {
    Account(capital, capital, 0.0, 0.0, 0.0, 0.0, [])
  }

  function Percent(dd: real, peak: real): real {
    if peak > 0.0 then dd / peak * 100.0 else 0.0
  }

  /** Realise a trade's pnl, then `record_trade`. */
  function Realise(a: Account, t: Trade): Account {
    var equity := a.equity + t.pnl;
    var peak := Max(a.peak, equity);
    var dd := peak - equity;
    Account(equity, peak,
            if t.pnl >= 0.0 then a.grossProfit + t.pnl else a.grossProfit,
            if t.pnl >= 0.0 then a.grossLoss else a.grossLoss - t.pnl,
            if dd > a.maxDrawdown then dd else a.maxDrawdown,
            if dd > a.maxDrawdown then Percent(dd, peak) else a.maxDrawdownPct,
            a.trades + [t.(equityAfter := equity)])
  }

  /** `overwritten` counts held positions that a second fill replaced. */
  datatype Counts = Counts(signals: nat, fills: nat, rejections: nat, overwritten: nat,
                           leadTicks: nat, lagTicks: nat)

  datatype Market = Market(lead: real, bid: real, ask: real, lastLead: real, lastBid: real, lastAsk: real)

  datatype State = State(risk: Risk, pending: Option<Order>, held: Option<Fill>, market: Market,
                         acct: Account, counts: Counts)

  /** Nominal capital per lot. */
  function Capital(p: Params): real {
    p.quantity * 1000.0
  }

  function Start(p: Params): State {
    State(NO_RISK, None, None, Market(0.0, 0.0, 0.0, 0.0, 0.0, 0.0),
          OpenAccount(Capital(p)), Counts(0, 0, 0, 0, 0, 0))
  }

  // ------------------------------------------------------------------
  // Steps
  // ------------------------------------------------------------------

  /** A trade is booked and its lot returned to the strategy. */
  function Book(s: State, t: Trade): State {
    s.(acct := Realise(s.acct, t), risk := Closed(s.risk, t.pnl, t.entry.commission),
       counts := s.counts.(fills := s.counts.fills + 1))
  }

  /** The instant round trip: out at the far side of the fill-time book. */
  function InstantTrade(f: Fill, lead: real): Trade {
    var raw := if f.order.side == Buy then f.execBid - f.price else f.price - f.execAsk;
    Trade(f.fillTs, raw - f.commission, 0.0, f, Immediate, lead, f.execBid, f.execAsk)
  }

  function ApplyFill(s: State, p: Params, f: Fill): State {
    if f.verdict != Filled then s.(counts := s.counts.(rejections := s.counts.rejections + 1))
    else if p.pnlModel == HoldConvergence then
      s.(held := Some(f),
         counts := s.counts.(overwritten := s.counts.overwritten + (if s.held.Some? then 1 else 0)))
    else Book(s, InstantTrade(f, s.market.lead))
  }

  /** `handle_fill`. */
  function HandleFill(s: State, p: Params, now: int): State {
    if s.pending.None? || now < s.pending.value.target then s
    else ApplyFill(s.(pending := None), p, FillOf(p, s.pending.value, now, s.market.bid, s.market.ask))
  }

  /** Whether and why `close_open` closes position `f`. */
  function ExitReason(p: Params, f: Fill, now: int, lead: real, bid: real, ask: real, force: bool): Option<Exit> {
    if force then Some(Forced)
    else if p.holdMaxMs > 0 && now - f.fillTs >= p.holdMaxMs then Some(MaxHold)
    else if Abs(lead - 0.5 * (bid + ask)) <= p.holdTolPts then Some(Converged)
    else None
  }

  function HoldTrade(p: Params, f: Fill, now: int, exit: Exit, lead: real, bid: real, ask: real): Trade {
    var price := if f.order.side == Buy then bid - p.holdExitSlipPts - p.holdExitMarkupPts
                 else ask + p.holdExitSlipPts + p.holdExitMarkupPts;
    var raw := if f.order.side == Buy then price - f.price else f.price - price;
    Trade(now, raw - f.commission, 0.0, f, exit, lead, bid, ask)
  }

  /** `close_open`. */
  function CloseOpen(s: State, p: Params, now: int, lead: real, bid: real, ask: real, force: bool): State {
    if s.held.None? then s
    else
      var f := s.held.value;
      match ExitReason(p, f, now, lead, bid, ask, force)
      case None => s
      case Some(exit) => Book(s.(held := None), HoldTrade(p, f, now, exit, lead, bid, ask))
  }

  function QuoteOf(m: Market): Quote {
    Quote(m.bid, m.ask, m.ask - m.bid)
  }

  /** Strategy evaluation, emission and submission on a fresh lag quote. */
  function Emit(s: State, c: Config, p: Params, now: int): State {
    var m := s.market;
    if !(m.lead > 0.0 && m.bid > 0.0 && m.ask > 0.0) then s
    else
      var d := Evaluate(c, m.lead, QuoteOf(m));
      if !Emits(c, s.risk, d, now) then s
      else
        var t := s.(risk := s.risk.(lastSignal := now));
        var side := SignalOf(c, d, m.lead, QuoteOf(m), now).side;
        if !Submittable(s.pending, side, m.bid, m.ask) then t
        else t.(pending := Some(OrderOf(p, side, now, m.lead, m.bid, m.ask)), risk := Placed(t.risk),
                counts := t.counts.(signals := t.counts.signals + 1))
  }

  function OnLead(s: State, t: Tick): State {
    if !t.valid then s
    else s.(market := s.market.(lead := t.Mid()), counts := s.counts.(leadTicks := s.counts.leadTicks + 1))
  }

  function TakeQuote(s: State, t: Tick): State {
    s.(market := s.market.(bid := t.bid, ask := t.ask), counts := s.counts.(lagTicks := s.counts.lagTicks + 1))
  }

  function Remember(s: State): State {
    var m := s.market;
    s.(market := m.(lastLead := m.lead, lastBid := m.bid, lastAsk := m.ask))
  }

  /** The fill, then the held position, both at the new quote. */
  function Settle(s: State, p: Params, now: int): State {
    var t := HandleFill(s, p, now);
    CloseOpen(t, p, now, t.market.lead, t.market.bid, t.market.ask, false)
  }

  function OnLag(s: State, c: Config, p: Params, t: Tick): State {
    if !t.valid then s
    else Remember(Emit(Settle(TakeQuote(s, t), p, t.ts), c, p, t.ts))
  }

  function On(s: State, c: Config, p: Params, e: Event): State {
    match e
    case LeadTick(t) => OnLead(s, t)
    case LagTick(t) => OnLag(s, c, p, t)
  }

  function Through(s: State, c: Config, p: Params, es: seq<Event>): State
    decreases |es|
  {
    if es == [] then s else Through(On(s, c, p, es[0]), c, p, es[1..])
  }

  /** Force-close the held position at the last quote, or at its own price when no lag tick was seen. */
  function ForceClose(s: State, p: Params, now: int): State {
    if s.held.None? then s
    else
      var m := s.market;
      var t := if m.lastBid <= 0.0 || m.lastAsk <= 0.0
               then s.(market := m.(lastBid := s.held.value.price, lastAsk := s.held.value.price)) else s;
      CloseOpen(t, p, now, t.market.lastLead, t.market.lastBid, t.market.lastAsk, true)
  }

  /** End of stream: drain the pending order, then force-close. */
  function Finish(s: State, p: Params, end: int): State {
    ForceClose(HandleFill(s, p, end + p.delayMs + 1), p, end + p.delayMs + 2)
  }

  function EndTs(lead: seq<Tick>, lag: seq<Tick>): int
    requires lead != [] && lag != []
  {
    var a, b := lead[|lead| - 1].ts, lag[|lag| - 1].ts;
    if a < b then b else a
  }

  /** The final state of a replay over two non-empty streams. */
  function Replayed(c: Config, p: Params, lead: seq<Tick>, lag: seq<Tick>): State
    requires lead != [] && lag != []
  {
    Finish(Through(Start(p), c, p, Merge(lead, lag)), p, EndTs(lead, lag))
  }

  /** One turn of the merge consumes the event it chose. */
  lemma MergeStep(s: State, c: Config, p: Params, lead: seq<Tick>, lag: seq<Tick>, i: nat, j: nat)
    requires i <= |lead| && j <= |lag| && (i < |lead| || j < |lag|)
    ensures Through(s, c, p, MergeFrom(lead, lag, i, j))
            == if LeadNext(lead, lag, i, j) then Through(OnLead(s, lead[i]), c, p, MergeFrom(lead, lag, i + 1, j))
               else Through(OnLag(s, c, p, lag[j]), c, p, MergeFrom(lead, lag, i, j + 1))
  {
    var es := MergeFrom(lead, lag, i, j);
    if LeadNext(lead, lag, i, j) {
      assert es[1..] == MergeFrom(lead, lag, i + 1, j);
    } else {
      assert es[1..] == MergeFrom(lead, lag, i, j + 1);
    }
  }

  // ------------------------------------------------------------------
  // Merge results
  // ------------------------------------------------------------------

  predicate Sorted(ts: seq<Tick>) {
    forall i, j :: 0 <= i < j < |ts| ==> ts[i].ts <= ts[j].ts
  }

  function LeadsOf(es: seq<Event>): seq<Tick> {
    if es == [] then [] else (if es[0].LeadTick? then [es[0].tick] else []) + LeadsOf(es[1..])
  }

  function LagsOf(es: seq<Event>): seq<Tick> {
    if es == [] then [] else (if es[0].LagTick? then [es[0].tick] else []) + LagsOf(es[1..])
  }

  lemma VisitedFirst(e: Event, es: seq<Event>)
    ensures LeadsOf([e] + es) == (if e.LeadTick? then [e.tick] else []) + LeadsOf(es)
    ensures LagsOf([e] + es) == (if e.LagTick? then [e.tick] else []) + LagsOf(es)
  {
    assert ([e] + es)[1..] == es;
  }

  /** Every tick of both streams is visited once, each stream in its own order. */
  lemma {:induction false} MergeVisitsAll(lead: seq<Tick>, lag: seq<Tick>, i: nat, j: nat)
    requires i <= |lead| && j <= |lag|
    ensures LeadsOf(MergeFrom(lead, lag, i, j)) == lead[i..] && LagsOf(MergeFrom(lead, lag, i, j)) == lag[j..]
    decreases |lead| - i + |lag| - j
  {
    if LeadNext(lead, lag, i, j) {
      MergeVisitsAll(lead, lag, i + 1, j);
      VisitedFirst(Event.LeadTick(lead[i]), MergeFrom(lead, lag, i + 1, j));
      assert lead[i..] == [lead[i]] + lead[i + 1..];
    } else if j < |lag| {
      MergeVisitsAll(lead, lag, i, j + 1);
      VisitedFirst(Event.LagTick(lag[j]), MergeFrom(lead, lag, i, j + 1));
      assert lag[j..] == [lag[j]] + lag[j + 1..];
    }
  }

  /** Time first, lead before lag on ties. */
  predicate InOrder(a: Event, b: Event) {
    a.tick.ts < b.tick.ts || (a.tick.ts == b.tick.ts && (a.LagTick? ==> b.LagTick?))
  }

  ghost predicate Ordered(es: seq<Event>) {
    forall i, j :: 0 <= i < j < |es| ==> InOrder(es[i], es[j])
  }

  /** What a merge still has to come. */
  predicate Ahead(e: Event, lead: seq<Tick>, lag: seq<Tick>, i: nat, j: nat) {
    && (forall k :: i <= k < |lead| ==> InOrder(e, LeadTick(lead[k])))
    && (forall k :: j <= k < |lag| ==> InOrder(e, LagTick(lag[k])))
  }

  lemma {:induction false} MergeAhead(e: Event, lead: seq<Tick>, lag: seq<Tick>, i: nat, j: nat)
    requires i <= |lead| && j <= |lag| && Ahead(e, lead, lag, i, j)
    ensures forall k :: 0 <= k < |MergeFrom(lead, lag, i, j)| ==> InOrder(e, MergeFrom(lead, lag, i, j)[k])
    decreases |lead| - i + |lag| - j
  {
    if LeadNext(lead, lag, i, j) {
      MergeAhead(e, lead, lag, i + 1, j);
    } else if j < |lag| {
      MergeAhead(e, lead, lag, i, j + 1);
    }
  }

  /** On sorted streams the replay visits the ticks in nondecreasing time, lead before lag on ties. */
  lemma {:induction false} MergeOrdered(lead: seq<Tick>, lag: seq<Tick>, i: nat, j: nat)
    requires i <= |lead| && j <= |lag| && Sorted(lead) && Sorted(lag)
    ensures Ordered(MergeFrom(lead, lag, i, j))
    decreases |lead| - i + |lag| - j
  {
    if LeadNext(lead, lag, i, j) {
      var rest := MergeFrom(lead, lag, i + 1, j);
      MergeOrdered(lead, lag, i + 1, j);
      MergeAhead(LeadTick(lead[i]), lead, lag, i + 1, j);
    } else if j < |lag| {
      var rest := MergeFrom(lead, lag, i, j + 1);
      MergeOrdered(lead, lag, i, j + 1);
      MergeAhead(LagTick(lag[j]), lead, lag, i, j + 1);
    }
  }

  // ------------------------------------------------------------------
  // No look-ahead
  // ------------------------------------------------------------------

  /** The ticks up to time `t`. */
  function Upto(ts: seq<Tick>, t: int): seq<Tick> {
    if ts == [] || ts[0].ts > t then [] else [ts[0]] + Upto(ts[1..], t)
  }

  lemma {:induction false} UptoIs(ts: seq<Tick>, t: int)
    requires Sorted(ts)
    ensures && Upto(ts, t) <= ts
            && (forall k :: 0 <= k < |Upto(ts, t)| ==> ts[k].ts <= t)
            && (forall k :: |Upto(ts, t)| <= k < |ts| ==> ts[k].ts > t)
  {
    if ts != [] && ts[0].ts <= t {
      UptoIs(ts[1..], t);
      var n := |Upto(ts, t)|;
      assert forall k :: n <= k < |ts| ==> ts[k] == ts[1..][k - 1];
      assert forall k :: 1 <= k < n ==> ts[k] == ts[1..][k - 1];
    }
  }

  /** `a` is the front of `ts` that holds its ticks up to `t`. */
  predicate FrontUpto(a: seq<Tick>, ts: seq<Tick>, t: int) {
    && a <= ts
    && (forall k :: 0 <= k < |a| ==> ts[k].ts <= t)
    && (forall k :: |a| <= k < |ts| ==> ts[k].ts > t)
  }

  /** While the fronts last, a merge takes the same turns on them as on the whole streams. */
  lemma SameTurn(lead: seq<Tick>, lag: seq<Tick>, a: seq<Tick>, b: seq<Tick>, t: int, i: nat, j: nat)
    requires FrontUpto(a, lead, t) && FrontUpto(b, lag, t) && i <= |a| && j <= |b| && (i < |a| || j < |b|)
    ensures LeadNext(lead, lag, i, j) <==> LeadNext(a, b, i, j)
    ensures (i < |a| ==> a[i] == lead[i]) && (j < |b| ==> b[j] == lag[j])
  {
  }

  lemma ConsConcat(e: Event, xs: seq<Event>, ys: seq<Event>)
    ensures [e] + (xs + ys) == ([e] + xs) + ys
  {
  }

  /** Merging the fronts of two streams up to `t` gives the front of the whole merge. */
  lemma {:induction false} MergePrefix(lead: seq<Tick>, lag: seq<Tick>, a: seq<Tick>, b: seq<Tick>, t: int,
                                       i: nat, j: nat)
    requires FrontUpto(a, lead, t) && FrontUpto(b, lag, t) && i <= |a| && j <= |b|
    ensures MergeFrom(lead, lag, i, j) == MergeFrom(a, b, i, j) + MergeFrom(lead, lag, |a|, |b|)
    decreases |a| - i + |b| - j
  {
    var rest := MergeFrom(lead, lag, |a|, |b|);
    if i == |a| && j == |b| {
      assert MergeFrom(a, b, i, j) == [];
    } else {
      SameTurn(lead, lag, a, b, t, i, j);
      if LeadNext(a, b, i, j) {
        MergePrefix(lead, lag, a, b, t, i + 1, j);
        ConsConcat(Event.LeadTick(a[i]), MergeFrom(a, b, i + 1, j), rest);
      } else {
        MergePrefix(lead, lag, a, b, t, i, j + 1);
        ConsConcat(Event.LagTick(b[j]), MergeFrom(a, b, i, j + 1), rest);
      }
    }
  }

  lemma {:induction false} MergeLength(lead: seq<Tick>, lag: seq<Tick>, i: nat, j: nat)
    requires i <= |lead| && j <= |lag|
    ensures |MergeFrom(lead, lag, i, j)| == |lead| - i + |lag| - j
    decreases |lead| - i + |lag| - j
  {
    if LeadNext(lead, lag, i, j) {
      MergeLength(lead, lag, i + 1, j);
    } else if j < |lag| {
      MergeLength(lead, lag, i, j + 1);
    }
  }

  /** The state once exactly the ticks up to time `t` have been consumed. */
  function StateAt(c: Config, p: Params, lead: seq<Tick>, lag: seq<Tick>, t: int): State
    requires Sorted(lead) && Sorted(lag)
  {
    UptoIs(lead, t);
    UptoIs(lag, t);
    MergeLength(lead, lag, 0, 0);
    Through(Start(p), c, p, Merge(lead, lag)[..|Upto(lead, t)| + |Upto(lag, t)|])
  }

  /** The ticks consumed first are those up to `t`, and nothing else about the streams matters. */
  lemma StateAtIs(c: Config, p: Params, lead: seq<Tick>, lag: seq<Tick>, t: int)
    requires Sorted(lead) && Sorted(lag)
    ensures StateAt(c, p, lead, lag, t) == Through(Start(p), c, p, Merge(Upto(lead, t), Upto(lag, t)))
  {
    var a, b := Upto(lead, t), Upto(lag, t);
    UptoIs(lead, t);
    UptoIs(lag, t);
    MergePrefix(lead, lag, a, b, t, 0, 0);
    MergeLength(a, b, 0, 0);
    MergeLength(lead, lag, 0, 0);
    assert Merge(lead, lag)[..|a| + |b|] == Merge(a, b);
  }

  /** Streams that agree on all ticks up to `t` lead to the same state once those are consumed. */
  lemma {:induction false} NoLookAhead(c: Config, p: Params, lead: seq<Tick>, lag: seq<Tick>,
                                       lead': seq<Tick>, lag': seq<Tick>, t: int)
    requires Sorted(lead) && Sorted(lag) && Sorted(lead') && Sorted(lag')
    requires Upto(lead, t) == Upto(lead', t) && Upto(lag, t) == Upto(lag', t)
    ensures StateAt(c, p, lead, lag, t) == StateAt(c, p, lead', lag', t)
  {
    StateAtIs(c, p, lead, lag, t);
    StateAtIs(c, p, lead', lag', t);
  }

  /** No valid lag tick among `es` has reached the due time. */
  ghost predicate NotDue(es: seq<Event>, due: int) {
    forall i :: 0 <= i < |es| && es[i].LagTick? && es[i].tick.valid ==> es[i].tick.ts < due
  }

  /** Until a valid lag tick reaches the due time the order stays in flight and no other is placed. */
  lemma {:induction false} WaitsUntilDue(s: State, c: Config, p: Params, es: seq<Event>)
    requires s.pending.Some? && NotDue(es, s.pending.value.target)
    ensures Through(s, c, p, es).pending == s.pending
    ensures Through(s, c, p, es).counts.signals == s.counts.signals
    ensures Through(s, c, p, es).counts.rejections == s.counts.rejections
    decreases |es|
  {
    if es != [] {
      assert On(s, c, p, es[0]).pending == s.pending;
      assert forall i :: 0 <= i < |es| - 1 ==> es[1..][i] == es[i + 1];
      WaitsUntilDue(On(s, c, p, es[0]), c, p, es[1..]);
    }
  }
}
