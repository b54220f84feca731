/** Latent market orders: one in flight, filled or rejected at the post-delay quote. */
module ExecutionSimulator {
  import opened Strategy
  import opened Wrappers

  datatype PnlModel = Instant | HoldConvergence

  datatype Params = Params(delayMs: int, slippagePts: real, spreadMarkupPts: real, commissionPerLot: real,
                           spreadCapPts: real, slippageCapPts: real, quantity: real, pnlModel: PnlModel,
                           holdTolPts: real, holdMaxMs: int, holdExitMarkupPts: real, holdExitSlipPts: real)

  datatype Order = Order(side: Side, signalTs: int, target: int, mark: real, bid: real, ask: real)

  datatype Verdict = Filled | SpreadCap | SlippageCap | InvalidPrice

  datatype Fill = Fill(verdict: Verdict, order: Order, fillTs: int, execBid: real, execAsk: real,
                       price: real, commission: real)

  function Commission(p: Params): real {
    p.commissionPerLot * p.quantity
  }

  predicate Submittable(pending: Option<Order>, side: Side, bid: real, ask: real) {
    pending.None? && side != NoSide && bid > 0.0 && ask > 0.0 && ask >= bid
  }

  function OrderOf(p: Params, side: Side, ts: int, mid: real, bid: real, ask: real): Order {
    Order(side, ts, ts + p.delayMs, mid, bid, ask)
  }

  function FillPrice(p: Params, side: Side, bid: real, ask: real): real {
    if side == Buy then ask + p.spreadMarkupPts + p.slippagePts else bid - p.spreadMarkupPts - p.slippagePts
  }

  /** `at_fill` on a due order. */
  function FillOf(p: Params, o: Order, now: int, bid: real, ask: real): Fill {
    if ask - bid > p.spreadCapPts then Fill(SpreadCap, o, now, bid, ask, 0.0, 0.0)
    else
      var price := FillPrice(p, o.side, bid, ask);
      var verdict := if p.slippagePts > p.slippageCapPts then SlippageCap
                     else if price <= 0.0 then InvalidPrice else Filled;
      Fill(verdict, o, now, bid, ask, price, Commission(p))
  }

  /** A due order on a quote: spread first, then slippage, then the price of its side decide. */
  predicate Resolves(p: Params, f: Fill, o: Order, now: int, bid: real, ask: real) {
    var price := if o.side == Buy then ask + p.spreadMarkupPts + p.slippagePts
                 else bid - p.spreadMarkupPts - p.slippagePts;
    && f.order == o && f.fillTs == now && f.execBid == bid && f.execAsk == ask
    && (f.verdict == SpreadCap <==> ask - bid > p.spreadCapPts)
    && (f.verdict == SlippageCap <==> ask - bid <= p.spreadCapPts && p.slippagePts > p.slippageCapPts)
    && (f.verdict == InvalidPrice <==>
          ask - bid <= p.spreadCapPts && p.slippagePts <= p.slippageCapPts && price <= 0.0)
    && (f.verdict == Filled ==> f.price == price && f.commission == p.commissionPerLot * p.quantity)
  }

  lemma FillResolves(p: Params, o: Order, now: int, bid: real, ask: real)
    ensures Resolves(p, FillOf(p, o, now, bid, ask), o, now, bid, ask)
  {
  }

  class ExecutionSimulator {
    const params: Params
    var pending: bool
    var side: Side
    var signalTs: int
    var targetFillTs: int
    var signalMid: real
    var signalBid: real
    var signalAsk: real

    ghost function View(): Option<Order>
      reads this
    {
      if pending then Some(Order(side, signalTs, targetFillTs, signalMid, signalBid, signalAsk)) else None
    }

    constructor (params: Params)
      ensures this.params == params && View() == None
    {
      this.params := params;
      pending, side, signalTs, targetFillTs := false, NoSide, 0, 0;
      signalMid, signalBid, signalAsk := 0.0, 0.0, 0.0;
    }

    method Submit(s: Side, ts: int, mid: real, bid: real, ask: real) returns (ok: bool)
      modifies this
      ensures ok == Submittable(old(View()), s, bid, ask)
      ensures View() == if ok then Some(OrderOf(params, s, ts, mid, bid, ask)) else old(View())
    {
      if pending {
        return false;
      }
      if s != Buy && s != Sell {
        return false;
      }
      if bid <= 0.0 || ask <= 0.0 || ask < bid {
        return false;
      }
      pending, side, signalTs, targetFillTs := true, s, ts, ts + params.delayMs;
      signalMid, signalBid, signalAsk := mid, bid, ask;
      return true;
    }

    method AtFill(now: int, bid: real, ask: real) returns (fill: Option<Fill>)
      modifies this
      ensures fill == if old(View()).Some? && now >= old(View()).value.target
                      then Some(FillOf(params, old(View()).value, now, bid, ask)) else None
      ensures View() == if fill.Some? then None else old(View())
      ensures fill.Some? ==> Resolves(params, fill.value, old(View()).value, now, bid, ask)
    {
      if pending && now >= targetFillTs {
        FillResolves(params, Order(side, signalTs, targetFillTs, signalMid, signalBid, signalAsk), now, bid, ask);
      }
      if !pending {
        return None;
      }
      if now < targetFillTs {
        return None;
      }
      var o := Order(side, signalTs, targetFillTs, signalMid, signalBid, signalAsk);
      pending := false;
      var spread := ask - bid;
      if spread > params.spreadCapPts {
        return Some(Fill(SpreadCap, o, now, bid, ask, 0.0, 0.0));
      }
      var price;
      if side == Buy {
        price := ask + params.spreadMarkupPts + params.slippagePts;
      } else {
        price := bid - params.spreadMarkupPts - params.slippagePts;
      }
      var f := Fill(Filled, o, now, bid, ask, price, Commission(params));
      if params.slippagePts > params.slippageCapPts {
        return Some(f.(verdict := SlippageCap));
      }
      if !(price > 0.0) {
        return Some(f.(verdict := InvalidPrice));
      }
      return Some(f);
    }
  }
}
