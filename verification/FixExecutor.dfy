/**
 * The session engine with its fields: buffers, queues, tables and counts updated in place, each method proved to do
 * what the state machine does.
 */
module FixExecutor {
  import opened Bytes
  import opened Decimal
  import opened FixMessage
  import opened FixSplitter
  import opened FixSession
  import opened Wrappers
  import FixOrders
  import FixOutbox

  /** Appending field after field, as the builders do. */
  method PrintAll(fs: seq<Field>) returns (b: string)
    ensures b == PrintFields(fs)
  {
    b := "";
    for i := 0 to |fs|
      invariant b + PrintFields(fs[i..]) == PrintFields(fs)
    {
      assert fs[i..][1..] == fs[i + 1..];
      b := b + PrintField(fs[i]);
    }
  }

  /** Appending the bytes read and handling what can be split off is the step that receives them. */
  lemma ReadIsStep(s: State, mid: State, after: State, c: Setup, chunk: string, stamp: string)
    requires !s.Busy() && s.out.up && mid == s.(inbound := s.inbound + chunk)
    requires after == HandleAll(mid.(inbound := Split(mid.inbound).rest), c.who, Split(mid.inbound).frames, stamp)
    ensures after == Step(s, c, Received(chunk, stamp))
  {
    assert mid.(inbound := Split(mid.inbound).rest) == s.(inbound := Split(mid.inbound).rest);
  }

  class FixExecutor {
    const who: Identity
    const limit: nat

    // mailbox and order table
    var orders: seq<OrderJob>
    var nextOrderId: nat
    var local: Option<seq<OrderJob>>
    var pendingOrders: map<string, OrderJob>
    var results: seq<FixOrders.Report>
    ghost var accepted: seq<OrderJob>
    ghost var drained: seq<OrderJob>

    // session
    var connected: bool
    var stream: bool
    var seqOut: nat
    var seqIn: nat
    var inbound: string

    // write queue
    var wqueue: seq<string>
    var writing: bool
    ghost var enqueued: seq<string>
    ghost var started: seq<string>
    ghost var completed: seq<string>
    ghost var since: nat
    ghost var stale: seq<string>
    ghost var wire: seq<string>

    ghost function Desk(): FixOrders.Desk
      reads this
    {
      FixOrders.Desk(nextOrderId, orders, local, pendingOrders, results, accepted, drained)
    }

    ghost function Out(): FixOutbox.Outbox
      reads this
    {
      FixOutbox.Outbox(stream, seqOut, wqueue, writing, enqueued, started, completed, since, stale, wire)
    }

    ghost function View(): State
      reads this
    {
      State(Desk(), Out(), connected, seqIn, inbound)
    }

    constructor (who: Identity, limit: nat)
      ensures this.who == who && this.limit == limit && View() == START
    {
      this.who, this.limit := who, limit;
      orders, nextOrderId, local, pendingOrders, results := [], 1, None, map[], [];
      accepted, drained := [], [];
      connected, stream, seqOut, seqIn, inbound := false, false, 1, 0, "";
      wqueue, writing := [], false;
      enqueued, started, completed, since, stale, wire := [], [], [], 0, [], [];
    }

    method Execute(q: FixOrders.Request)
      modifies this
      ensures View() == Step(old(View()), Setup(who, limit), FixSession.Execute(q))
    {
      if q.instrument == "" || (q.side != "buy" && q.side != "sell") || q.volume.value <= 0.0 {
        return;
      }
      var j := OrderJob(q.instrument, q.side, q.volume, q.stop, q.take, nextOrderId,
                        "LL" + Dec(nextOrderId), q.t0);
      nextOrderId := nextOrderId + 1;
      if |orders| >= limit {
        return;
      }
      orders := orders + [j];
      accepted := accepted + [j];
    }

    // ---- output ----------------------------------------------------- //

    method BuildMsg(kind: char, stamp: string, body: seq<Field>) returns (msg: string)
      modifies this
      ensures msg == Message(who, kind, old(seqOut), stamp, body)
      ensures View() == old(View()).(out := old(Out()).(seqOut := old(seqOut) + 1))
    {
      var header := PrintAll(HeaderFields(who, kind, seqOut, stamp));
      var b := PrintAll(body);
      seqOut := seqOut + 1;
      msg := Unsealed(header, b);
      var ck := CheckSum(msg);
      msg := msg + FieldText("10", ck);
    }

    method PumpWrite()
      modifies this
      ensures View() == old(View()).(out := FixOutbox.Pump(old(Out())))
    {
      if writing || !stream || wqueue == [] {
        return;
      }
      writing := true;
      started, wire := started + [wqueue[0]], wire + [wqueue[0]];
    }

    method IoWrite(frame: string)
      modifies this
      ensures View() == old(View()).(out := FixOutbox.Enqueue(old(Out()), frame))
    {
      wqueue := wqueue + [frame];
      enqueued := enqueued + [frame];
      PumpWrite();
    }

    method SendMsg(kind: char, stamp: string, body: seq<Field>)
      modifies this
      ensures View() == Send(old(View()), who, kind, stamp, body)
    {
      var msg := BuildMsg(kind, stamp, body);
      IoWrite(msg);
    }

    method OnWriteDone(failed: bool)
      requires local.None? && writing
      modifies this
      ensures View() == Step(old(View()), Setup(who, limit), WriteDone(failed))
    {
      PopWritten();
      if failed {
        connected := false;
        return;
      }
      PumpWrite();
    }

    method PopWritten()
      modifies this
      ensures View() == old(View()).(out := FixOutbox.Popped(old(Out())))
    {
      writing := false;
      if wqueue != [] {
        completed := completed + [wqueue[0]];
        wqueue := wqueue[1..];
      }
    }

    // ---- session ---------------------------------------------------- //

    method BeginSession(stamp: string)
      requires local.None? && !stream
      modifies this
      ensures View() == Step(old(View()), Setup(who, limit), Begin(stamp))
    {
      FreshSession();
      SendMsg('A', stamp, LogonBody(who));
    }

    method FreshSession()
      modifies this
      ensures View() == old(View()).(connected := true, out := FixOutbox.Fresh(old(Out())))
    {
      MarkSession();
      stream, connected, seqOut := true, true, 1;
    }

    /** The history starts a new session. */
    ghost method MarkSession()
      modifies this
      ensures View() == old(View()).(out := old(Out()).(since := |old(enqueued)|, wire := [],
                                                        stale := FixOutbox.Unwritten(old(Out()))))
    {
      stale := if writing && wqueue != [] then wqueue[1..] else wqueue;
      since, wire := |enqueued|, [];
    }

    method EndSession()
      requires local.None?
      modifies this
      ensures View() == Step(old(View()), Setup(who, limit), End)
    {
      connected := false;
      stream := false;
    }

    method OnHeartbeatTimer(stamp: string)
      requires local.None?
      modifies this
      ensures View() == Step(old(View()), Setup(who, limit), HeartbeatDue(stamp))
    {
      if !connected {
        return;
      }
      SendMsg('0', stamp, HeartbeatBody(""));
    }

    // ---- drain ------------------------------------------------------ //

    /** Offline: push the jobs back in front, last one first. */
    method ParkBack()
      requires local.Some? && !connected
      modifies this
      ensures View() == Drain(old(View()), who, "")
    {
      var jobs := local.value;
      while jobs != []
        invariant jobs + orders == old(local).value + old(orders)
        invariant View() == old(View()).(desk := old(Desk()).(mailbox := orders))
      {
        orders := [jobs[|jobs| - 1]] + orders;
        jobs := jobs[..|jobs| - 1];
      }
      local := None;
    }

    method SendFront(stamp: string)
      requires local.Some? && local.value != [] && connected
      modifies this
      ensures View() == Drain(old(View()), who, stamp)
    {
      var job := local.value[0];
      local := Some(local.value[1..]);
      pendingOrders := pendingOrders[job.clOrdId := job];
      drained := drained + [job];
      assert View() == old(View()).(desk := FixOrders.Register(old(Desk())));
      SendMsg('D', stamp, OrderBody(who, job, stamp));
    }

    method IoDrainOrders(stamp: string)
      requires local.None?
      modifies this
      ensures View() == DrainAll(Step(old(View()), Setup(who, limit), TakeMailbox), who, stamp)
    {
      local, orders := Some(orders), [];
      ghost var begun := View();
      if !connected {
        ParkBack();
        return;
      }
      while local.value != []
        invariant local.Some? && connected
        invariant DrainAll(View(), who, stamp) == DrainAll(begun, who, stamp)
        decreases |local.value|
      {
        ghost var before := View();
        SendFront(stamp);
        DrainAllTurn(before, who, stamp);
      }
      ghost var before := View();
      local := None;
      DrainAllTurn(before, who, stamp);
    }

    // ---- input ------------------------------------------------------ //

    /** One turn of the splitting loop on the buffer. */
    method SplitTurn() returns (t: Turn)
      modifies this
      ensures t == Next(old(inbound))
      ensures View() == old(View()).(inbound := t.rest)
    {
      var h := Find(inbound, HEADER, 0);
      if h < 0 {
        if |inbound| > KEEP {
          inbound := inbound[|inbound| - KEEP..];
        }
        return Await(inbound);
      }
      inbound := inbound[h..];
      t := FrameTurn();
    }

    /** The turn on a buffer that starts with a header. */
    method FrameTurn() returns (t: Turn)
      requires |inbound| > 0
      modifies this`inbound
      ensures t == Framed(old(inbound)) && inbound == t.rest
    {
      var p9 := Find(inbound, "9=", 0);
      if p9 < 0 {
        return Await(inbound);
      }
      var e := FindByte(inbound, SOH, p9 + 2);
      if e < 0 {
        return Await(inbound);
      }
      var digits := inbound[p9 + 2..e];
      if !IsDigits(digits) || Val(digits) > MAX_BODY {
        inbound := inbound[1..];
        return Resync(inbound);
      }
      var total := e + 1 + Val(digits) + TRAILER;
      if total > |inbound| {
        return Await(inbound);
      }
      var frame := inbound[..total];
      inbound := inbound[total..];
      return Deliver(frame, inbound);
    }

    method ProcessInbound(stamp: string)
      modifies this
      ensures View() == HandleAll(old(View()).(inbound := Split(old(inbound)).rest), who,
                                  Split(old(inbound)).frames, stamp)
    {
      ghost var goal := Outcome(View(), who, stamp);
      while true
        invariant Outcome(View(), who, stamp) == goal
        decreases |inbound|
      {
        ghost var before := View();
        var t := SplitTurn();
        match t
        case Await(_) =>
          return;
        case Resync(_) =>
        case Deliver(frame, _) =>
          HandleFrame(frame, stamp);
          OutcomeDeliver(before, who, stamp);
      }
    }

    method OnRead(chunk: string, stamp: string)
      requires local.None? && stream
      modifies this
      ensures View() == Step(old(View()), Setup(who, limit), Received(chunk, stamp))
    {
      ghost var before := View();
      inbound := inbound + chunk;
      ghost var mid := View();
      ProcessInbound(stamp);
      ReadIsStep(before, mid, View(), Setup(who, limit), chunk, stamp);
    }

    method HandleFrame(frame: string, stamp: string)
      modifies this
      ensures View() == Handle(old(View()), who, frame, stamp)
      ensures inbound == old(inbound)
    {
      ghost var before := View();
      TrackInbound(frame, stamp);
      ghost var mid := View();
      assert mid == TrackSeq(before, who, frame, stamp);
      var kind := ScanTag(frame, 35);
      if kind == "8" {
        OnExecutionReport(frame);
      } else if kind == "1" {
        var id := ScanTag(frame, 112);
        SendMsg('0', stamp, HeartbeatBody(id));
      } else if kind == "4" {
        seqIn := 0;
      }
      assert View() == React(mid, who, frame, stamp);
    }

    method TrackInbound(frame: string, stamp: string)
      modifies this
      ensures View() == TrackSeq(old(View()), who, frame, stamp)
      ensures inbound == old(inbound)
    {
      var text := ScanTag(frame, 34);
      if IsDigits(text) {
        var n := Val(text);
        if n > 0 {
          if seqIn == 0 {
            seqIn := n;
          } else if n > seqIn + 1 {
            seqIn := n;
            SendMsg('3', stamp, ResendBody(seqIn));
          } else {
            seqIn := if n > seqIn then n else seqIn;
          }
        }
      }
    }

    method OnExecutionReport(frame: string)
      modifies this
      ensures View() == old(View()).(desk := FixOrders.OnReport(old(Desk()), frame))
    {
      var cl := ScanTag(frame, 11);
      if cl == "" || cl !in pendingOrders {
        return;
      }
      var job := pendingOrders[cl];
      var execType := ScanTag(frame, 150);
      var ordStatus := ScanTag(frame, 39);
      var text := ScanTag(frame, 58);
      var brokerId := ScanTag(frame, 37);
      var o := FixOrders.Outcome(execType, ordStatus, text);
      if o.Some? {
        pendingOrders := pendingOrders - {cl};
        results := results + [FixOrders.Report(job.id, cl, brokerId, o.value.0, o.value.1, o.value.2)];
      }
    }
  }

  /** Where the splitting loop is heading from a given state. */
  ghost function Outcome(s: State, who: Identity, stamp: string): State {
    HandleAll(s.(inbound := Split(s.inbound).rest), who, Split(s.inbound).frames, stamp)
  }

  lemma OutcomeDeliver(s: State, who: Identity, stamp: string)
    requires Next(s.inbound).Deliver?
    ensures var t := Next(s.inbound);
            Outcome(s, who, stamp) == Outcome(Handle(s.(inbound := t.rest), who, t.frame, stamp), who, stamp)
  {
    var t := Next(s.inbound);
    SplitDeliver(s.inbound, t.frame, t.rest);
    var p := Split(t.rest);
    var u := Handle(s.(inbound := t.rest), who, t.frame, stamp);
    HandleInbound(s, who, t.frame, stamp, t.rest);
    HandleInbound(s, who, t.frame, stamp, p.rest);
    assert ([t.frame] + p.frames)[1..] == p.frames;
    assert u.(inbound := p.rest) == Handle(s.(inbound := p.rest), who, t.frame, stamp);
  }
}
