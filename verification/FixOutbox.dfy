/** Outbound side of a session: message numbering and the one-write-at-a-time queue. */
module FixOutbox {
  import opened Decimal
  import opened FixMessage

  /**
   * `up` says that a stream exists. The history: every frame ever queued, every frame ever handed to a
   * write on any stream, every frame taken off the queue because its write ended, the index in `enqueued`
   * at which the session began, the frames an earlier session left unwritten at that moment, and the
   * frames whose write was started on this session's stream.
   */
  datatype Outbox = Outbox(up: bool, seqOut: nat, queue: seq<string>, writing: bool,
                           enqueued: seq<string>, started: seq<string>, completed: seq<string>,
                           since: nat, stale: seq<string>, wire: seq<string>)

  const EMPTY_OUTBOX := Outbox(false, 1, [], false, [], [], [], 0, [], [])

  /** `pump_write`. */
  function Pump(o: Outbox): Outbox {
    if o.writing || !o.up || o.queue == [] then o
    else o.(writing := true, started := o.started + [o.queue[0]], wire := o.wire + [o.queue[0]])
  }

  /** `io_write`. */
  function Enqueue(o: Outbox, frame: string): Outbox {
    Pump(o.(queue := o.queue + [frame], enqueued := o.enqueued + [frame]))
  }

  /** `build_msg` followed by `io_write`. */
  function Write(o: Outbox, who: Identity, kind: char, stamp: string, body: seq<Field>): Outbox {
    Enqueue(o.(seqOut := o.seqOut + 1), Message(who, kind, o.seqOut, stamp, body))
  }

  function Popped(o: Outbox): Outbox {
    if o.queue == [] then o.(writing := false)
    else o.(writing := false, completed := o.completed + [o.queue[0]], queue := o.queue[1..])
  }

  /** The completion handler of an asynchronous write. */
  function Complete(o: Outbox, failed: bool): Outbox {
    if failed then Popped(o) else Pump(Popped(o))
  }

  /** Queued frames whose write has not been started. */
  function Unwritten(o: Outbox): seq<string> {
    if o.writing && o.queue != [] then o.queue[1..] else o.queue
  }

  /** A new session has a fresh stream and fresh numbering; the queue is not cleared. */
  function Fresh(o: Outbox): Outbox {
    o.(up := true, seqOut := 1, since := |o.enqueued|, stale := Unwritten(o), wire := [])
  }

  /** Its first frame is the Logon. */
  function Open(o: Outbox, who: Identity, stamp: string): Outbox {
    Write(Fresh(o), who, 'A', stamp, LogonBody(who))
  }

  /** The stream is torn down. */
  function Close(o: Outbox): Outbox {
    o.(up := false)
  }

  // ------------------------------------------------------------------
  // Invariant
  // ------------------------------------------------------------------

  function Session(o: Outbox): seq<string>
    requires o.since <= |o.enqueued|
  {
    o.enqueued[o.since..]
  }

  /** The k-th frame carries MsgSeqNum k. */
  ghost predicate Numbered(frames: seq<string>) {
    forall k :: 0 <= k < |frames| ==> HasNumber(frames[k], k + 1)
  }

  predicate HasNumber(frame: string, n: nat) {
    Scan(frame, 34) == Dec(n)
  }

  /** One write at a time, and the queue loses nothing. */
  ghost predicate Flow(o: Outbox) {
    && (o.writing ==> o.queue != [])
    && o.enqueued == o.completed + o.queue
    && o.since <= |o.enqueued|
    && o.wire + Unwritten(o) == o.stale + Session(o)
  }

  /** The frame whose write has been started and has not ended. */
  function Outstanding(o: Outbox): seq<string> {
    if o.writing && o.queue != [] then [o.queue[0]] else []
  }

  /**
   * Writes end in the order they were started, at most one is outstanding, it is the queue front, and what
   * this session's stream was given are the writes started last.
   */
  ghost predicate SingleFlight(o: Outbox) {
    && (o.writing ==> o.queue != [])
    && o.started == o.completed + Outstanding(o)
    && |o.wire| <= |o.started| && o.wire == o.started[|o.started| - |o.wire|..]
  }

  /** FIX 4.4 Volume 2, "Sequence Numbers". */
  ghost predicate Numbering(o: Outbox) {
    && o.since <= |o.enqueued|
    && o.seqOut == |Session(o)| + 1
    && Numbered(Session(o))
    && (o.up ==> Session(o) != [])
    && (Session(o) != [] ==> IsLogon(Session(o)[0]))
  }

  predicate IsLogon(frame: string) {
    Scan(frame, 35) == "A"
  }

  /** The number of `g` is the one after the number of `f`. */
  ghost predicate Follows(f: string, g: string) {
    exists n: nat :: n > 0 && HasNumber(f, n) && HasNumber(g, n + 1)
  }

  ghost predicate Linked(frames: seq<string>, k: nat)
    requires k < |frames|
  {
    if IsLogon(frames[k]) then HasNumber(frames[k], 1) else k > 0 && Follows(frames[k - 1], frames[k])
  }

  /** Over all sessions: a Logon carries number 1, every other frame the number after that of the frame before it. */
  ghost predicate Chained(frames: seq<string>) {
    forall k :: 0 <= k < |frames| ==> Linked(frames, k)
  }

  ghost predicate Inv(o: Outbox) {
    Flow(o) && SingleFlight(o) && Numbering(o) && Chained(o.enqueued)
  }

  lemma EmptyInv()
    ensures Inv(EMPTY_OUTBOX)
  {
  }

  lemma WriteQueues(o: Outbox, who: Identity, kind: char, stamp: string, body: seq<Field>) returns (frame: string)
    ensures frame == Message(who, kind, o.seqOut, stamp, body)
    ensures Write(o, who, kind, stamp, body).enqueued == o.enqueued + [frame]
  {
    frame := Message(who, kind, o.seqOut, stamp, body);
  }

  lemma PumpFlow(o: Outbox)
    requires Flow(o)
    ensures Flow(Pump(o))
  {
    var e := Pump(o);
    if e != o {
      assert e.wire + Unwritten(e) == o.wire + o.queue;
    }
  }

  lemma PumpSingle(o: Outbox)
    requires SingleFlight(o)
    ensures SingleFlight(Pump(o))
  {
  }

  lemma EnqueueSingle(o: Outbox, frame: string)
    requires SingleFlight(o)
    ensures SingleFlight(Enqueue(o, frame))
  {
    PumpSingle(o.(queue := o.queue + [frame], enqueued := o.enqueued + [frame]));
  }

  lemma EnqueueFlow(o: Outbox, frame: string)
    requires Flow(o)
    ensures Flow(Enqueue(o, frame))
  {
    var e := o.(queue := o.queue + [frame], enqueued := o.enqueued + [frame]);
    assert e.enqueued == o.completed + o.queue + [frame];
    assert Session(e) == Session(o) + [frame];
    assert Unwritten(e) == Unwritten(o) + [frame];
    assert e.wire + Unwritten(e) == o.wire + Unwritten(o) + [frame];
    PumpFlow(e);
  }

  lemma WriteInv(o: Outbox, who: Identity, kind: char, stamp: string, body: seq<Field>)
    requires SOH !in who.sender && SOH !in who.target && kind != SOH
    requires Flow(o) && SingleFlight(o) && Chained(o.enqueued)
    requires o.since <= |o.enqueued| && o.seqOut == |Session(o)| + 1 && Numbered(Session(o))
    requires if Session(o) == [] then kind == 'A' else kind != 'A' && IsLogon(Session(o)[0])
    ensures Inv(Write(o, who, kind, stamp, body))
  {
    ScanHeader(who, kind, o.seqOut, stamp, body);
    EnqueueInv(o.(seqOut := o.seqOut + 1), Message(who, kind, o.seqOut, stamp, body));
  }

  /** A frame of a live session is never a Logon. */
  lemma SendInv(o: Outbox, who: Identity, kind: char, stamp: string, body: seq<Field>)
    requires SOH !in who.sender && SOH !in who.target && kind != SOH && kind != 'A'
    requires Inv(o) && o.up
    ensures Inv(Write(o, who, kind, stamp, body)) && Write(o, who, kind, stamp, body).up
  {
    WriteInv(o, who, kind, stamp, body);
  }

  lemma EnqueueInv(o: Outbox, frame: string)
    requires Flow(o) && SingleFlight(o) && Chained(o.enqueued)
    requires o.since <= |o.enqueued| && o.seqOut == |Session(o)| + 2 && Numbered(Session(o))
    requires HasNumber(frame, |Session(o)| + 1)
    requires if Session(o) == [] then IsLogon(frame) else !IsLogon(frame) && IsLogon(Session(o)[0])
    ensures Inv(Enqueue(o, frame))
  {
    EnqueueFlow(o, frame);
    EnqueueSingle(o, frame);
    EnqueueNumbering(o, frame);
    EnqueueChained(o, frame);
  }

  lemma LinkedKept(frames: seq<string>, frame: string, k: nat)
    requires k < |frames| && Linked(frames, k)
    ensures Linked(frames + [frame], k)
  {
  }

  lemma LinkedEnd(frames: seq<string>, last: string, frame: string, n: nat)
    requires if IsLogon(frame) then HasNumber(frame, 1)
             else frames != [] && last == frames[|frames| - 1] && n > 0 && HasNumber(last, n) && HasNumber(frame, n + 1)
    ensures Linked(frames + [frame], |frames|)
  {
    if !IsLogon(frame) {
      assert Follows(last, frame);
      assert (frames + [frame])[|frames| - 1] == last;
    }
  }

  lemma EnqueueChained(o: Outbox, frame: string)
    requires o.since <= |o.enqueued| && Numbered(Session(o)) && Chained(o.enqueued)
    requires HasNumber(frame, |Session(o)| + 1) && (Session(o) == [] <==> IsLogon(frame))
    ensures Chained(Enqueue(o, frame).enqueued)
  {
    var frames, n := o.enqueued, |Session(o)|;
    LinkedEnd(frames, if n > 0 then Session(o)[n - 1] else frame, frame, n);
    forall k | 0 <= k < |frames|
      ensures Linked(frames + [frame], k)
    {
      LinkedKept(frames, frame, k);
    }
  }

  lemma NumberedSnoc(frames: seq<string>, frame: string)
    requires Numbered(frames) && HasNumber(frame, |frames| + 1)
    ensures Numbered(frames + [frame])
  {
  }

  lemma EnqueueNumbering(o: Outbox, frame: string)
    requires o.since <= |o.enqueued| && o.seqOut == |Session(o)| + 2 && Numbered(Session(o))
    requires HasNumber(frame, |Session(o)| + 1)
    requires IsLogon(if Session(o) == [] then frame else Session(o)[0])
    ensures Numbering(Enqueue(o, frame))
  {
    NumberedSnoc(Session(o), frame);
    assert Session(Enqueue(o, frame)) == Session(o) + [frame];
  }

  lemma {:induction false} OpenInv(o: Outbox, who: Identity, stamp: string)
    requires SOH !in who.sender && SOH !in who.target
    requires Inv(o)
    ensures Inv(Open(o, who, stamp)) && Open(o, who, stamp).up
    ensures Open(o, who, stamp).stale == Unwritten(o)
  {
    var e := Fresh(o);
    assert Session(e) == [];
    WriteInv(e, who, 'A', stamp, LogonBody(who));
  }

  lemma {:induction false} PoppedInv(o: Outbox)
    requires Inv(o) && o.writing
    ensures Inv(Popped(o)) && Popped(o).completed == o.started == o.completed + [o.queue[0]]
  {
    var e := Popped(o);
    assert o.queue == [o.queue[0]] + o.queue[1..];
    assert e.enqueued == e.completed + e.queue;
  }

  lemma {:induction false} PumpInv(o: Outbox)
    requires Inv(o)
    ensures Inv(Pump(o)) && Pump(o).completed == o.completed
  {
    PumpFlow(o);
    PumpSingle(o);
  }

  /** The frame taken off is the one whose write ended, the last one started. */
  lemma {:induction false} CompleteInv(o: Outbox, failed: bool)
    requires Inv(o) && o.writing
    ensures Inv(Complete(o, failed))
    ensures Complete(o, failed).completed == o.started == o.completed + [o.queue[0]]
  {
    PoppedInv(o);
    if !failed {
      PumpInv(Popped(o));
    }
  }

  /** Every queued frame is handed to a write at most once, on whatever stream, and in queue order. */
  lemma StartedOnce(o: Outbox)
    requires Flow(o) && SingleFlight(o)
    ensures o.completed <= o.started <= o.enqueued && |o.started| <= |o.completed| + 1
  {
    if Outstanding(o) != [] {
      assert o.queue == [o.queue[0]] + o.queue[1..];
      assert o.enqueued == o.started + o.queue[1..];
    }
  }

  lemma CloseInv(o: Outbox)
    requires Inv(o)
    ensures Inv(Close(o))
  {
  }

  // ------------------------------------------------------------------
  // What the peer sees
  // ------------------------------------------------------------------

  /** The frames put on a session's stream are the stale ones followed by the session's own, in order. */
  lemma WireIsPrefix(o: Outbox)
    requires Flow(o)
    ensures o.wire <= o.stale + Session(o)
  {
    assert o.wire == (o.stale + Session(o))[..|o.wire|];
  }

  /** The first frame is a Logon and no later one is. */
  ghost predicate OneLogon(frames: seq<string>)
    requires frames != []
  {
    IsLogon(frames[0]) && forall k :: 0 < k < |frames| ==> !IsLogon(frames[k])
  }

  lemma NextNumber(f: string, g: string, n: nat)
    requires HasNumber(f, n) && Follows(f, g)
    ensures HasNumber(g, n + 1)
  {
    var m: nat :| m > 0 && HasNumber(f, m) && HasNumber(g, m + 1);
    DecInjective(m, n);
  }

  lemma LogonIsFirst(frames: seq<string>, k: nat, n: nat)
    requires k < |frames| && Linked(frames, k) && HasNumber(frames[k], n)
    ensures IsLogon(frames[k]) <==> n == 1
  {
    if IsLogon(frames[k]) {
      DecInjective(1, n);
    } else {
      var m: nat :| m > 0 && HasNumber(frames[k - 1], m) && HasNumber(frames[k], m + 1);
      DecInjective(m + 1, n);
    }
  }

  lemma {:induction false} CountsOn(frames: seq<string>, a: nat, b: nat, k: nat)
    requires a + k < b <= |frames| && Chained(frames)
    requires IsLogon(frames[a]) && forall i :: a < i < b ==> !IsLogon(frames[i])
    ensures HasNumber(frames[a + k], k + 1)
  {
    assert Linked(frames, a + k);
    if k > 0 {
      CountsOn(frames, a, b, k - 1);
      NextNumber(frames[a + k - 1], frames[a + k], k);
    }
  }

  lemma OpensAt(frames: seq<string>, w: seq<string>, a: nat, k: nat)
    requires a + |w| <= |frames| && w == frames[a..a + |w|] && k < |w| && Chained(frames) && Numbered(w)
    ensures IsLogon(w[k]) <==> k == 0
  {
    assert Linked(frames, a + k) && frames[a + k] == w[k];
    LogonIsFirst(frames, a + k, k + 1);
  }

  /** A stretch of the queue history is numbered 1, 2, 3, ... exactly when it opens with its only Logon. */
  lemma {:induction false} StretchNumbering(frames: seq<string>, a: nat, b: nat)
    requires a < b <= |frames| && Chained(frames)
    ensures Numbered(frames[a..b]) <==> OneLogon(frames[a..b])
  {
    var w := frames[a..b];
    if Numbered(w) {
      forall k | 0 <= k < |w|
        ensures IsLogon(w[k]) <==> k == 0
      {
        OpensAt(frames, w, a, k);
      }
    }
    if OneLogon(w) {
      assert forall i :: a < i < b ==> frames[i] == w[i - a];
      forall k | 0 <= k < |w|
        ensures HasNumber(w[k], k + 1)
      {
        CountsOn(frames, a, b, k);
      }
    }
  }

  /** A session's wire is a stretch of everything ever queued. */
  lemma WireIsStretch(o: Outbox) returns (a: nat, b: nat)
    requires Flow(o) && SingleFlight(o)
    ensures a <= b <= |o.enqueued| && o.wire == o.enqueued[a..b]
  {
    StartedOnce(o);
    a, b := |o.started| - |o.wire|, |o.started|;
    assert o.started == o.enqueued[..b];
  }

  /**
   * What the peer has been sent is numbered 1, 2, 3, ... in exactly these cases: the session's own Logon is on the
   * wire and nothing was left over; or it is not yet there, and the left-over frames sent so far are none or
   * open with a Logon and hold no other.
   */
  lemma WireNumbering(o: Outbox)
    requires Inv(o)
    ensures Numbered(o.wire) <==> if |o.wire| > |o.stale| then o.stale == []
                                  else o.wire == [] || OneLogon(o.stale[..|o.wire|])
  {
    WireIsPrefix(o);
    if o.wire != [] {
      var a, b := WireIsStretch(o);
      StretchNumbering(o.enqueued, a, b);
      if |o.wire| > |o.stale| {
        OwnLogon(o);
      } else {
        assert o.wire == (o.stale + Session(o))[..|o.wire|] == o.stale[..|o.wire|];
      }
    }
  }

  /** Behind left-over frames the own Logon is a later one; without them it is the first and only one. */
  lemma OwnLogon(o: Outbox)
    requires Inv(o) && |o.wire| > |o.stale|
    ensures OneLogon(o.wire) <==> o.stale == []
  {
    WireIsPrefix(o);
    var n := |o.stale|;
    assert o.wire[n] == (o.stale + Session(o))[n] == Session(o)[0];
    if o.stale == [] {
      assert o.stale + Session(o) == Session(o);
      assert forall k :: 0 <= k < |o.wire| ==> o.wire[k] == Session(o)[k];
      assert Numbered(o.wire);
      var a, b := WireIsStretch(o);
      StretchNumbering(o.enqueued, a, b);
    }
  }
}
