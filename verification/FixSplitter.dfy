/**
 * The inbound splitter: FIX 4.4 frames out of any bytes, however they are cut into reads, and the printer it
 * inverts.
 */
module FixSplitter {
  import opened Bytes
  import opened Decimal
  import opened FixMessage

  const HEADER: string := FieldText("8", FIX_VER)
  const MAX_BODY: nat := 0x10_0000
  const TRAILER: nat := 7
  const KEEP: nat := 16

  /** One turn of the splitting loop. */
  datatype Turn = Await(rest: string) | Resync(rest: string) | Deliver(frame: string, rest: string)

  function Tail(b: string): (t: string)
    ensures |t| <= |b|
  {
    if |b| > KEEP then b[|b| - KEEP..] else b
  }

  /** The turn once the BodyLength text is known to end right before byte `start - 1`. */
  function Measured(c: string, digits: string, start: nat): (r: Turn)
    requires |c| > 0
    ensures !r.Await? ==> |r.rest| < |c|
  {
    if !IsDigits(digits) then Resync(c[1..])
    else if Val(digits) > MAX_BODY then Resync(c[1..])
    else
      var total := start + Val(digits) + TRAILER;
      if total > |c| then Await(c) else Deliver(c[..total], c[total..])
  }

  /** The turn on a buffer that starts with a header and whose BodyLength field starts at `p9`. */
  function FramedFrom(c: string, p9: nat): (r: Turn)
    requires p9 + 2 <= |c|
    ensures !r.Await? ==> |r.rest| < |c|
  {
    var e := FindByte(c, SOH, p9 + 2);
    if e < 0 then Await(c) else Measured(c, c[p9 + 2..e], e + 1)
  }

  /** The turn on a buffer that starts with a header. */
  function Framed(c: string): (r: Turn)
    requires |c| > 0
    ensures !r.Await? ==> |r.rest| < |c|
  {
    var p9 := Find(c, "9=", 0);
    if p9 < 0 then Await(c) else FramedFrom(c, p9)
  }

  function Next(b: string): (r: Turn)
    ensures !r.Await? ==> |r.rest| < |b|
  {
    var h := Find(b, HEADER, 0);
    if h < 0 then Await(Tail(b)) else Framed(b[h..])
  }

  datatype Parsed = Parsed(frames: seq<string>, rest: string)

  /** What one run of the loop over buffer `b` delivers, and the bytes it leaves behind. */
  function Split(b: string): Parsed
    decreases |b|
  {
    match Next(b)
    case Await(rest) => Parsed([], rest)
    case Resync(rest) => Split(rest)
    case Deliver(frame, rest) =>
      var p := Split(rest);
      Parsed([frame] + p.frames, p.rest)
  }

  // ------------------------------------------------------------------
  // Chunk confluence
  // ------------------------------------------------------------------

  /** What a turn becomes when `y` arrives behind the buffer it was taken on. */
  function Later(t: Turn, y: string): Turn {
    match t
    case Await(r) => Await(r + y)
    case Resync(r) => Resync(r + y)
    case Deliver(f, r) => Deliver(f, r + y)
  }

  lemma MeasuredAppend(x: string, y: string, digits: string, start: nat)
    requires |x| > 0 && !Measured(x, digits, start).Await?
    ensures Measured(x + y, digits, start) == Later(Measured(x, digits, start), y)
  {
    if Measured(x, digits, start).Deliver? {
      var total := |Measured(x, digits, start).frame|;
      assert (x + y)[..total] == x[..total];
      assert (x + y)[total..] == x[total..] + y;
    } else {
      assert (x + y)[1..] == x[1..] + y;
    }
  }

  lemma FromAt(c: string, p9: nat, e: nat)
    requires p9 + 2 <= |c| && FindByte(c, SOH, p9 + 2) == e
    ensures FramedFrom(c, p9) == Measured(c, c[p9 + 2..e], e + 1)
  {
  }

  lemma FramedAt(c: string, p9: nat, e: nat)
    requires Find(c, "9=", 0) == p9 && FindByte(c, SOH, p9 + 2) == e
    ensures |c| > 0 && Framed(c) == Measured(c, c[p9 + 2..e], e + 1)
  {
    FromAt(c, p9, e);
  }

  /** A decision taken on `x` is not changed by bytes that arrive later. */
  lemma FramedAppend(x: string, y: string)
    requires |x| > 0 && !Framed(x).Await?
    ensures Framed(x + y) == Later(Framed(x), y)
  {
    var digits, start := SameLength(x, y);
    MeasuredAppend(x, y, digits, start);
  }

  /** Where the BodyLength is that a decision was taken on. */
  lemma LengthPlace(c: string) returns (p9: nat, e: nat)
    requires |c| > 0 && !Framed(c).Await?
    ensures Find(c, "9=", 0) == p9 && FindByte(c, SOH, p9 + 2) == e
    ensures Framed(c) == Measured(c, c[p9 + 2..e], e + 1)
  {
    p9 := Find(c, "9=", 0);
    e := FindByte(c, SOH, p9 + 2);
  }

  /** The BodyLength is read alike with and without the later bytes. */
  lemma SameLength(x: string, y: string) returns (digits: string, start: nat)
    requires |x| > 0 && !Framed(x).Await?
    ensures Framed(x) == Measured(x, digits, start) && Framed(x + y) == Measured(x + y, digits, start)
  {
    var p9, e := LengthPlace(x);
    FoundAppend(x, y, p9, e);
    digits, start := x[p9 + 2..e], e + 1;
    FramedAt(x + y, p9, e);
  }

  lemma FoundAppend(x: string, y: string, p9: nat, e: nat)
    requires Find(x, "9=", 0) == p9 && FindByte(x, SOH, p9 + 2) == e
    ensures Find(x + y, "9=", 0) == p9 && FindByte(x + y, SOH, p9 + 2) == e && (x + y)[p9 + 2..e] == x[p9 + 2..e]
  {
    FindAppend(x, y, "9=", 0);
    FindByteAppend(x, y, SOH, p9 + 2);
  }

  /** A header that is not in `x` but is in `x + y` starts in the bytes Tail keeps. */
  lemma HeaderAfterTail(x: string, y: string)
    requires Find(x, HEADER, 0) < 0
    ensures Next(x + y) == Next(Tail(x) + y)
  {
    if |x| > KEEP {
      var p, s := TailSplit(x, y);
      HeaderLate(x, y, p, s);
      DropPrefix(p, s);
    }
  }

  lemma TailSplit(x: string, y: string) returns (p: string, s: string)
    requires |x| > KEEP
    ensures x + y == p + s && s == Tail(x) + y && |p| + KEEP == |x| && |s| >= KEEP
  {
    p, s := x[..|x| - KEEP], Tail(x) + y;
    assert x == p + Tail(x);
  }

  lemma HeaderLate(x: string, y: string, p: string, s: string)
    requires Find(x, HEADER, 0) < 0 && x + y == p + s && |p| + KEEP == |x|
    ensures Find(p + s, HEADER, 0) == if Find(s, HEADER, 0) < 0 then -1 else |p| + Find(s, HEADER, 0)
  {
    FindLate(x, y, HEADER, |p|);
    FindShift(p, s, HEADER, 0);
  }

  lemma DropPrefix(p: string, s: string)
    requires |s| >= KEEP
    requires Find(p + s, HEADER, 0) == if Find(s, HEADER, 0) < 0 then -1 else |p| + Find(s, HEADER, 0)
    ensures Next(p + s) == Next(s)
  {
    var h := Find(s, HEADER, 0);
    if h >= 0 {
      DropFound(p, s, h);
    } else {
      NextNone(s);
      NextNone(p + s);
      TailBehind(p, s);
    }
  }

  lemma NextNone(b: string)
    requires Find(b, HEADER, 0) < 0
    ensures Next(b) == Await(Tail(b))
  {
  }

  lemma TailBehind(p: string, s: string)
    requires |s| >= KEEP
    ensures Tail(p + s) == Tail(s)
  {
  }

  lemma DropFound(p: string, s: string, h: nat)
    requires Find(s, HEADER, 0) == h && Find(p + s, HEADER, 0) == |p| + h
    ensures Next(p + s) == Next(s)
  {
    NextIs(s, h, s[h..]);
    DropBehind(p, s, h);
    NextIs(p + s, |p| + h, s[h..]);
  }

  lemma NextIs(b: string, h: nat, c: string)
    requires Find(b, HEADER, 0) == h && c == b[h..]
    ensures c != "" && Next(b) == Framed(c)
  {
    NextAt(b, h);
  }

  lemma DropBehind(p: string, s: string, h: nat)
    requires h <= |s|
    ensures (p + s)[|p| + h..] == s[h..]
  {
  }

  lemma NextAt(b: string, h: nat)
    requires Find(b, HEADER, 0) == h
    ensures h < |b| && Next(b) == Framed(b[h..])
  {
  }

  lemma NextAppend(x: string, y: string)
    requires !Next(x).Await?
    ensures Next(x + y) == Later(Next(x), y)
  {
    var c := SameHeader(x, y);
    FramedAppend(c, y);
  }

  lemma DropConcat(x: string, y: string, h: nat)
    requires h <= |x|
    ensures (x + y)[h..] == x[h..] + y
  {
  }

  /** The first header is the same with and without the later bytes. */
  lemma SameHeader(x: string, y: string) returns (c: string)
    requires !Next(x).Await?
    ensures |c| > 0 && Next(x) == Framed(c) && Next(x + y) == Framed(c + y)
  {
    var h := Find(x, HEADER, 0);
    FindAppend(x, y, HEADER, 0);
    NextAt(x, h);
    NextAt(x + y, h);
    c := x[h..];
    DropConcat(x, y, h);
  }

  lemma FramedAwait(c: string)
    requires |c| > 0 && Framed(c).Await?
    ensures Framed(c) == Await(c)
  {
  }

  /** A header in front stays the first one. */
  lemma HeaderStays(c: string, y: string)
    requires At(c, HEADER, 0)
    ensures Find(c + y, HEADER, 0) == 0
  {
    assert (c + y)[0..|HEADER|] == c[0..|HEADER|];
    FindIs(c + y, HEADER, 0, 0);
  }

  /** Waiting loses nothing: the kept bytes and the whole buffer go on alike. */
  lemma AwaitAppend(x: string, y: string)
    requires Next(x).Await?
    ensures Next(x + y) == Next(Next(x).rest + y)
  {
    var h := Find(x, HEADER, 0);
    if h < 0 {
      HeaderAfterTail(x, y);
    } else {
      HeaderKept(x, y, h, x[h..]);
    }
  }

  lemma HeaderKept(x: string, y: string, h: nat, c: string)
    requires Find(x, HEADER, 0) == h && c == x[h..] && Next(x).Await?
    ensures Next(x).rest == c && Next(x + y) == Next(c + y)
  {
    NextIs(x, h, c);
    FramedAwait(c);
    FindFirst(x, HEADER, 0);
    assert c[0..|HEADER|] == x[h..h + |HEADER|];
    FindAppend(x, y, HEADER, 0);
    DropConcat(x, y, h);
    NextIs(x + y, h, c + y);
    HeaderStays(c, y);
    NextAtHeader(c + y);
  }

  /** Going on from an earlier result when `y` arrives. */
  function Resume(p: Parsed, y: string): Parsed {
    var q := Split(p.rest + y);
    Parsed(p.frames + q.frames, q.rest)
  }

  lemma SplitAwait(b: string, r: string)
    requires Next(b) == Await(r)
    ensures Split(b) == Parsed([], r)
  {
  }

  lemma SplitDeliver(b: string, f: string, r: string)
    requires Next(b) == Deliver(f, r)
    ensures Split(b) == Parsed([f] + Split(r).frames, Split(r).rest)
  {
  }

  lemma ResumeDeliver(f: string, p: Parsed, y: string)
    ensures Resume(Parsed([f] + p.frames, p.rest), y)
            == Parsed([f] + Resume(p, y).frames, Resume(p, y).rest)
  {
    var q := Split(p.rest + y);
    assert [f] + p.frames + q.frames == [f] + (p.frames + q.frames);
  }

  /** Processing a buffer and then more bytes is processing them together. */
  lemma {:induction false} SplitAppend(x: string, y: string)
    ensures Split(x + y) == Resume(Split(x), y)
    decreases |x|
  {
    match Next(x)
    case Await(r) =>
      SplitAwait(x, r);
      AwaitAppend(x, y);
      assert [] + Split(r + y).frames == Split(r + y).frames;
    case Resync(r) =>
      NextAppend(x, y);
      SplitAppend(r, y);
    case Deliver(f, r) =>
      SplitDeliver(x, f, r);
      NextAppend(x, y);
      SplitDeliver(x + y, f, r + y);
      SplitAppend(r, y);
      ResumeDeliver(f, Split(r), y);
  }

  function Concat(chunks: seq<string>): string {
    if chunks == [] then "" else chunks[0] + Concat(chunks[1..])
  }

  /** Reads arriving one by one: append, process, keep the rest. */
  function Feed(p: Parsed, chunks: seq<string>): Parsed
    decreases chunks
  {
    if chunks == [] then p else Feed(Resume(p, chunks[0]), chunks[1..])
  }

  lemma FeedStep(p: Parsed, chunks: seq<string>)
    requires chunks != []
    ensures Feed(p, chunks) == Feed(Resume(p, chunks[0]), chunks[1..])
  {
  }

  lemma ConcatStep(seen: string, chunks: seq<string>, all: string)
    requires chunks != [] && all == seen + Concat(chunks)
    ensures all == seen + chunks[0] + Concat(chunks[1..])
  {
  }

  lemma {:induction false} FeedAfter(p: Parsed, seen: string, chunks: seq<string>, all: string)
    requires p == Split(seen) && all == seen + Concat(chunks)
    ensures Feed(p, chunks) == Split(all)
    decreases chunks
  {
    if chunks == [] {
      assert all == seen;
    } else {
      SplitAppend(seen, chunks[0]);
      ConcatStep(seen, chunks, all);
      FeedAfter(Resume(p, chunks[0]), seen + chunks[0], chunks[1..], all);
      FeedStep(p, chunks);
    }
  }

  /** However the stream is cut into reads, the same frames come out and the same bytes stay. */
  lemma ChunkConfluence(chunks: seq<string>)
    ensures Feed(Parsed([], ""), chunks) == Split(Concat(chunks))
  {
    SplitAwait("", "");
    FeedAfter(Parsed([], ""), "", chunks, Concat(chunks));
  }

  // ------------------------------------------------------------------
  // What is delivered
  // ------------------------------------------------------------------

  /** A frame taken off the front of a buffer is, on its own, exactly one frame. */
  lemma FrameStandsAlone(c: string)
    requires At(c, HEADER, 0) && Framed(c).Deliver?
    ensures Next(Framed(c).frame) == Deliver(Framed(c).frame, "")
  {
    FrameIsMeasured(c);
    NextAtHeader(Framed(c).frame);
  }

  lemma NextAtHeader(f: string)
    requires Find(f, HEADER, 0) == 0
    ensures Next(f) == Framed(f)
  {
    assert f[0..] == f;
  }

  lemma MeasuredAlone(c: string, digits: string, start: nat)
    requires |c| > 0 && Measured(c, digits, start).Deliver?
    ensures var f := Measured(c, digits, start).frame;
            && start + TRAILER <= |f| <= |c| && f == c[..|f|] && Measured(f, digits, start) == Deliver(f, "")
  {
    var f := Measured(c, digits, start).frame;
    assert f[..|f|] == f && f[|f|..] == "";
  }

  lemma FrameIsMeasured(c: string)
    requires |c| > 0 && Framed(c).Deliver?
    ensures |HEADER| <= |Framed(c).frame| && Framed(Framed(c).frame) == Deliver(Framed(c).frame, "")
  {
    var f := Framed(c).frame;
    var p9, e := LengthPlace(c);
    var digits := c[p9 + 2..e];
    MeasuredAlone(c, digits, e + 1);
    CutKeepsFind(c, |f|, p9, e);
    FramedAt(f, p9, e);
    assert |HEADER| == 10;
  }

  lemma CutKeepsFind(c: string, total: nat, p9: nat, e: nat)
    requires p9 + 2 <= e < total <= |c|
    requires Find(c, "9=", 0) == p9 && FindByte(c, SOH, p9 + 2) == e
    ensures Find(c[..total], "9=", 0) == p9 && FindByte(c[..total], SOH, p9 + 2) == e
    ensures c[..total][p9 + 2..e] == c[p9 + 2..e]
  {
    var f := c[..total];
    forall k: nat | k <= p9
      ensures At(f, "9=", k) == At(c, "9=", k)
    {
      CutKeepsAt(c, total, "9=", k);
    }
    FindFirst(c, "9=", 0);
    FindIs(f, "9=", 0, p9);
    assert forall i :: p9 + 2 <= i <= e ==> f[i] == c[i];
  }

  lemma CutKeepsAt(c: string, total: nat, pat: string, k: nat)
    requires k + |pat| <= total <= |c|
    ensures At(c[..total], pat, k) == At(c, pat, k)
  {
    assert c[..total][k..k + |pat|] == c[k..k + |pat|];
  }

  /** The frames are disjoint stretches of `b`, in order, and `rest` is a stretch at its end. */
  ghost predicate Carved(frames: seq<string>, rest: string, b: string)
    decreases |frames|
  {
    if frames == [] then |rest| <= |b| && b[|b| - |rest|..] == rest
    else exists k: nat :: At(b, frames[0], k) && Carved(frames[1..], rest, b[k + |frames[0]|..])
  }

  ghost predicate Standalone(f: string) {
    Split(f) == Parsed([f], "")
  }

  /** No byte is delivered twice, none out of order, and what is left is a stretch at the end. */
  lemma {:induction false} FramesAreCarved(b: string, p: Parsed)
    requires p == Split(b)
    ensures Carved(p.frames, p.rest, b)
    decreases |b|
  {
    match Next(b)
    case Await(r) =>
      SplitAwait(b, r);
    case Resync(r) =>
      FramesAreCarved(r, p);
      CarvedResync(b, r, p);
    case Deliver(f, r) =>
      SplitDeliver(b, f, r);
      FramesAreCarved(r, Split(r));
      CarvedDeliver(b, f, r, Split(r));
  }

  lemma CarvedResync(b: string, r: string, p: Parsed)
    requires Next(b) == Resync(r) && Carved(p.frames, p.rest, r)
    ensures Carved(p.frames, p.rest, b)
  {
    var n := Find(b, HEADER, 0) + 1;
    assert b[n - 1..][1..] == b[n..];
    CarvedBehind(p.frames, p.rest, b, n, r);
  }

  lemma CarvedDeliver(b: string, f: string, r: string, p: Parsed)
    requires Next(b) == Deliver(f, r) && Carved(p.frames, p.rest, r)
    ensures Carved([f] + p.frames, p.rest, b)
  {
    var k := DeliveredFrom(b, f, r);
    CarveFirst(p.frames, p.rest, b, f, k);
  }

  lemma MeasuredFront(c: string, digits: string, start: nat, f: string, r: string)
    requires |c| > 0 && Measured(c, digits, start) == Deliver(f, r)
    ensures |f| <= |c| && c[..|f|] == f && r == c[|f|..]
  {
  }

  lemma FramedFront(c: string, f: string, r: string)
    requires |c| > 0 && Framed(c) == Deliver(f, r)
    ensures |f| <= |c| && c[..|f|] == f && r == c[|f|..]
  {
    var p9, e := LengthPlace(c);
    MeasuredFront(c, c[p9 + 2..e], e + 1, f, r);
  }

  /** A delivered frame is a stretch of the buffer, and the rest is what follows it. */
  lemma DeliveredFrom(b: string, f: string, r: string) returns (k: nat)
    requires Next(b) == Deliver(f, r)
    ensures k + |f| <= |b| && b[k..][..|f|] == f && r == b[k..][|f|..]
  {
    k := Find(b, HEADER, 0);
    FramedFront(b[k..], f, r);
  }

  /** Nothing but complete frames reaches the handler. */
  lemma {:induction false} FramesAreComplete(b: string)
    ensures forall i :: 0 <= i < |Split(b).frames| ==> Standalone(Split(b).frames[i])
    decreases |b|
  {
    match Next(b)
    case Await(r) =>
      SplitAwait(b, r);
    case Resync(r) =>
      FramesAreComplete(r);
    case Deliver(f, r) =>
      SplitDeliver(b, f, r);
      FramesAreComplete(r);
      DeliverAlone(b, f, r);
  }

  lemma DeliverAlone(b: string, f: string, r: string)
    requires Next(b) == Deliver(f, r)
    ensures Standalone(f)
  {
    var h := Find(b, HEADER, 0);
    var c := b[h..];
    FindFirst(b, HEADER, 0);
    assert c[0..|HEADER|] == b[h..h + |HEADER|];
    FrameStandsAlone(c);
    SplitDeliver(f, f, "");
    SplitAwait("", "");
  }

  lemma CarveFirst(frames: seq<string>, rest: string, b: string, f: string, k: nat)
    requires k + |f| <= |b| && b[k..][..|f|] == f && Carved(frames, rest, b[k..][|f|..])
    ensures Carved([f] + frames, rest, b)
  {
    var fs := [f] + frames;
    assert b[k..k + |f|] == b[k..][..|f|];
    assert b[k + |f|..] == b[k..][|f|..];
    assert fs[1..] == frames;
    assert At(b, fs[0], k);
  }

  lemma SliceOfSlice(b: string, n: nat, c: string, k: nat, f: string, d: string)
    requires n <= |b| && c == b[n..] && At(c, f, k) && d == c[k + |f|..]
    ensures At(b, f, n + k) && d == b[n + k + |f|..]
  {
    assert c[k..k + |f|] == b[n + k..n + k + |f|];
  }

  lemma TailOfTail(b: string, n: nat, c: string, rest: string)
    requires n <= |b| && c == b[n..] && |rest| <= |c| && c[|c| - |rest|..] == rest
    ensures b[|b| - |rest|..] == rest
  {
  }

  lemma CarvedFirst(frames: seq<string>, rest: string, b: string) returns (k: nat, d: string)
    requires frames != [] && Carved(frames, rest, b)
    ensures At(b, frames[0], k) && d == b[k + |frames[0]|..] && Carved(frames[1..], rest, d)
  {
    k :| At(b, frames[0], k) && Carved(frames[1..], rest, b[k + |frames[0]|..]);
    d := b[k + |frames[0]|..];
  }

  lemma CarvedAt(frames: seq<string>, rest: string, b: string, k: nat, d: string)
    requires frames != [] && At(b, frames[0], k) && d == b[k + |frames[0]|..] && Carved(frames[1..], rest, d)
    ensures Carved(frames, rest, b)
  {
  }

  lemma {:induction false} CarvedBehind(frames: seq<string>, rest: string, b: string, n: nat, c: string)
    requires n <= |b| && c == b[n..] && Carved(frames, rest, c)
    ensures Carved(frames, rest, b)
  {
    if frames == [] {
      TailOfTail(b, n, c, rest);
    } else {
      var k, d := CarvedFirst(frames, rest, c);
      SliceOfSlice(b, n, c, k, frames[0], d);
      CarvedAt(frames, rest, b, n + k, d);
    }
  }

  lemma {:induction false} FramesFit(frames: seq<string>, rest: string, b: string)
    requires Carved(frames, rest, b)
    ensures |Concat(frames)| <= |b|
    decreases |frames|
  {
    if frames != [] {
      var k, d := CarvedFirst(frames, rest, b);
      FramesFit(frames[1..], rest, d);
    }
  }

  // ------------------------------------------------------------------
  // The splitter inverts the message printer
  // ------------------------------------------------------------------

  /** The header fields and body fields of a message before it is sealed. */
  datatype Draft = Draft(header: string, body: string) {
    predicate Deliverable() {
      |header| + |body| <= MAX_BODY
    }

    function Bytes(): string {
      Sealed(header, body)
    }
  }

  /** Where the splitter finds the BodyLength of a message. */
  lemma LengthField(length: string, rest: string)
    requires SOH !in length
    ensures var c := HEADER + FieldText("9", length) + rest;
            && Find(c, HEADER, 0) == 0
            && Find(c, "9=", 0) == 10
            && FindByte(c, SOH, 12) == 12 + |length|
            && c[12..12 + |length|] == length
  {
    var c := HEADER + FieldText("9", length) + rest;
    assert c[0..10] == HEADER;
    NoNineInHeader(c);
    FindIs(c, "9=", 0, 10);
    FindIs(c, HEADER, 0, 0);
    LengthEnds(c, length, 12);
  }

  lemma NoNineInHeader(c: string)
    requires |c| >= 10 && c[0..10] == HEADER
    ensures forall k :: 0 <= k < 10 ==> !At(c, "9=", k)
  {
    forall k: nat | k < 10
      ensures !At(c, "9=", k)
    {
      assert c[k] == c[0..10][k] == HEADER[k] != '9';
      FirstByte(c, "9=", k);
    }
  }

  lemma {:induction false} LengthEnds(c: string, length: string, k: nat)
    requires SOH !in length && At(c, length + [SOH], k)
    ensures FindByte(c, SOH, k) == k + |length| && c[k..k + |length|] == length
  {
    var u := c[k..k + |length| + 1];
    assert forall i :: 0 <= i < |length| ==> c[k + i] == u[i] == length[i];
    assert c[k + |length|] == u[|length|] == SOH;
    assert forall i :: k <= i < k + |length| ==> c[i] == length[i - k];
  }

  /** A message in front of a buffer is delivered whole, unless its BodyLength is over the cap. */
  lemma {:induction false} NextSealed(d: Draft, y: string)
    ensures Next(d.Bytes() + y) ==
            if d.Deliverable() then Deliver(d.Bytes(), y) else Resync((d.Bytes() + y)[1..])
  {
    var m, length := d.Bytes(), LengthText(d.header, d.body);
    var trailer := FieldText("10", CheckText(d.header, d.body));
    var rest := d.header + d.body + trailer + y;
    var c := HEADER + FieldText("9", length) + rest;
    assert m + y == c;
    LengthField(length, rest);
    ValDec(|d.header| + |d.body|);
    assert |m| == 12 + |length| + 1 + |d.header| + |d.body| + TRAILER;
    assert c[..|m|] == m && c[|m|..] == y;
    FramedSealed(c, length, |d.header| + |d.body|, m, y);
    NextAtHeader(c);
  }

  lemma FramedSealed(c: string, length: string, n: nat, m: string, y: string)
    requires |c| > 12 + |length| && IsDigits(length) && Val(length) == n
    requires Find(c, "9=", 0) == 10
    requires FindByte(c, SOH, 12) == 12 + |length| && c[12..12 + |length|] == length
    requires |m| == 13 + |length| + n + TRAILER && |m| <= |c| && c[..|m|] == m && c[|m|..] == y
    ensures Framed(c) == if n <= MAX_BODY then Deliver(m, y) else Resync(c[1..])
  {
  }

  /** Bytes without a header give no frame, and at most their last sixteen are kept. */
  lemma NoHeader(b: string, header: string)
    requires header == "8=FIX.4.4" + [SOH] && Find(b, header, 0) < 0
    ensures Split(b) == Parsed([], if |b| > 16 then b[|b| - 16..] else b)
  {
    assert header == HEADER;
    NextNone(b);
    SplitAwait(b, Tail(b));
  }

  /** Bytes in front of the first header are dropped. */
  lemma FromHeader(b: string, header: string, h: nat)
    requires header == "8=FIX.4.4" + [SOH] && At(b, header, h) && forall k :: 0 <= k < h ==> !At(b, header, k)
    ensures Next(b) == Next(b[h..])
  {
    var c := b[h..];
    FindIs(b, header, 0, h);
    assert c[0..|header|] == b[h..h + |header|];
    FindIs(c, header, 0, 0);
    assert header == HEADER && c[0..] == c;
  }

  lemma MeasuredAt(c: string, text: string, e: nat)
    requires e < |c|
    ensures Measured(c, text, e + 1) ==
            if !IsDigits(text) || Val(text) > 1_048_576 then Resync(c[1..])
            else if e + 1 + Val(text) + 7 > |c| then Await(c)
            else Deliver(c[..e + 1 + Val(text) + 7], c[e + 1 + Val(text) + 7..])
  {
  }

  /** The first "9=". */
  predicate FirstNine(c: string, p: nat) {
    p + 2 <= |c| && c[p] == '9' && c[p + 1] == '=' && forall k :: 0 <= k < p ==> !(c[k] == '9' && c[k + 1] == '=')
  }

  lemma PairAt(c: string, k: nat)
    requires k + 2 <= |c|
    ensures At(c, "9=", k) <==> c[k] == '9' && c[k + 1] == '='
  {
    assert c[k..k + 2] == [c[k], c[k + 1]];
  }

  lemma AtHeader(c: string, header: string)
    requires header == "8=FIX.4.4" + [SOH] && At(c, header, 0)
    ensures c != "" && Next(c) == Framed(c)
  {
    assert header == HEADER;
    FindIs(c, HEADER, 0, 0);
    NextAtHeader(c);
  }

  lemma NineFound(c: string, p: nat)
    requires FirstNine(c, p)
    ensures Find(c, "9=", 0) == p
  {
    PairAt(c, p);
    forall k: nat | k < p
      ensures !At(c, "9=", k)
    {
      PairAt(c, k);
    }
    FindIs(c, "9=", 0, p);
  }

  /**
   * On a buffer that starts with a header, the text between the first "9=" and the next SOH decides: if it is no
   * number, or over 2^20, the header loses its first byte; any other is waited for, with the seven bytes of the
   * CheckSum field, and then the frame ends there.
   */
  lemma FrameByLength(c: string, header: string, p: nat, e: nat)
    requires header == "8=FIX.4.4" + [SOH] && At(c, header, 0) && FirstNine(c, p)
    requires p + 2 <= e < |c| && c[e] == SOH && forall k :: p + 2 <= k < e ==> c[k] != SOH
    ensures var text := c[p + 2..e];
            Next(c) ==
            if !IsDigits(text) || Val(text) > 1_048_576 then Resync(c[1..])
            else if e + 1 + Val(text) + 7 > |c| then Await(c)
            else Deliver(c[..e + 1 + Val(text) + 7], c[e + 1 + Val(text) + 7..])
  {
    AtHeader(c, header);
    NineFound(c, p);
    FramedAt(c, p, e);
    MeasuredAt(c, c[p + 2..e], e);
  }

  /** Without a "9=", or without an SOH behind the first one, everything from the header on is kept. */
  lemma LengthAwaited(c: string, header: string)
    requires header == "8=FIX.4.4" + [SOH] && At(c, header, 0)
    requires forall p: nat, e: nat :: FirstNine(c, p) && p + 2 <= e < |c| ==> c[e] != SOH
    ensures Next(c) == Await(c)
  {
    AtHeader(c, header);
    var p := Find(c, "9=", 0);
    if p >= 0 {
      NineIsFirst(c, p);
    }
  }

  lemma NineIsFirst(c: string, p: nat)
    requires Find(c, "9=", 0) == p
    ensures FirstNine(c, p)
  {
    FindFirst(c, "9=", 0);
    forall k: nat | k + 2 <= |c|
      ensures At(c, "9=", k) <==> c[k] == '9' && c[k + 1] == '='
    {
      PairAt(c, k);
    }
  }

  function Frames(ds: seq<Draft>): (fs: seq<string>)
    ensures |fs| == |ds| && forall i :: 0 <= i < |ds| ==> fs[i] == ds[i].Bytes()
  {
    if ds == [] then [] else [ds[0].Bytes()] + Frames(ds[1..])
  }

  predicate AllDeliverable(ds: seq<Draft>) {
    forall i :: 0 <= i < |ds| ==> ds[i].Deliverable()
  }

  /** A resynchronisation drops a byte, so a stream that starts with one cannot come out whole. */
  lemma ResyncLoses(c: string)
    requires c != "" && Next(c) == Resync(c[1..])
    ensures |Concat(Split(c).frames)| < |c|
  {
    FramesAreCarved(c[1..], Split(c[1..]));
    FramesFit(Split(c[1..]).frames, Split(c[1..]).rest, c[1..]);
  }

  lemma AllFromFirst(ds: seq<Draft>)
    requires ds != []
    ensures AllDeliverable(ds) <==> ds[0].Deliverable() && AllDeliverable(ds[1..])
  {
    assert forall i :: 1 <= i < |ds| ==> ds[i] == ds[1..][i - 1];
  }

  lemma FirstDelivered(ds: seq<Draft>, m: string, y: string)
    requires ds != [] && m == ds[0].Bytes() && y == Concat(Frames(ds[1..])) && ds[0].Deliverable()
    ensures Split(m + y) == Parsed(Frames(ds), "") <==> Split(y) == Parsed(Frames(ds[1..]), "")
  {
    NextSealed(ds[0], y);
    SplitDeliver(m + y, m, y);
    FirstOut(m, Split(y), ds);
  }

  /** Printed messages come out exactly as printed if and only if every BodyLength is within the cap. */
  lemma {:induction false} MessagesDelivered(ds: seq<Draft>)
    ensures Split(Concat(Frames(ds))) == Parsed(Frames(ds), "") <==> AllDeliverable(ds)
  {
    if ds == [] {
      SplitAwait("", "");
    } else {
      var m, y := ds[0].Bytes(), Concat(Frames(ds[1..]));
      assert Frames(ds)[1..] == Frames(ds[1..]);
      AllFromFirst(ds);
      if ds[0].Deliverable() {
        MessagesDelivered(ds[1..]);
        FirstDelivered(ds, m, y);
      } else {
        NextSealed(ds[0], y);
        ResyncLoses(m + y);
      }
    }
  }

  lemma FirstOut(m: string, p: Parsed, ds: seq<Draft>)
    requires ds != [] && m == ds[0].Bytes()
    ensures Parsed([m] + p.frames, p.rest) == Parsed(Frames(ds), "") <==> p == Parsed(Frames(ds[1..]), "")
  {
    assert Frames(ds) == [m] + Frames(ds[1..]);
    assert ([m] + p.frames)[1..] == p.frames;
    assert Frames(ds)[1..] == Frames(ds[1..]);
  }

  /** The splitter inverts the printer under every chunking of the stream. */
  lemma {:induction false} PrinterSplitterInverse(ds: seq<Draft>, chunks: seq<string>)
    requires Concat(chunks) == Concat(Frames(ds))
    ensures Feed(Parsed([], ""), chunks) == Parsed(Frames(ds), "") <==> AllDeliverable(ds)
  {
    ChunkConfluence(chunks);
    MessagesDelivered(ds);
  }

  lemma HeaderHasNoLength()
    ensures Find(HEADER, "9=", 0) < 0
  {
    NoNineInHeader(HEADER);
    FindFirst(HEADER, "9=", 0);
  }

  /** Behind bytes that hold no header and no start of one, a header is kept and waits for its BodyLength. */
  lemma HeaderWaits(b: string)
    requires Find(b + HEADER, HEADER, 0) == |b|
    ensures Split(b + HEADER) == Parsed([], HEADER)
  {
    NextAt(b + HEADER, |b|);
    assert (b + HEADER)[|b|..] == HEADER;
    HeaderHasNoLength();
    SplitAwait(b + HEADER, HEADER);
  }

  /** So it is behind bytes that start with a header whose BodyLength is unusable. */
  lemma {:induction false} HeaderWaitsAfterResync(b: string)
    requires b != "" && Next(b) == Resync(b[1..]) && Find(b[1..] + HEADER, HEADER, 0) == |b| - 1
    ensures Split(b + HEADER) == Parsed([], HEADER)
  {
    NextAppend(b, HEADER);
    HeaderWaits(b[1..]);
  }

  /**
   * Resynchronisation: behind any bytes after which a header would be found and kept, messages come out exactly
   * as printed, under every chunking, if and only if they would without those bytes. Bytes that hold no header
   * and no start of one that the first message would complete are of this kind (`HeaderWaits`).
   */
  lemma ResyncRecovers(g: string, p: Parsed, ds: seq<Draft>, chunks: seq<string>)
    requires ds != [] && p == Split(g + HEADER) && p.rest == HEADER
    requires Concat(chunks) == g + Concat(Frames(ds))
    ensures Feed(Parsed([], ""), chunks) == Parsed(p.frames + Frames(ds), "") <==> AllDeliverable(ds)
  {
    ChunkConfluence(chunks);
    MessagesDelivered(ds);
    var tail := FramesStart(ds);
    Associate(g, HEADER, tail);
    SplitBehind(g + HEADER, tail, Concat(chunks), Concat(Frames(ds)), p);
    SameFrames(p.frames, Split(Concat(Frames(ds))), Frames(ds));
  }

  lemma Associate(a: string, b: string, c: string)
    ensures a + b + c == a + (b + c)
  {
  }

  /** Kept bytes are split together with what follows them, whatever came before. */
  lemma SplitBehind(a: string, tail: string, b: string, x: string, p: Parsed)
    requires b == a + tail && p == Split(a) && x == p.rest + tail
    ensures Split(b) == Parsed(p.frames + Split(x).frames, Split(x).rest)
  {
    SplitAppend(a, tail);
    ResumeKept(p, tail, x);
  }

  lemma ResumeKept(p: Parsed, tail: string, x: string)
    requires x == p.rest + tail
    ensures Resume(p, tail) == Parsed(p.frames + Split(x).frames, Split(x).rest)
  {
  }

  lemma FramesStart(ds: seq<Draft>) returns (tail: string)
    requires ds != []
    ensures Concat(Frames(ds)) == HEADER + tail
  {
    assert Frames(ds)[1..] == Frames(ds[1..]);
    tail := StartsWithHeader(ds[0], Concat(Frames(ds[1..])));
  }

  lemma SameFrames(front: seq<string>, p: Parsed, fs: seq<string>)
    ensures Parsed(front + p.frames, p.rest) == Parsed(front + fs, "") <==> p == Parsed(fs, "")
  {
    assert (front + p.frames)[|front|..] == p.frames && (front + fs)[|front|..] == fs;
  }

  lemma StartsWithHeader(d: Draft, y: string) returns (tail: string)
    ensures d.Bytes() + y == HEADER + tail
  {
    tail := FieldText("9", LengthText(d.header, d.body)) + d.header + d.body
            + FieldText("10", CheckText(d.header, d.body)) + y;
  }

  /**
   * FIX 4.4 Volume 2, "Data Integrity": BodyLength counts the bytes from after its own field up to
   * the CheckSum field ...
   */
  lemma BodyLengthCounts(d: Draft, m: string, e: int)
    requires m == d.Bytes() && e == FindByte(m, SOH, 12)
    ensures 12 <= e && e + 8 <= |m| && m[12..e] == Dec(|m| - 7 - (e + 1))
  {
    var length := LengthText(d.header, d.body);
    var rest := AfterLength(d, length);
    LengthField(length, rest);
  }

  lemma AfterLength(d: Draft, length: string) returns (rest: string)
    requires length == LengthText(d.header, d.body)
    ensures d.Bytes() == HEADER + FieldText("9", length) + rest && |rest| == |d.header| + |d.body| + TRAILER
    ensures |d.Bytes()| == 13 + |length| + |rest|
  {
    rest := d.header + d.body + FieldText("10", CheckText(d.header, d.body));
  }

  /** ... which is the last 7 bytes and holds, in three digits, the byte sum of all before it mod 256. */
  lemma CheckSumTotals(d: Draft, m: string)
    requires m == d.Bytes()
    ensures |m| >= 7 && m[|m| - 7..|m| - 4] == "10=" && m[|m| - 1] == SOH
    ensures m[|m| - 4..|m| - 1] == Padded(ByteSum(m[..|m| - 7]) % 256, 3)
  {
  }
}
