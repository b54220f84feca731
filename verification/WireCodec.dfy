/**
 * The signal wire codec: a bounded printer of comma-separated fields, and a cursor parser that copies each field
 * into a fixed buffer. Prices are integers in millionths. The results say which signals come back unchanged, and
 * what a frame cut short decodes to.
 */
module WireCodec {
  import opened Bytes
  import opened Decimal
  import opened Wrappers

  const NUL: char := '\0'
  const REASON_MAX: nat := 23
  const NUM_MAX: nat := 47
  const TS_MAX: nat := 31
  const NUM_COUNT: nat := 5
  const MILLION: nat := 1_000_000

  type int64 = x: int | -0x8000_0000_0000_0000 <= x < 0x8000_0000_0000_0000

  datatype Side = Buy | Sell | NoSide

  datatype Signal = Signal(side: Side, reason: string, lead: int, bid: int, ask: int, threshold: int,
                           edge: int, ts: int64)

  datatype ExecSignal = ExecSignal(side: nat, reason: string, lead: real, bid: real, ask: real,
                                   threshold: real, edge: real, ts: int)

  // ------------------------------------------------------------------
  // Printer
  // ------------------------------------------------------------------

  function Abs(v: int): nat {
    if v < 0 then -v else v
  }

  function Sign(v: int): string {
    if v < 0 then "-" else ""
  }

  /** "%lld" */
  function PrintInt(v: int): string {
    Sign(v) + Dec(Abs(v))
  }

  /** "%.6f" of a number of millionths. */
  function PrintFixed(v: int): string {
    Sign(v) + Dec(Abs(v) / MILLION) + ['.'] + Padded(Abs(v) % MILLION, 6)
  }

  function FixedTexts(vs: seq<int>): (ts: seq<string>)
    ensures |ts| == |vs| && forall i :: 0 <= i < |vs| ==> ts[i] == PrintFixed(vs[i])
  {
    if vs == [] then [] else [PrintFixed(vs[0])] + FixedTexts(vs[1..])
  }

  /** Fields, each with its comma. */
  function Join(ts: seq<string>): string {
    if ts == [] then "" else ts[0] + [','] + Join(ts[1..])
  }

  /** The bytes of `reason.c_str()`. */
  function CStr(s: string): string {
    var n := FindByte(s, NUL, 0);
    if n < 0 then s else s[..n]
  }

  function SideText(side: Side): string {
    if side == Buy then "BUY" else "SELL"
  }

  function Nums(s: Signal): seq<int> {
    [s.lead, s.bid, s.ask, s.threshold, s.edge]
  }

  function Head(side: Side): string {
    "signal|" + SideText(side) + [',']
  }

  /** Everything before the time stamp. */
  function Front(s: Signal): string {
    Head(s.side) + (CStr(s.reason) + [',']) + Join(FixedTexts(Nums(s)))
  }

  function Text(s: Signal): string {
    Front(s) + PrintInt(s.ts)
  }

  /** `encode_signal`: snprintf into `cap` bytes; -1 exactly when the whole text and its NUL do not fit. */
  method EncodeSignal(s: Signal, buf: array<char>, cap: nat) returns (n: int)
    requires cap <= buf.Length
    modifies buf
    ensures n == if |Text(s)| < cap then |Text(s)| else -1
    ensures n >= 0 ==> buf[..n] == Text(s) && buf[n] == NUL
    ensures n < 0 && cap > 0 ==> buf[..cap - 1] == Text(s)[..cap - 1] && buf[cap - 1] == NUL
    ensures forall i :: (if n >= 0 then n + 1 else cap) <= i < buf.Length ==> buf[i] == old(buf[i])
  {
    if cap == 0 {
      return -1;
    }
    var text := Text(s);
    var room := if |text| < cap then |text| else cap - 1;
    var i := 0;
    while i < room
      invariant 0 <= i <= room
      invariant buf[..i] == text[..i]
      invariant forall k :: i <= k < buf.Length ==> buf[k] == old(buf[k])
    {
      buf[i] := text[i];
      i := i + 1;
    }
    buf[room] := NUL;
    assert buf[..room] == text[..room];
    n := if |text| < cap then |text| else -1;
  }

  // ------------------------------------------------------------------
  // Number readers
  // ------------------------------------------------------------------

  predicate IsSpace(c: char) {
    c == ' ' || '\t' <= c <= '\r'
  }

  function SkipSpace(t: string, i: nat): (r: nat)
    requires i <= |t|
    ensures i <= r <= |t|
    decreases |t| - i
  {
    if i < |t| && IsSpace(t[i]) then SkipSpace(t, i + 1) else i
  }

  /** The end of the run of digits that starts at `i`. */
  function DigitsEnd(t: string, i: nat): (r: nat)
    requires i <= |t|
    ensures i <= r <= |t|
    ensures forall k :: i <= k < r ==> IsDigit(t[k])
    ensures r < |t| ==> !IsDigit(t[r])
    decreases |t| - i
  {
    if i < |t| && IsDigit(t[i]) then DigitsEnd(t, i + 1) else i
  }

  datatype Unsigned = Unsigned(negative: bool, start: nat)

  function ReadSign(t: string): (u: Unsigned)
    ensures u.start <= |t|
  {
    var i := SkipSpace(t, 0);
    if i < |t| && t[i] == '-' then Unsigned(true, i + 1)
    else if i < |t| && t[i] == '+' then Unsigned(false, i + 1)
    else Unsigned(false, i)
  }

  /** atoll: sign and digits, the rest ignored. */
  function ReadInt(t: string): int {
    var u := ReadSign(t);
    var v: int := Val(t[u.start..DigitsEnd(t, u.start)]);
    if u.negative then -v else v
  }

  function Scaled(whole: string, fraction: string): real
    requires forall i :: 0 <= i < |whole| ==> IsDigit(whole[i])
    requires forall i :: 0 <= i < |fraction| ==> IsDigit(fraction[i])
  {
    Val(whole) as real + Val(fraction) as real / Pow10(|fraction|) as real
  }

  /** strtod on plain decimal text: sign, digits, optional point and digits, the rest ignored. */
  function ReadReal(t: string): real {
    var u := ReadSign(t);
    var k := DigitsEnd(t, u.start);
    var v := if k < |t| && t[k] == '.'
             then Scaled(t[u.start..k], t[k + 1..DigitsEnd(t, k + 1)])
             else Scaled(t[u.start..k], "");
    if u.negative then -v else v
  }

  // ------------------------------------------------------------------
  // Parser
  // ------------------------------------------------------------------

  /** The first comma from `p` on, or `limit`, or the end, whichever comes first. */
  function StopAt(f: string, p: nat, limit: nat): (e: nat)
    requires p <= |f| && p <= limit
    ensures p <= e <= |f| && e <= limit
    ensures forall k :: p <= k < e ==> f[k] != ','
    ensures e == |f| || f[e] == ',' || e == limit
    decreases limit - p
  {
    if p < |f| && f[p] != ',' && p < limit then StopAt(f, p + 1, limit) else p
  }

  /** Where a bounded copy loop stops: at a comma, at the end, or when its buffer is full. */
  function FieldEnd(f: string, p: nat, max: nat): (e: nat)
    requires p <= |f|
    ensures p <= e <= |f| && e - p <= max
    ensures forall k :: p <= k < e ==> f[k] != ','
    ensures e == |f| || f[e] == ',' || e - p == max
  {
    StopAt(f, p, p + max)
  }

  function FieldText(f: string, p: nat, max: nat): string
    requires p <= |f|
  {
    f[p..FieldEnd(f, p, max)]
  }

  predicate CommaAt(f: string, e: nat) {
    e < |f| && f[e] == ','
  }

  function Prepend(text: string, rest: Option<(seq<string>, nat)>): Option<(seq<string>, nat)> {
    match rest
    case None => None
    case Some(r) => Some(([text] + r.0, r.1))
  }

  /** The texts of `count` fields that must each end in a comma, and the index after the last comma. */
  function ReadFields(f: string, p: nat, count: nat): (r: Option<(seq<string>, nat)>)
    requires p <= |f|
    ensures r.Some? ==> |r.value.0| == count && p <= r.value.1 <= |f|
    decreases count
  {
    if count == 0 then Some(([], p))
    else
      var e := FieldEnd(f, p, NUM_MAX);
      if CommaAt(f, e) then Prepend(FieldText(f, p, NUM_MAX), ReadFields(f, e + 1, count - 1)) else None
  }

  /** Topic prefix and side: the side code and the index after it. */
  function ReadSide(f: string): (r: Option<(nat, nat)>)
    ensures r.Some? ==> r.value.1 <= |f|
  {
    var p := if |f| >= 6 && f[..6] == "signal" then 6 else 0;
    var q := if p < |f| && f[p] == '|' then p + 1 else p;
    if q + 3 <= |f| && f[q..q + 3] == "BUY" then Some((1, q + 3))
    else if q + 4 <= |f| && f[q..q + 4] == "SELL" then Some((2, q + 4))
    else None
  }

  /** A frame cut into its fields. */
  datatype Raw = Raw(side: nat, reason: string, texts: seq<string>, ts: string)

  /** The reason, `count` numbers and the time stamp. */
  function AfterSide(f: string, side: nat, p: nat, count: nat): (r: Option<Raw>)
    requires p <= |f|
    ensures r.Some? ==> |r.value.texts| == count
  {
    var e := FieldEnd(f, p, REASON_MAX);
    if !CommaAt(f, e) then None
    else
      match ReadFields(f, e + 1, count)
      case None => None
      case Some(r) => Some(Raw(side, FieldText(f, p, REASON_MAX), r.0, FieldText(f, r.1, TS_MAX)))
  }

  function Cut(f: string, count: nat): (r: Option<Raw>)
    ensures r.Some? ==> |r.value.texts| == count
  {
    match ReadSide(f)
    case None => None
    case Some(sp) => if CommaAt(f, sp.1) then AfterSide(f, sp.0, sp.1 + 1, count) else None
  }

  /** The numbers in the fields; a signal without a positive lead is refused. */
  function Interpret(r: Raw): Option<ExecSignal>
    requires |r.texts| == NUM_COUNT
  {
    if ReadReal(r.texts[0]) > 0.0 then
      Some(ExecSignal(r.side, r.reason, ReadReal(r.texts[0]), ReadReal(r.texts[1]), ReadReal(r.texts[2]),
                      ReadReal(r.texts[3]), ReadReal(r.texts[4]), ReadInt(r.ts)))
    else None
  }

  function Decode(f: string): Option<ExecSignal> {
    match Cut(f, NUM_COUNT)
    case None => None
    case Some(raw) => Interpret(raw)
  }

  /** The bounded copy loop itself. */
  method CopyField(f: string, p: nat, max: nat) returns (text: string, q: nat)
    requires p <= |f|
    ensures q == FieldEnd(f, p, max) && text == FieldText(f, p, max)
  {
    text, q := "", p;
    while q < |f| && f[q] != ',' && |text| < max
      invariant p <= q <= |f| && |text| == q - p <= max
      invariant text == f[p..q]
      invariant StopAt(f, p, p + max) == StopAt(f, q, p + max)
    {
      text := text + [f[q]];
      q := q + 1;
    }
  }

  /** `decode_signal`. */
  method DecodeSignal(f: string) returns (r: Option<ExecSignal>)
    ensures r == Decode(f)
  {
    var raw := CutFrame(f);
    r := if raw.Some? then Interpret(raw.value) else None;
  }

  method CutFrame(f: string) returns (r: Option<Raw>)
    ensures r == Cut(f, NUM_COUNT)
  {
    var sp := ReadSide(f);
    if sp.None? || !CommaAt(f, sp.value.1) {
      return None;
    }
    r := CutBody(f, sp.value.0, sp.value.1 + 1);
  }

  /** The part after the side: reason, numbers, time stamp. */
  method CutBody(f: string, side: nat, p: nat) returns (r: Option<Raw>)
    requires p <= |f|
    ensures r == AfterSide(f, side, p, NUM_COUNT)
  {
    var reason, e := CopyField(f, p, REASON_MAX);
    if !CommaAt(f, e) {
      return None;
    }
    var nums := CopyFields(f, e + 1, NUM_COUNT);
    if nums.None? {
      return None;
    }
    var ts, _ := CopyField(f, nums.value.1, TS_MAX);
    r := Some(Raw(side, reason, nums.value.0, ts));
  }

  /** The numeric fields, each up to its comma. */
  method CopyFields(f: string, p: nat, count: nat) returns (r: Option<(seq<string>, nat)>)
    requires p <= |f|
    ensures r == ReadFields(f, p, count)
  {
    var texts: seq<string>, q: nat, left: nat := [], p, count;
    ghost var goal := ReadFields(f, p, count);
    ResumedNone(goal);
    while left > 0
      invariant q <= |f|
      invariant goal == Resumed(texts, ReadFields(f, q, left))
    {
      var text, k := CopyField(f, q, NUM_MAX);
      ResumeField(f, q, k, texts, left);
      if !CommaAt(f, k) {
        return None;
      }
      texts := texts + [text];
      q, left := k + 1, left - 1;
    }
    assert texts + [] == texts;
    return Some((texts, q));
  }

  function Resumed(done: seq<string>, rest: Option<(seq<string>, nat)>): Option<(seq<string>, nat)> {
    match rest
    case None => None
    case Some(r) => Some((done + r.0, r.1))
  }

  lemma ResumedNone(r: Option<(seq<string>, nat)>)
    ensures Resumed([], r) == r
  {
    if r.Some? {
      assert [] + r.value.0 == r.value.0;
    }
  }

  lemma ResumeField(f: string, q: nat, k: nat, done: seq<string>, left: nat)
    requires q <= |f| && left > 0 && k == FieldEnd(f, q, NUM_MAX)
    ensures Resumed(done, ReadFields(f, q, left)) ==
            if CommaAt(f, k) then Resumed(done + [FieldText(f, q, NUM_MAX)], ReadFields(f, k + 1, left - 1)) else None
  {
    if CommaAt(f, k) {
      ResumedPrepend(done, FieldText(f, q, NUM_MAX), ReadFields(f, k + 1, left - 1));
    }
  }

  lemma ResumedPrepend(done: seq<string>, text: string, rest: Option<(seq<string>, nat)>)
    ensures Resumed(done, Prepend(text, rest)) == Resumed(done + [text], rest)
  {
    if rest.Some? {
      assert done + ([text] + rest.value.0) == done + [text] + rest.value.0;
    }
  }

  // ------------------------------------------------------------------
  // Numbers come back
  // ------------------------------------------------------------------

  /** The run of digits at `i` is the whole of `d`. */
  lemma DigitsRun(t: string, i: nat, d: string)
    requires IsDigits(d) && i + |d| <= |t| && t[i..i + |d|] == d
    requires i + |d| == |t| || !IsDigit(t[i + |d|])
    ensures DigitsEnd(t, i) == i + |d|
  {
    assert forall k :: i <= k < i + |d| ==> t[k] == d[k - i];
  }

  lemma SignRead(t: string, v: int, rest: string)
    requires rest != "" && IsDigit(rest[0]) && t == Sign(v) + rest
    ensures ReadSign(t) == Unsigned(v < 0, |Sign(v)|)
  {
    assert v >= 0 ==> t[0] == rest[0];
  }

  lemma IntRoundTrip(v: int)
    ensures ReadInt(PrintInt(v)) == v
  {
    var t, d := PrintInt(v), Dec(Abs(v));
    SignRead(t, v, d);
    assert t[|Sign(v)|..|t|] == d;
    DigitsRun(t, |Sign(v)|, d);
    ValDec(Abs(v));
  }

  lemma FixedRoundTrip(v: int)
    ensures ReadReal(PrintFixed(v)) == v as real / MILLION as real
  {
    var a := Abs(v);
    FixedParts(v, Dec(a / MILLION), Padded(a % MILLION, 6));
    ScaledPrinted(a);
  }

  lemma FixedParts(v: int, w: string, m: string)
    requires IsDigits(w) && IsDigits(m)
    ensures ReadReal(Sign(v) + w + ['.'] + m) == if v < 0 then -Scaled(w, m) else Scaled(w, m)
  {
    var t, i := Sign(v) + w + ['.'] + m, |Sign(v)|;
    assert t == Sign(v) + (w + ['.'] + m);
    SignRead(t, v, w + ['.'] + m);
    PointPlace(t, Sign(v), w, m);
    DigitsRun(t, i, w);
    DigitsRun(t, i + |w| + 1, m);
  }

  lemma PointPlace(t: string, sign: string, w: string, m: string)
    requires t == sign + w + ['.'] + m
    ensures var k := |sign| + |w|;
            k + 1 + |m| == |t| && t[|sign|..k] == w && t[k] == '.' && t[k + 1..] == m && t[k + 1..|t|] == m
  {
  }

  lemma ScaledPrinted(a: nat)
    ensures Scaled(Dec(a / MILLION), Padded(a % MILLION, 6)) == a as real / MILLION as real
  {
    ValDec(a / MILLION);
    MillionIsPow();
    ValPadded(a % MILLION, 6);
    ScaledParts(a, Dec(a / MILLION), Padded(a % MILLION, 6), a / MILLION, a % MILLION);
  }

  lemma {:induction false} ScaledParts(a: nat, whole: string, fraction: string, w: nat, m: nat)
    requires IsDigits(whole) && IsDigits(fraction) && Val(whole) == w && Val(fraction) == m
    requires Pow10(|fraction|) == MILLION && a == w * MILLION + m
    ensures Scaled(whole, fraction) == a as real / MILLION as real
  {
    Split(a, w, m);
  }

  lemma Split(a: nat, w: nat, m: nat)
    requires a == w * MILLION + m
    ensures w as real + m as real / 1_000_000.0 == a as real / 1_000_000.0
  {
    assert a as real == w as real * 1_000_000.0 + m as real;
  }

  lemma MillionIsPow()
    ensures Pow10(6) == MILLION
  {
    assert Pow10(3) == 1000;
    assert Pow10(6) == 10 * (10 * (10 * Pow10(3)));
  }

  // ------------------------------------------------------------------
  // Fields come back
  // ------------------------------------------------------------------

  /** A printed field is read back whole exactly when it fits the buffer. */
  lemma FieldFits(f: string, p: nat, field: string, max: nat)
    requires ',' !in field && At(f, field + [','], p)
    ensures && (CommaAt(f, FieldEnd(f, p, max)) <==> |field| <= max)
            && (|field| <= max ==> FieldEnd(f, p, max) == p + |field| && FieldText(f, p, max) == field)
  {
    AtConcat(f, field, [','], p);
    assert forall k :: p <= k < p + |field| ==> f[k] == f[p..p + |field|][k - p] == field[k - p];
    assert f[p + |field|] == f[p + |field|..p + |field| + 1][0] == ',';
  }

  predicate CommaFree(ts: seq<string>) {
    forall i :: 0 <= i < |ts| ==> ',' !in ts[i]
  }

  predicate AllFit(ts: seq<string>) {
    forall i :: 0 <= i < |ts| ==> |ts[i]| <= NUM_MAX
  }

  /** Joined fields are cut apart again exactly when each fits the buffer. */
  lemma {:induction false} FieldsCut(f: string, p: nat, ts: seq<string>, q: nat)
    requires CommaFree(ts) && At(f, Join(ts), p) && q == p + |Join(ts)|
    ensures ReadFields(f, p, |ts|) == if AllFit(ts) then Some((ts, q)) else None
    decreases |ts|
  {
    if ts != [] {
      var t, rest := ts[0], ts[1..];
      JoinedAt(f, p, ts);
      FieldsCut(f, p + |t| + 1, rest, q);
      FirstFieldCut(f, p, ts, t, rest, q);
    }
  }

  lemma FirstFieldCut(f: string, p: nat, ts: seq<string>, t: string, rest: seq<string>, q: nat)
    requires ts == [t] + rest && ',' !in t && At(f, t + [','], p) && p + |t| + 1 <= |f|
    requires ReadFields(f, p + |t| + 1, |rest|) == if AllFit(rest) then Some((rest, q)) else None
    ensures ReadFields(f, p, |ts|) == if AllFit(ts) then Some((ts, q)) else None
  {
    AllFitCons(ts, t, rest);
    FieldFits(f, p, t, NUM_MAX);
  }

  lemma {:induction false} JoinedAt(f: string, p: nat, ts: seq<string>)
    requires ts != [] && CommaFree(ts) && At(f, Join(ts), p)
    ensures At(f, ts[0] + [','], p) && At(f, Join(ts[1..]), p + |ts[0]| + 1) && ',' !in ts[0] && CommaFree(ts[1..])
  {
    AtConcat(f, ts[0] + [','], Join(ts[1..]), p);
    assert forall i :: 0 <= i < |ts| - 1 ==> ts[1..][i] == ts[i + 1];
  }

  lemma AllFitCons(ts: seq<string>, t: string, rest: seq<string>)
    requires ts == [t] + rest
    ensures AllFit(ts) <==> |t| <= NUM_MAX && AllFit(rest)
  {
    assert ts[0] == t;
    assert forall i :: 0 <= i < |rest| ==> rest[i] == ts[i + 1];
    assert forall i :: 1 <= i < |ts| ==> ts[i] == rest[i - 1];
  }

  function SideCode(side: Side): nat {
    match side
    case Buy => 1
    case Sell => 2
    case NoSide => 0
  }

  /** The side code the frame carries: anything but Buy is printed as SELL. */
  function SentCode(side: Side): nat {
    if side == Buy then 1 else 2
  }

  lemma BuyCut(f: string)
    requires |f| >= 11 && f[..11] == "signal|BUY,"
    ensures ReadSide(f) == Some((1, 10)) && CommaAt(f, 10)
  {
    assert f[..6] == f[..11][..6];
    assert f[7..10] == f[..11][7..10];
    assert f[6] == f[..11][6] && f[10] == f[..11][10];
  }

  lemma SellCut(f: string)
    requires |f| >= 12 && f[..12] == "signal|SELL,"
    ensures ReadSide(f) == Some((2, 11)) && CommaAt(f, 11)
  {
    assert f[..6] == f[..12][..6];
    assert f[7..11] == f[..12][7..11];
    assert f[6] == f[..12][6] && f[7] == f[..12][7] && f[11] == f[..12][11];
    assert f[7..10][0] == 'S';
  }

  lemma HeadCut(f: string, side: Side, n: nat)
    requires At(f, Head(side), 0)
    ensures Cut(f, n) == AfterSide(f, SentCode(side), |Head(side)|, n)
  {
    assert f[0..|Head(side)|] == f[..|Head(side)|];
    if side == Buy {
      BuyCut(f);
    } else {
      SellCut(f);
    }
  }

  lemma {:induction false} Assemble(f: string, side: nat, p: nat, e: nat, reason: string, ts: seq<string>,
                                    q: nat, n: nat)
    requires p <= e < |f| && e == FieldEnd(f, p, REASON_MAX) && FieldText(f, p, REASON_MAX) == reason && CommaAt(f, e)
    requires ReadFields(f, e + 1, n) == Some((ts, q))
    ensures AfterSide(f, side, p, n) == Some(Raw(side, reason, ts, FieldText(f, q, TS_MAX)))
  {
  }

  /** What a body that could be cut consists of. */
  lemma Disassemble(f: string, side: nat, p: nat, e: nat, n: nat)
    requires p <= |f| && AfterSide(f, side, p, n).Some? && e == FieldEnd(f, p, REASON_MAX)
    ensures CommaAt(f, e) && ReadFields(f, e + 1, n).Some?
    ensures AfterSide(f, side, p, n).value.reason == FieldText(f, p, REASON_MAX)
  {
  }

  predicate Plain(s: Signal) {
    ',' !in CStr(s.reason) && |CStr(s.reason)| <= REASON_MAX && AllFit(FixedTexts(Nums(s)))
  }

  /** Where the parts of the printed front lie in a frame that starts with it. */
  lemma FrontParts(f: string, head: string, reason: string, nums: string)
    requires At(f, head + reason + nums, 0)
    ensures At(f, head, 0) && At(f, reason, |head|) && At(f, nums, |head| + |reason|)
  {
    AtConcat(f, head + reason, nums, 0);
    AtConcat(f, head, reason, 0);
  }

  lemma DigitsCommaFree(s: string)
    requires IsDigits(s)
    ensures ',' !in s
  {
  }

  lemma PartsCommaFree(a: string, b: string, c: string, d: string)
    requires ',' !in a && ',' !in b && ',' !in c && ',' !in d
    ensures ',' !in a + b + c + d
  {
  }

  lemma FixedCommaFree(v: int)
    ensures ',' !in PrintFixed(v)
  {
    DigitsCommaFree(Dec(Abs(v) / MILLION));
    DigitsCommaFree(Padded(Abs(v) % MILLION, 6));
    PartsCommaFree(Sign(v), Dec(Abs(v) / MILLION), ['.'], Padded(Abs(v) % MILLION, 6));
  }

  lemma FixedTextsCommaFree(vs: seq<int>)
    ensures CommaFree(FixedTexts(vs))
  {
    forall i | 0 <= i < |vs|
      ensures ',' !in FixedTexts(vs)[i]
    {
      FixedCommaFree(vs[i]);
    }
  }

  lemma {:induction false} PlainBody(f: string, side: nat, p: nat, reason: string, ts: seq<string>, q: nat, n: nat)
    requires At(f, reason + [','], p) && At(f, Join(ts), p + |reason| + 1) && q == p + |reason| + 1 + |Join(ts)|
    requires ',' !in reason && |reason| <= REASON_MAX && |ts| == n && CommaFree(ts) && AllFit(ts)
    ensures q <= |f| && AfterSide(f, side, p, n) == Some(Raw(side, reason, ts, FieldText(f, q, TS_MAX)))
  {
    NumsCut(f, p + |reason| + 1, ts, q, n);
    ReasonCut(f, p, reason);
    Assemble(f, side, p, p + |reason|, reason, ts, q, n);
  }

  lemma NumsCut(f: string, p: nat, ts: seq<string>, q: nat, n: nat)
    requires At(f, Join(ts), p) && q == p + |Join(ts)| && |ts| == n && CommaFree(ts) && AllFit(ts)
    ensures p <= |f| && ReadFields(f, p, n) == Some((ts, q))
  {
    FieldsCut(f, p, ts, q);
  }

  lemma ReasonCut(f: string, p: nat, reason: string)
    requires At(f, reason + [','], p) && ',' !in reason && |reason| <= REASON_MAX
    ensures && FieldEnd(f, p, REASON_MAX) == p + |reason| && FieldText(f, p, REASON_MAX) == reason
            && p + |reason| < |f| && CommaAt(f, p + |reason|)
  {
    FieldFits(f, p, reason, REASON_MAX);
  }

  /** The raw fields of a frame that starts with the printed front of a plain signal. */
  lemma CutPlain(f: string, s: Signal, q: nat, n: nat)
    requires At(f, Front(s), 0) && Plain(s) && q == |Front(s)| && n == |Nums(s)|
    ensures && q <= |f|
            && Cut(f, n) == Some(Raw(SentCode(s.side), CStr(s.reason), FixedTexts(Nums(s)), FieldText(f, q, TS_MAX)))
  {
    var p, reason, ts := |Head(s.side)|, CStr(s.reason), FixedTexts(Nums(s));
    PartsOfFront(f, s, reason, ts);
    PlainBody(f, SentCode(s.side), p, reason, ts, q, n);
    HeadCut(f, s.side, n);
  }

  lemma PartsOfFront(f: string, s: Signal, reason: string, ts: seq<string>)
    requires At(f, Front(s), 0) && reason == CStr(s.reason) && ts == FixedTexts(Nums(s))
    ensures && At(f, Head(s.side), 0) && At(f, reason + [','], |Head(s.side)|)
            && At(f, Join(ts), |Head(s.side)| + |reason| + 1)
            && |ts| == |Nums(s)| && CommaFree(ts)
            && |Front(s)| == |Head(s.side)| + |reason| + 1 + |Join(ts)| <= |f|
  {
    FrontParts(f, Head(s.side), reason + [','], Join(ts));
    FixedTextsCommaFree(Nums(s));
  }

  /** If the reason comes back equal to the original, it had neither NUL nor comma and the numbers fit. */
  lemma CutReason(f: string, head: string, reason: string, ts: seq<string>, e: nat, n: nat)
    requires At(f, head + (CStr(reason) + [',']) + Join(ts), 0) && |head| <= |f| && |ts| == n && CommaFree(ts)
    requires reason == FieldText(f, |head|, REASON_MAX) && e == FieldEnd(f, |head|, REASON_MAX)
    requires CommaAt(f, e) && ReadFields(f, e + 1, n).Some?
    ensures CStr(reason) == reason && ',' !in reason && |reason| <= REASON_MAX && AllFit(ts)
  {
    FrontParts(f, head, CStr(reason) + [','], Join(ts));
    JoinBehind(f, |head|, CStr(reason), ts);
    BodyPlain(f, reason, ts, |head|, e, n);
  }

  lemma JoinBehind(f: string, p: nat, reason: string, ts: seq<string>)
    requires At(f, Join(ts), p + |reason + [',']|)
    ensures At(f, Join(ts), p + |reason| + 1)
  {
  }

  lemma BodyPlain(f: string, reason: string, ts: seq<string>, p: nat, e: nat, n: nat)
    requires At(f, CStr(reason) + [','], p) && At(f, Join(ts), p + |CStr(reason)| + 1) && p <= |f|
    requires |ts| == n && CommaFree(ts) && reason == FieldText(f, p, REASON_MAX)
    requires e == FieldEnd(f, p, REASON_MAX) && CommaAt(f, e) && ReadFields(f, e + 1, n).Some?
    ensures CStr(reason) == reason && ',' !in reason && |reason| <= REASON_MAX && AllFit(ts)
  {
    ReasonWhole(f, reason, p);
    NumsFit(f, e + 1, ts, n);
  }

  lemma ReasonWhole(f: string, reason: string, p: nat)
    requires At(f, CStr(reason) + [','], p) && p <= |f| && reason == FieldText(f, p, REASON_MAX)
    ensures && CStr(reason) == reason && ',' !in reason && |reason| <= REASON_MAX
            && FieldEnd(f, p, REASON_MAX) == p + |reason|
  {
    CommaBehind(f, p, CStr(reason));
  }

  lemma NumsFit(f: string, p: nat, ts: seq<string>, n: nat)
    requires |ts| == n && CommaFree(ts) && At(f, Join(ts), p) && p <= |f|
    requires ReadFields(f, p, n).Some?
    ensures AllFit(ts)
  {
    FieldsCut(f, p, ts, p + |Join(ts)|);
  }

  lemma CommaBehind(f: string, p: nat, field: string)
    requires At(f, field + [','], p)
    ensures p + |field| < |f| && f[p + |field|] == ','
  {
    AtConcat(f, field, [','], p);
    assert f[p + |field|] == f[p + |field|..p + |field| + 1][0];
  }

  function Expected(s: Signal): ExecSignal {
    var m := MILLION as real;
    ExecSignal(SideCode(s.side), s.reason, s.lead as real / m, s.bid as real / m, s.ask as real / m,
               s.threshold as real / m, s.edge as real / m, s.ts)
  }

  predicate Sendable(s: Signal) {
    && s.side != NoSide && s.lead > 0
    && NUL !in s.reason && ',' !in s.reason && |s.reason| <= REASON_MAX
    && AllFit(FixedTexts(Nums(s)))
  }

  /** What the printed numbers are read as. */
  lemma InterpretPrinted(side: nat, reason: string, s: Signal, ts: string)
    ensures var m := MILLION as real;
            Interpret(Raw(side, reason, FixedTexts(Nums(s)), ts)) ==
            if s.lead > 0
            then Some(ExecSignal(side, reason, s.lead as real / m, s.bid as real / m, s.ask as real / m,
                                 s.threshold as real / m, s.edge as real / m, ReadInt(ts)))
            else None
  {
    FixedRoundTrip(s.lead);
    FixedRoundTrip(s.bid);
    FixedRoundTrip(s.ask);
    FixedRoundTrip(s.threshold);
    FixedRoundTrip(s.edge);
  }

  lemma TailCut(f: string, p: nat, t: string)
    requires p <= |f| && f[p..] == t && ',' !in t && |t| <= TS_MAX
    ensures FieldText(f, p, TS_MAX) == t
  {
    assert forall k :: p <= k < |f| ==> f[k] == t[k - p];
  }

  lemma TimeStampFits(t: int64)
    ensures |PrintInt(t)| <= 20
  {
    SmallPowers();
    DecFits(Abs(t), 19);
  }

  lemma TimeStampCut(s: Signal, f: string)
    requires f == Text(s)
    ensures |Front(s)| <= |f| && ReadInt(FieldText(f, |Front(s)|, TS_MAX)) == s.ts
  {
    IntRoundTrip(s.ts);
    TimeStampFits(s.ts);
    SuffixOf(Front(s), PrintInt(s.ts));
    TailCut(f, |Front(s)|, PrintInt(s.ts));
  }

  lemma SuffixOf(a: string, b: string)
    ensures (a + b)[|a|..] == b && At(a + b, a, 0)
  {
  }

  lemma {:induction false} DecFits(n: nat, k: nat)
    requires k > 0
    ensures |Dec(n)| <= k <==> n < Pow10(k)
    decreases k
  {
    if k == 1 {
      assert Pow10(1) == 10;
      if n >= 10 {
        assert |Dec(n)| == |Dec(n / 10)| + 1;
      }
    } else if n >= 10 {
      DecFits(n / 10, k - 1);
    } else {
      assert Pow10(k - 1) >= 1;
    }
  }

  lemma {:induction false} PowShift(k: nat)
    ensures Pow10(k + 6) == Pow10(k) * MILLION
  {
    if k == 0 {
      MillionIsPow();
    } else {
      PowShift(k - 1);
    }
  }

  /** The magnitudes whose text fits a number buffer, exactly. */
  lemma NumberFits(v: int)
    ensures |PrintFixed(v)| <= NUM_MAX <==> Abs(v) < Pow10(if v < 0 then 45 else 46)
  {
    var k := if v < 0 then 39 else 40;
    DecFits(Abs(v) / MILLION, k);
    PowShift(k);
  }

  lemma SmallPowers()
    ensures Pow10(19) == 10_000_000_000_000_000_000
  {
    MillionIsPow();
    assert Pow10(9) == 10 * (10 * (10 * Pow10(6)));
    assert Pow10(12) == 10 * (10 * (10 * Pow10(9)));
    assert Pow10(15) == 10 * (10 * (10 * Pow10(12)));
    assert Pow10(18) == 10 * (10 * (10 * Pow10(15)));
    assert Pow10(19) == 10 * Pow10(18);
  }

  /** A signal survives the wire unchanged if and only if it is sendable. */
  lemma {:induction false} WireRoundTrip(s: Signal)
    ensures Decode(Text(s)) == Some(Expected(s)) <==> Sendable(s)
  {
    var f := Text(s);
    SuffixOf(Front(s), PrintInt(s.ts));
    TimeStampCut(s, f);
    if Sendable(s) {
      SendableComesBack(s, f);
    }
    if Decode(f) == Some(Expected(s)) {
      ComesBackSendable(s, f);
    }
  }

  lemma SendableComesBack(s: Signal, f: string)
    requires Sendable(s) && At(f, Front(s), 0) && |Front(s)| <= |f|
    requires ReadInt(FieldText(f, |Front(s)|, TS_MAX)) == s.ts
    ensures Decode(f) == Some(Expected(s))
  {
    SentDecodes(s, f, FieldText(f, |Front(s)|, TS_MAX));
  }

  /** A sendable signal is decoded with whatever stands in the last field. */
  lemma SentDecodes(s: Signal, f: string, t: string)
    requires Sendable(s) && At(f, Front(s), 0) && |Front(s)| <= |f| && t == FieldText(f, |Front(s)|, TS_MAX)
    ensures Decode(f) == Some(Expected(s).(ts := ReadInt(t)))
  {
    var raw := SentRaw(s, f, t, |Nums(s)|);
  }

  lemma SentRaw(s: Signal, f: string, t: string, n: nat) returns (raw: Raw)
    requires Sendable(s) && At(f, Front(s), 0) && |Front(s)| <= |f| && t == FieldText(f, |Front(s)|, TS_MAX)
    requires n == NUM_COUNT
    ensures Cut(f, n) == Some(raw) && |raw.texts| == n && Interpret(raw) == Some(Expected(s).(ts := ReadInt(t)))
  {
    raw := Raw(SentCode(s.side), s.reason, FixedTexts(Nums(s)), t);
    SendablePlain(s);
    CutPlain(f, s, |Front(s)|, n);
    InterpretPrinted(SentCode(s.side), s.reason, s, t);
  }

  lemma SendablePlain(s: Signal)
    requires Sendable(s)
    ensures Plain(s) && CStr(s.reason) == s.reason
  {
  }

  lemma ComesBackSendable(s: Signal, f: string)
    requires At(f, Front(s), 0) && Decode(f) == Some(Expected(s))
    ensures Sendable(s)
  {
    ReasonSurvived(s, f, NUM_COUNT);
    NumbersSurvived(s, f);
    assert FindByte(s.reason, NUL, 0) < 0;
  }

  lemma ReasonSurvived(s: Signal, f: string, n: nat)
    requires n == |Nums(s)| && At(f, Front(s), 0) && Cut(f, n).Some? && Cut(f, n).value.reason == s.reason
    ensures CStr(s.reason) == s.reason && Plain(s)
  {
    HeadInFront(f, s);
    HeadCut(f, s.side, n);
    BodyReason(f, s, SentCode(s.side), |Head(s.side)|, n);
  }

  lemma BodyReason(f: string, s: Signal, side: nat, p: nat, n: nat)
    requires At(f, Front(s), 0) && p == |Head(s.side)| <= |f| && n == |Nums(s)|
    requires AfterSide(f, side, p, n).Some? && AfterSide(f, side, p, n).value.reason == s.reason
    ensures CStr(s.reason) == s.reason && Plain(s)
  {
    var e := FieldEnd(f, p, REASON_MAX);
    Disassemble(f, side, p, e, n);
    FixedTextsCommaFree(Nums(s));
    CutReason(f, Head(s.side), s.reason, FixedTexts(Nums(s)), e, n);
  }

  lemma NumbersSurvived(s: Signal, f: string)
    requires At(f, Front(s), 0) && Decode(f) == Some(Expected(s)) && Plain(s)
    ensures s.lead > 0 && s.side != NoSide
  {
    CutPlain(f, s, |Front(s)|, NUM_COUNT);
    InterpretPrinted(SentCode(s.side), CStr(s.reason), s, FieldText(f, |Front(s)|, TS_MAX));
  }

  lemma HeadInFront(f: string, s: Signal)
    requires At(f, Front(s), 0)
    ensures At(f, Head(s.side), 0)
  {
    FrontParts(f, Head(s.side), CStr(s.reason) + [','], Join(FixedTexts(Nums(s))));
  }

  // ------------------------------------------------------------------
  // Truncated frames
  // ------------------------------------------------------------------

  function Commas(s: string): nat {
    if s == "" then 0 else Commas(s[..|s| - 1]) + (if s[|s| - 1] == ',' then 1 else 0)
  }

  lemma {:induction false} CommasConcat(a: string, b: string)
    ensures Commas(a + b) == Commas(a) + Commas(b)
    decreases |b|
  {
    if b == "" {
      assert a + b == a;
    } else {
      var c := b[..|b| - 1];
      assert (a + b)[..|a + b| - 1] == a + c;
      CommasConcat(a, c);
    }
  }

  lemma {:induction false} NoCommas(s: string)
    ensures Commas(s) == 0 <==> ',' !in s
  {
    if s != "" {
      var c := s[..|s| - 1];
      NoCommas(c);
      assert s == c + [s[|s| - 1]];
    }
  }

  /** Passing a comma adds one to the count. */
  lemma CommaPassed(f: string, p: nat, e: nat)
    requires p <= e && CommaAt(f, e)
    ensures Commas(f[..e + 1]) >= Commas(f[..p]) + 1
  {
    assert f[..e + 1] == f[..p] + f[p..e] + [','];
    CommasConcat(f[..p] + f[p..e], [',']);
    CommasConcat(f[..p], f[p..e]);
    assert Commas([',']) == Commas([]) + 1;
  }

  lemma {:induction false} FieldsPassed(f: string, p: nat, count: nat, r: (seq<string>, nat))
    requires p <= |f| && ReadFields(f, p, count) == Some(r)
    ensures r.1 <= |f| && Commas(f[..r.1]) >= Commas(f[..p]) + count
    decreases count
  {
    if count > 0 {
      var e := FieldEnd(f, p, NUM_MAX);
      var rest := ReadFields(f, e + 1, count - 1);
      CommaPassed(f, p, e);
      FieldsPassed(f, e + 1, count - 1, rest.value);
    }
  }

  /** A frame that decodes has at least seven commas. */
  lemma DecodedCommas(f: string)
    requires Decode(f).Some?
    ensures Commas(f) >= 7
  {
    CutCommas(f, NUM_COUNT);
  }

  lemma CutCommas(f: string, n: nat)
    requires Cut(f, n).Some?
    ensures Commas(f) >= 2 + n
  {
    var side, p := SideOf(f, n);
    SideCommas(f, side, p, n);
  }

  lemma SideOf(f: string, n: nat) returns (side: nat, p: nat)
    requires Cut(f, n).Some?
    ensures CommaAt(f, p) && AfterSide(f, side, p + 1, n).Some?
  {
    side, p := ReadSide(f).value.0, ReadSide(f).value.1;
  }

  lemma SideCommas(f: string, side: nat, p: nat, n: nat)
    requires CommaAt(f, p) && AfterSide(f, side, p + 1, n).Some?
    ensures Commas(f) >= 2 + n
  {
    RestCommas(f, side, p + 1, n);
  }

  lemma RestCommas(f: string, side: nat, p: nat, n: nat)
    requires p <= |f| && AfterSide(f, side, p, n).Some?
    ensures Commas(f) >= Commas(f[..p]) + 1 + n
  {
    Disassemble(f, side, p, FieldEnd(f, p, REASON_MAX), n);
    BodyCommas(f, p, n);
  }

  lemma BodyCommas(f: string, p: nat, count: nat)
    requires p <= |f| && CommaAt(f, FieldEnd(f, p, REASON_MAX))
    requires ReadFields(f, FieldEnd(f, p, REASON_MAX) + 1, count).Some?
    ensures Commas(f) >= Commas(f[..p]) + 1 + count
  {
    var e := FieldEnd(f, p, REASON_MAX);
    CommaPassed(f, p, e);
    var r := ReadFields(f, e + 1, count).value;
    FieldsPassed(f, e + 1, count, r);
    PrefixFewer(f, r.1);
  }

  lemma PrefixFewer(f: string, q: nat)
    requires q <= |f|
    ensures Commas(f[..q]) <= Commas(f)
  {
    assert f == f[..q] + f[q..];
    CommasConcat(f[..q], f[q..]);
  }

  lemma {:induction false} JoinCommas(ts: seq<string>)
    requires CommaFree(ts)
    ensures Commas(Join(ts)) == |ts| && (ts != [] ==> Join(ts) != "" && Join(ts)[|Join(ts)| - 1] == ',')
  {
    if ts != [] {
      assert forall i :: 0 <= i < |ts| - 1 ==> ts[1..][i] == ts[i + 1];
      JoinCommas(ts[1..]);
      NoCommas(ts[0]);
      CommasConcat(ts[0] + [','], Join(ts[1..]));
      CommasConcat(ts[0], [',']);
      assert Commas([',']) == Commas([]) + 1;
    }
  }

  lemma HeadCommas(side: Side)
    ensures Commas(Head(side)) == 1
  {
    var body := "signal|" + SideText(side);
    NoCommas(body);
    CommasConcat(body, [',']);
    assert Commas([',']) == Commas([]) + 1;
  }

  /** The printed front ends in its seventh comma. */
  lemma FrontCommas(s: Signal)
    requires ',' !in CStr(s.reason)
    ensures Commas(Front(s)) == 7 && Front(s) != "" && Front(s)[|Front(s)| - 1] == ','
  {
    var reason, ts := CStr(s.reason), FixedTexts(Nums(s));
    FixedTextsCommaFree(Nums(s));
    JoinCommas(ts);
    HeadCommas(s.side);
    NoCommas(reason);
    CommasConcat(reason, [',']);
    assert Commas([',']) == Commas([]) + 1;
    CommasConcat(Head(s.side), reason + [',']);
    CommasConcat(Head(s.side) + (reason + [',']), Join(ts));
  }

  lemma {:induction false} PrefixCommas(a: string, b: string, k: nat)
    requires a != "" && a[|a| - 1] == ',' && k < |a|
    ensures Commas((a + b)[..k]) < Commas(a)
  {
    assert (a + b)[..k] == a[..k];
    CommaPassed(a, k, |a| - 1);
    assert a[..|a|] == a;
  }

  /** Whatever short comma-free text stands in the last field is read as the time stamp. */
  lemma AnyStamp(s: Signal, f: string, t: string)
    requires Sendable(s) && f == Front(s) + t && ',' !in t && |t| <= TS_MAX
    ensures Decode(f) == Some(Expected(s).(ts := ReadInt(t)))
  {
    SuffixOf(Front(s), t);
    TailCut(f, |Front(s)|, t);
    SentDecodes(s, f, t);
  }

  /** Cut short after its seventh comma, a frame still decodes, with the time stamp read off what is left of it. */
  lemma {:induction false} TruncatedStamp(s: Signal, k: nat)
    requires Sendable(s) && |Front(s)| <= k <= |Text(s)|
    ensures Decode(Text(s)[..k]) == Some(Expected(s).(ts := ReadInt(PrintInt(s.ts)[..k - |Front(s)|])))
  {
    var f, t := Text(s)[..k], PrintInt(s.ts)[..k - |Front(s)|];
    assert f == Front(s) + t;
    TimeStampFits(s.ts);
    AnyStamp(s, f, t);
  }

  /** A truncated frame is rejected exactly when it lacks the seventh comma. */
  lemma {:induction false} Truncation(s: Signal, k: nat)
    requires Sendable(s) && k <= |Text(s)|
    ensures Decode(Text(s)[..k]).Some? <==> Commas(Text(s)[..k]) >= 7
    ensures Decode(Text(s)[..k]).Some? <==> k >= |Front(s)|
  {
    assert CStr(s.reason) == s.reason;
    FrontCommas(s);
    if k < |Front(s)| {
      PrefixCommas(Front(s), PrintInt(s.ts), k);
      if Decode(Text(s)[..k]).Some? {
        DecodedCommas(Text(s)[..k]);
      }
    } else {
      TruncatedStamp(s, k);
      DecodedCommas(Text(s)[..k]);
    }
  }
}
