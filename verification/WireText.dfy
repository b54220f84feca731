/**
 * The frames of the signal wire, byte by byte: what the printers write, what the number readers take off any text,
 * which signals fit the decoder's buffers, and that the parser does without the topic.
 */
module WireText {
  import opened Decimal
  import opened WireCodec
  import opened Wrappers

  // ------------------------------------------------------------------
  // The printed frame
  // ------------------------------------------------------------------

  lemma {:induction false} Associate(a: string, b: string, c: string)
    ensures a + (b + c) == a + b + c
  {
  }

  lemma {:induction false} JoinFirst(ts: seq<string>, t: string, rest: seq<string>)
    requires ts == [t] + rest
    ensures Join(ts) == t + "," + Join(rest)
  {
    assert ts[1..] == rest;
  }

  /** A frame: topic and side, reason, the five numbers, each with its comma, and the time stamp. */
  lemma {:induction false} TextOnWire(s: Signal)
    requires NUL !in s.reason
    ensures Text(s) == Join(["signal|" + (if s.side == Buy then "BUY" else "SELL"), s.reason, PrintFixed(s.lead),
                             PrintFixed(s.bid), PrintFixed(s.ask), PrintFixed(s.threshold), PrintFixed(s.edge)])
                       + PrintInt(s.ts)
  {
    var side, nums := "signal|" + (if s.side == Buy then "BUY" else "SELL"), FixedTexts(Nums(s));
    assert CStr(s.reason) == s.reason;
    FrontJoins(side, s.reason, nums);
    Listed(side, s.reason, nums);
  }

  lemma {:induction false} Listed(side: string, reason: string, nums: seq<string>)
    requires |nums| == 5
    ensures [side, reason] + nums == [side, reason, nums[0], nums[1], nums[2], nums[3], nums[4]]
  {
  }

  lemma {:induction false} FrontJoins(side: string, reason: string, nums: seq<string>)
    ensures Join([side, reason] + nums) == (side + ",") + (reason + ",") + Join(nums)
  {
    JoinFirst([reason] + nums, reason, nums);
    assert [side, reason] + nums == [side] + ([reason] + nums);
    JoinFirst([side, reason] + nums, side, [reason] + nums);
    Associate(side + ",", reason + ",", Join(nums));
  }

  /** Six decimals: the whole millionths behind the point, the rest in front of it without leading zeros. */
  lemma {:induction false} FixedShape(v: int) returns (whole: string, decimals: string)
    ensures PrintFixed(v) == (if v < 0 then "-" else "") + whole + "." + decimals
    ensures IsDigits(whole) && IsDigits(decimals) && |decimals| == 6
    ensures Val(whole) * 1_000_000 + Val(decimals) == (if v < 0 then -v else v)
    ensures |whole| > 1 ==> whole[0] != '0'
  {
    var a := Abs(v);
    whole, decimals := Dec(a / MILLION), Padded(a % MILLION, 6);
    ValDec(a / MILLION);
    MillionIsPow();
    ValPadded(a % MILLION, 6);
    NoLeadingZero(a / MILLION);
  }

  /** The time stamp: a whole number without leading zeros. */
  lemma {:induction false} IntShape(v: int) returns (digits: string)
    ensures PrintInt(v) == (if v < 0 then "-" else "") + digits && IsDigits(digits)
    ensures Val(digits) == (if v < 0 then -v else v) && (|digits| > 1 ==> digits[0] != '0')
  {
    digits := Dec(Abs(v));
    ValDec(Abs(v));
    NoLeadingZero(Abs(v));
  }

  lemma {:induction false} NoLeadingZero(n: nat)
    ensures |Dec(n)| > 1 ==> Dec(n)[0] != '0'
    ensures n > 0 ==> Dec(n)[0] != '0'
  {
    if n >= 10 {
      NoLeadingZero(n / 10);
    }
  }

  // ------------------------------------------------------------------
  // Number readers
  // ------------------------------------------------------------------

  /** Blanks up to `i`, and from there a sign before the digits, or the digits at once. */
  predicate FrontOf(t: string, i: nat, j: nat, negative: bool) {
    && i <= j <= |t| && i < |t|
    && (forall k :: 0 <= k < i ==> t[k] == ' ' || '\t' <= t[k] <= '\r')
    && if j == i then '0' <= t[i] <= '9' && !negative
       else j == i + 1 && (if negative then t[i] == '-' else t[i] == '+')
  }

  /** The digits from `j` end at `k`. */
  predicate RunOf(t: string, j: nat, k: nat) {
    && j <= k <= |t| && (forall i :: j <= i < k ==> '0' <= t[i] <= '9')
    && (k < |t| ==> !('0' <= t[k] <= '9'))
  }

  lemma {:induction false} SkipsBlank(t: string, i: nat, from: nat)
    requires from <= i < |t| && !IsSpace(t[i]) && forall k :: from <= k < i ==> IsSpace(t[k])
    ensures SkipSpace(t, from) == i
    decreases i - from
  {
    if from < i {
      SkipsBlank(t, i, from + 1);
    }
  }

  lemma SignTaken(t: string, i: nat, j: nat, negative: bool)
    requires FrontOf(t, i, j, negative)
    ensures ReadSign(t) == Unsigned(negative, j)
  {
    SkipsBlank(t, i, 0);
  }

  /** An integer text: blanks, a sign, digits; what follows is ignored. */
  lemma IntTaken(t: string, i: nat, j: nat, k: nat, negative: bool)
    requires FrontOf(t, i, j, negative) && RunOf(t, j, k)
    ensures ReadInt(t) == (if negative then -1 else 1) * Val(t[j..k])
  {
    SignTaken(t, i, j, negative);
  }

  /** A decimal text: blanks, a sign, digits, a point and digits; what follows is ignored. */
  lemma RealTaken(t: string, i: nat, j: nat, k: nat, e: nat, negative: bool) returns (v: real)
    requires FrontOf(t, i, j, negative) && RunOf(t, j, k) && k < |t| && t[k] == '.' && RunOf(t, k + 1, e)
    ensures v == Val(t[j..k]) as real + Val(t[k + 1..e]) as real / Pow10(e - k - 1) as real
    ensures ReadReal(t) == if negative then -v else v
  {
    SignTaken(t, i, j, negative);
    v := Scaled(t[j..k], t[k + 1..e]);
  }

  /** Without a point it is read as a whole number. */
  lemma WholeTaken(t: string, i: nat, j: nat, k: nat, negative: bool) returns (v: real)
    requires FrontOf(t, i, j, negative) && RunOf(t, j, k) && (k < |t| ==> t[k] != '.')
    ensures v == Val(t[j..k]) as real && ReadReal(t) == if negative then -v else v
  {
    SignTaken(t, i, j, negative);
    assert Val("") == 0 && Pow10(0) == 1;
    v := Scaled(t[j..k], "");
  }

  // ------------------------------------------------------------------
  // Limits
  // ------------------------------------------------------------------

  /** In millionths: 47 bytes with sign, point and six decimals. */
  predicate Fits(v: int) {
    v < Pow10(46) && -v < Pow10(45)
  }

  lemma {:induction false} FitsIs(v: int)
    ensures Fits(v) <==> |PrintFixed(v)| <= NUM_MAX
  {
    NumberFits(v);
  }

  /** What comes back: a side, a positive lead, a reason of 23 bytes without comma and NUL, and numbers that fit. */
  lemma {:induction false} SendableIs(s: Signal)
    ensures Sendable(s) <==>
              && (s.side == Buy || s.side == Sell) && s.lead > 0
              && |s.reason| <= 23 && ',' !in s.reason && '\0' !in s.reason
              && Fits(s.lead) && Fits(s.bid) && Fits(s.ask) && Fits(s.threshold) && Fits(s.edge)
  {
    FitsIs(s.lead);
    FitsIs(s.bid);
    FitsIs(s.ask);
    FitsIs(s.threshold);
    FitsIs(s.edge);
    FiveFit(FixedTexts(Nums(s)));
  }

  lemma {:induction false} FiveFit(ts: seq<string>)
    requires |ts| == 5
    ensures AllFit(ts) <==> && |ts[0]| <= NUM_MAX && |ts[1]| <= NUM_MAX && |ts[2]| <= NUM_MAX
                            && |ts[3]| <= NUM_MAX && |ts[4]| <= NUM_MAX
  {
  }

  /** The stamp is read off the last field up to a comma, the end, or 31 bytes, and what follows is ignored. */
  lemma {:induction false} StampRead(s: Signal, t: string, k: nat)
    requires Sendable(s) && k <= |t| && ',' !in t[..k] && (k == 31 || (k < 31 && (k == |t| || t[k] == ',')))
    ensures Decode(Front(s) + t) == Some(Expected(s).(ts := ReadInt(t[..k])))
  {
    var f := Front(s) + t;
    SuffixOf(Front(s), t);
    LastField(f, |Front(s)|, t, k);
    SentDecodes(s, f, t[..k]);
  }

  lemma {:induction false} LastField(f: string, q: nat, t: string, k: nat)
    requires q <= |f| && f[q..] == t && k <= |t| && ',' !in t[..k]
    requires k == 31 || (k < 31 && (k == |t| || t[k] == ','))
    ensures FieldText(f, q, TS_MAX) == t[..k]
  {
    var e := FieldEnd(f, q, TS_MAX);
    assert forall i :: q <= i < |f| ==> f[i] == t[i - q];
    assert forall i :: 0 <= i < k ==> t[i] == t[..k][i];
    assert e == q + k;
    assert f[q..e] == t[..k];
  }

  // ------------------------------------------------------------------
  // The optional topic
  // ------------------------------------------------------------------

  /** `f` starts with this side. */
  predicate Sided(f: string, side: string) {
    |f| >= |side| && f[..|side|] == side
  }

  lemma {:induction false} SideAfter(g: string, q: nat)
    requires q == (if |g| >= 6 && g[..6] == "signal" then 6 else 0)
    ensures ReadSide(g) ==
            var k := if q < |g| && g[q] == '|' then q + 1 else q;
            if Sided(g[k..], "BUY") then Some((1, k + 3)) else if Sided(g[k..], "SELL") then Some((2, k + 4)) else None
  {
    var k := if q < |g| && g[q] == '|' then q + 1 else q;
    assert k + 3 <= |g| ==> g[k..][..3] == g[k..k + 3];
    assert k + 4 <= |g| ==> g[k..][..4] == g[k..k + 4];
  }

  lemma {:induction false} FirstLetter(f: string)
    requires Sided(f, "BUY") || Sided(f, "SELL")
    ensures f[0] == 'B' || f[0] == 'S'
  {
    if Sided(f, "BUY") {
      assert f[0] == f[..3][0];
    } else {
      assert f[0] == f[..4][0];
    }
  }

  lemma {:induction false} NoTopic(a: string, f: string)
    requires a in {"", "|"} && |f| >= 1 && (f[0] == 'B' || f[0] == 'S')
    ensures !(|a + f| >= 6 && (a + f)[..6] == "signal")
  {
    var g := a + f;
    assert g[|a|] == f[0];
    if |g| >= 6 {
      assert g[..6][|a|] == f[0];
      assert "signal"[0] == 's' && "signal"[1] == 'i';
    }
  }

  lemma {:induction false} TopicFound(a: string, f: string)
    requires a in {"signal", "signal|"}
    ensures |a + f| >= 6 && (a + f)[..6] == "signal"
  {
  }

  lemma {:induction false} SideAt(a: string, f: string)
    requires a in {"", "|", "signal", "signal|"} && (Sided(f, "BUY") || Sided(f, "SELL"))
    ensures ReadSide(a + f) == if Sided(f, "BUY") then Some((1, |a| + 3)) else Some((2, |a| + 4))
  {
    var g := a + f;
    FirstLetter(f);
    assert g[|a|] == f[0] && g[|a|..] == f;
    if a == "" || a == "|" {
      NoTopic(a, f);
      SideAfter(g, 0);
    } else {
      TopicFound(a, f);
      SideAfter(g, 6);
    }
  }

  lemma CutAt(f: string, side: nat, k: nat, n: nat)
    requires ReadSide(f) == Some((side, k)) && k < |f| && f[k] == ','
    ensures Cut(f, n) == AfterSide(f, side, k + 1, n)
  {
  }

  /** From `a` on, `f` reads as `t` does from `b` on. */
  predicate Agree(f: string, a: nat, t: string, b: nat) {
    a <= |f| && b <= |t| && |f| - a == |t| - b && forall k :: 0 <= k < |f| - a ==> Same(f, a, t, b, k)
  }

  predicate Same(f: string, a: nat, t: string, b: nat, k: nat) {
    a + k < |f| && b + k < |t| && f[a + k] == t[b + k]
  }

  lemma {:induction false} AgreeLater(f: string, a: nat, t: string, b: nat, k: nat)
    requires Agree(f, a, t, b) && a + k <= |f|
    ensures b + k <= |t| && Agree(f, a + k, t, b + k)
    ensures CommaAt(f, a + k) == CommaAt(t, b + k)
  {
    var c, d := a + k, b + k;
    assert c < |f| ==> Same(f, a, t, b, k);
    forall i | 0 <= i < |f| - c
      ensures Same(f, c, t, d, i)
    {
      assert Same(f, a, t, b, k + i);
    }
  }

  lemma {:induction false} AgreeOn(f: string, a: nat, t: string, b: nat, k: nat)
    requires Agree(f, a, t, b) && a + k <= |f|
    ensures b + k <= |t| && f[a..a + k] == t[b..b + k]
  {
    var x, y := f[a..a + k], t[b..b + k];
    forall i | 0 <= i < k
      ensures x[i] == y[i]
    {
      assert Same(f, a, t, b, i);
    }
  }

  lemma {:induction false} StopAgrees(f: string, a: nat, t: string, b: nat, max: nat)
    requires Agree(f, a, t, b)
    ensures StopAt(f, a, a + max) - a == StopAt(t, b, b + max) - b
    decreases max
  {
    AgreeLater(f, a, t, b, 0);
    if a < |f| && max > 0 {
      AgreeLater(f, a, t, b, 1);
      StopAgrees(f, a + 1, t, b + 1, max - 1);
    }
  }

  lemma {:induction false} FieldAgrees(f: string, a: nat, t: string, b: nat, max: nat) returns (d: nat, e: nat)
    requires Agree(f, a, t, b)
    ensures d == FieldEnd(f, a, max) && e == FieldEnd(t, b, max) && FieldText(f, a, max) == FieldText(t, b, max)
    ensures CommaAt(f, d) == CommaAt(t, e) && (CommaAt(f, d) ==> Agree(f, d + 1, t, e + 1))
  {
    d, e := FieldEnd(f, a, max), FieldEnd(t, b, max);
    StopAgrees(f, a, t, b, max);
    AgreeOn(f, a, t, b, d - a);
    AgreeLater(f, a, t, b, d - a);
    if CommaAt(f, d) {
      AgreeLater(f, a, t, b, d - a + 1);
    }
  }

  lemma {:induction false} FieldsAgree(f: string, a: nat, t: string, b: nat, n: nat)
    returns (q: Option<(seq<string>, nat)>, r: Option<(seq<string>, nat)>)
    requires Agree(f, a, t, b)
    ensures q == ReadFields(f, a, n) && r == ReadFields(t, b, n) && (q.Some? <==> r.Some?)
    ensures q.Some? ==> q.value.0 == r.value.0 && Agree(f, q.value.1, t, r.value.1)
    decreases n
  {
    q, r := ReadFields(f, a, n), ReadFields(t, b, n);
    if n > 0 {
      var d, e := FieldAgrees(f, a, t, b, NUM_MAX);
      if CommaAt(f, d) {
        var q', r' := FieldsAgree(f, d + 1, t, e + 1, n - 1);
      }
    }
  }

  /** Only what stands behind the side matters for the rest of a frame. */
  lemma {:induction false} BodyAgrees(f: string, a: nat, t: string, b: nat, side: nat, n: nat)
    requires Agree(f, a, t, b)
    ensures AfterSide(f, side, a, n) == AfterSide(t, side, b, n)
  {
    var d, e := FieldAgrees(f, a, t, b, REASON_MAX);
    if CommaAt(f, d) {
      var q, r := FieldsAgree(f, d + 1, t, e + 1, n);
      if q.Some? {
        var _, _ := FieldAgrees(f, q.value.1, t, r.value.1, TS_MAX);
      }
      SameBody(f, a, d, q, t, b, e, r, side, n);
    } else {
      NoBody(f, a, t, b, side, n);
    }
  }

  lemma {:induction false} NoBody(f: string, a: nat, t: string, b: nat, side: nat, n: nat)
    requires a <= |f| && !CommaAt(f, FieldEnd(f, a, REASON_MAX))
    requires b <= |t| && !CommaAt(t, FieldEnd(t, b, REASON_MAX))
    ensures AfterSide(f, side, a, n) == AfterSide(t, side, b, n)
  {
  }

  lemma {:induction false} SameBody(f: string, a: nat, d: nat, q: Option<(seq<string>, nat)>, t: string, b: nat, e: nat,
                                    r: Option<(seq<string>, nat)>, side: nat, n: nat)
    requires a <= |f| && d == FieldEnd(f, a, REASON_MAX) && CommaAt(f, d) && q == ReadFields(f, d + 1, n)
    requires b <= |t| && e == FieldEnd(t, b, REASON_MAX) && CommaAt(t, e) && r == ReadFields(t, e + 1, n)
    requires FieldText(f, a, REASON_MAX) == FieldText(t, b, REASON_MAX) && (q.Some? <==> r.Some?)
    requires q.Some? ==> q.value.0 == r.value.0 && q.value.1 <= |f| && r.value.1 <= |t|
    requires q.Some? ==> FieldText(f, q.value.1, TS_MAX) == FieldText(t, r.value.1, TS_MAX)
    ensures AfterSide(f, side, a, n) == AfterSide(t, side, b, n)
  {
  }

  lemma {:induction false} CutAgrees(f: string, a: nat, t: string, b: nat, code: nat, n: nat)
    requires Agree(f, a, t, b) && ReadSide(f) == Some((code, a)) && ReadSide(t) == Some((code, b))
    ensures Cut(f, n) == Cut(t, n)
  {
    AgreeLater(f, a, t, b, 0);
    if CommaAt(f, a) {
      CutAt(f, code, a, n);
      CutAt(t, code, b, n);
      AgreeLater(f, a, t, b, 1);
      BodyAgrees(f, a + 1, t, b + 1, code, n);
    }
  }

  lemma {:induction false} SideAgrees(a: string, t: string) returns (code: nat, k: nat)
    requires a in {"", "|", "signal", "signal|"} && (Sided(t, "BUY") || Sided(t, "SELL"))
    ensures ReadSide(a + t) == Some((code, |a| + k)) && ReadSide(t) == Some((code, k)) && k <= |t|
  {
    SideAt(a, t);
    BareSide(t);
    code, k := if Sided(t, "BUY") then 1 else 2, if Sided(t, "BUY") then 3 else 4;
  }

  lemma {:induction false} BareSide(t: string)
    requires Sided(t, "BUY") || Sided(t, "SELL")
    ensures ReadSide(t) == if Sided(t, "BUY") then Some((1, 3)) else Some((2, 4))
  {
    SideAt("", t);
    assert "" + t == t;
  }

  lemma {:induction false} Apart(a: string, t: string, k: nat)
    requires k <= |t|
    ensures Agree(a + t, |a| + k, t, k)
  {
    var f, m := a + t, |a| + k;
    forall i | 0 <= i < |t| - k
      ensures Same(f, m, t, k, i)
    {
    }
  }

  lemma {:induction false} DecodeByCut(f: string, t: string, n: nat)
    requires n == NUM_COUNT && Cut(f, n) == Cut(t, n)
    ensures Decode(f) == Decode(t)
  {
  }

  /** The topic and the bar behind it are optional: a frame decodes alike with them and without. */
  lemma {:induction false} TopicOptional(a: string, t: string)
    requires a in {"", "|", "signal", "signal|"} && (Sided(t, "BUY") || Sided(t, "SELL"))
    ensures Decode(a + t) == Decode(t)
  {
    var code, k := SideAgrees(a, t);
    Apart(a, t, k);
    CutAgrees(a + t, |a| + k, t, k, code, NUM_COUNT);
    DecodeByCut(a + t, t, NUM_COUNT);
  }

  /** Without a side behind the optional topic nothing is decoded. */
  lemma {:induction false} NoSideRefused(f: string)
    requires forall k :: 0 <= k <= |f| ==> !Sided(f[k..], "BUY") && !Sided(f[k..], "SELL")
    ensures Decode(f) == None
  {
    SideAfter(f, if |f| >= 6 && f[..6] == "signal" then 6 else 0);
  }
}
