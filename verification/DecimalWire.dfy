/**
 * Decimal text for fixed-point values (include/flox/util/decimal_wire.h:33-148): parsing accepts exactly
 * the unsigned decimals the scale can carry, printing emits the shortest such text, and the two undo
 * each other.
 */
module DecimalWire {
  import Arith
  import opened OrderBook

  const SCALE := 100_000_000
  const FRAC_DIGITS := 8
  const MAX_RAW := 0x7FFF_FFFF_FFFF_FFFF

  // ---- digit strings ------------------------------------------------------

  predicate IsDigit(c: char) {
    '0' <= c <= '9'
  }

  predicate Digits(s: string) {
    forall k :: 0 <= k < |s| ==> IsDigit(s[k])
  }

  function Chr(d: nat): (c: char)
    requires d < 10
    ensures IsDigit(c) && Val(c) == d
  {
    '0' + d as char
  }

  function Val(c: char): (d: nat)
    requires IsDigit(c)
    ensures d < 10
  {
    (c as int) - ('0' as int)
  }

  function Num(s: string): nat
    requires Digits(s)
  {
    if s == "" then 0 else 10 * Num(s[..|s| - 1]) + Val(s[|s| - 1])
  }

  function Pow10(n: nat): (p: nat)
    ensures p > 0
  {
    if n == 0 then 1 else 10 * Pow10(n - 1)
  }

  lemma {:induction false} NumNext(s: string, c: char)
    requires Digits(s) && IsDigit(c)
    ensures Digits(s + [c]) && Num(s + [c]) == 10 * Num(s) + Val(c)
  {
    assert (s + [c])[..|s|] == s;
  }

  lemma {:induction false} NumBound(s: string)
    requires Digits(s)
    ensures Num(s) < Pow10(|s|)
  {
    if s != "" { NumBound(s[..|s| - 1]); }
  }

  // ---- what a text means --------------------------------------------------

  /** A decimal text taken apart: whole digits, and fraction digits after a point if there is one. */
  datatype Parts = Parts(whole: string, frac: Option<string>)

  function Joined(p: Parts): string {
    p.whole + if p.frac.Some? then "." + p.frac.value else ""
  }

  ghost predicate WellFormed(p: Parts) {
    && p.whole != "" && Digits(p.whole)
    && (p.frac.Some? ==> 1 <= |p.frac.value| <= FRAC_DIGITS && Digits(p.frac.value))
  }

  /** The raw value, exactly. */
  function Meaning(p: Parts): nat
    requires Digits(p.whole) && (p.frac.Some? ==> |p.frac.value| <= FRAC_DIGITS && Digits(p.frac.value))
  {
    Num(p.whole) * SCALE + if p.frac.Some? then Num(p.frac.value) * Pow10(FRAC_DIGITS - |p.frac.value|) else 0
  }

  /** `t` is a decimal the scale can carry, with value `raw`. */
  ghost predicate Denotes(t: string, p: Parts, raw: int) {
    WellFormed(p) && t == Joined(p) && Meaning(p) == raw <= MAX_RAW
  }

  // ---- parsing ------------------------------------------------------------

  /** The longest run of digits at `i`. */
  function RunAt(t: string, i: nat): (j: nat)
    requires i <= |t|
    ensures i <= j <= |t| && Digits(t[i..j]) && (j < |t| ==> !IsDigit(t[j]))
    decreases |t| - i
  {
    if i < |t| && IsDigit(t[i]) then
      var j := RunAt(t, i + 1);
      assert t[i..j] == [t[i]] + t[i + 1..j];
      j
    else i
  }

  /** How a text splits, whatever it is. */
  function SplitOf(t: string): Option<Parts> {
    var i := RunAt(t, 0);
    if i == |t| then Some(Parts(t, None))
    else if t[i] != '.' then None
    else
      var j := RunAt(t, i + 1);
      if j != |t| then None else Some(Parts(t[..i], Some(t[i + 1..])))
  }

  /** A well-formed text splits one way only. */
  lemma {:induction false} SplitJoined(p: Parts)
    requires WellFormed(p)
    ensures SplitOf(Joined(p)) == Some(p)
  {
    var t, n := Joined(p), |p.whole|;
    RunIs(t, 0, n);
    assert t[..n] == p.whole;
    if p.frac.Some? {
      assert t[n] == '.' && t[n + 1..] == p.frac.value;
      RunIs(t, n + 1, |t|);
    } else {
      assert t == p.whole;
    }
  }

  lemma {:induction false} RunIs(t: string, i: nat, j: nat)
    requires i <= j <= |t| && (forall k :: i <= k < j ==> IsDigit(t[k])) && (j < |t| ==> !IsDigit(t[j]))
    ensures RunAt(t, i) == j
    decreases j - i
  {
    if i < j { RunIs(t, i + 1, j); }
  }

  lemma {:induction false} SplitJoins(t: string)
    ensures SplitOf(t).Some? ==> Joined(SplitOf(t).value) == t && Digits(SplitOf(t).value.whole)
    ensures SplitOf(t).Some? && SplitOf(t).value.frac.Some? ==> Digits(SplitOf(t).value.frac.value)
  {
    var i := RunAt(t, 0);
    assert t[0..i] == t[..i];
    if i == |t| {
      assert t[..i] == t && t + "" == t;
    } else if t[i] == '.' {
      var j := RunAt(t, i + 1);
      if j == |t| {
        assert t[i + 1..j] == t[i + 1..];
        assert t == t[..i] + ("." + t[i + 1..]);
      }
    }
  }

  /** A fraction is worth less than one whole unit. */
  lemma {:induction false} FracBound(frac: string)
    requires Digits(frac) && |frac| <= FRAC_DIGITS
    ensures Num(frac) * Pow10(FRAC_DIGITS - |frac|) < SCALE
  {
    NumBound(frac);
    PowSplit(|frac|, FRAC_DIGITS - |frac|);
    Arith.Scales(Pow10(FRAC_DIGITS - |frac|), Num(frac) + 1, Pow10(|frac|));
    assert Pow10(8) == SCALE by { Eight(); }
  }

  lemma {:induction false} Eight()
    ensures Pow10(8) == SCALE
  {
    assert Pow10(2) == 100;
    assert Pow10(4) == 10000;
    assert Pow10(6) == 1000000;
  }

  lemma {:induction false} PowSplit(a: nat, b: nat)
    ensures Pow10(a + b) == Pow10(a) * Pow10(b)
  {
    if a > 0 {
      PowSplit(a - 1, b);
      var x, y := Pow10(a - 1), Pow10(b);
      assert Pow10(a) == 10 * x && Pow10(a + b) == 10 * Pow10(a - 1 + b);
      hide Pow10;
      Regroup(10, x, y);
    }
  }

  lemma {:induction false} Regroup(a: int, b: int, c: int)
    ensures a * (b * c) == (a * b) * c
  {
  }

  /** One step along a run of digits. */
  lemma {:induction false} RunStep(t: string, i: nat)
    requires i <= |t|
    ensures i < |t| && IsDigit(t[i]) ==> RunAt(t, i) == RunAt(t, i + 1) > i
    ensures i == |t| || !IsDigit(t[i]) ==> RunAt(t, i) == i
  {
  }

  lemma {:induction false} NumNone()
    ensures Digits("") && Num("") == 0
  {
  }

  /** Read the digits at `i`, giving up as soon as the value cannot fit. */
  method Whole(t: string) returns (i: nat, ip: nat, fits: bool)
    ensures fits ==> i == RunAt(t, 0) && Digits(t[..i]) && ip == Num(t[..i]) <= MAX_RAW / SCALE
    ensures !fits ==> Digits(t[..RunAt(t, 0)]) && Num(t[..RunAt(t, 0)]) > MAX_RAW / SCALE
  {
    hide Num, RunAt;
    i, ip, fits := 0, 0, true;
    NumNone();
    assert t[0..RunAt(t, 0)] == t[..RunAt(t, 0)];
    assert t[..0] == "";
    while i < |t| && IsDigit(t[i])
      invariant i <= |t| && RunAt(t, i) == RunAt(t, 0) && Digits(t[..i]) && ip == Num(t[..i]) <= MAX_RAW / SCALE
      decreases |t| - i
    {
      RunStep(t, i);
      assert t[..i + 1] == t[..i] + [t[i]];
      NumNext(t[..i], t[i]);
      ip := ip * 10 + Val(t[i]);
      i := i + 1;
      if ip > MAX_RAW / SCALE {
        NumGrows(t, i, RunAt(t, 0));
        return i, ip, false;
      }
    }
    RunStep(t, i);
  }

  /** More digits never make a number smaller. */
  lemma {:induction false} NumGrows(t: string, i: nat, j: nat)
    requires i <= j <= |t| && Digits(t[..j])
    ensures Digits(t[..i]) && Num(t[..i]) <= Num(t[..j])
    decreases j - i
  {
    assert forall k :: 0 <= k < i ==> t[..i][k] == t[..j][k];
    if i < j {
      assert t[..j] == t[..j - 1] + [t[j - 1]];
      assert IsDigit(t[..j][j - 1]);
      assert forall k :: 0 <= k < j - 1 ==> t[..j - 1][k] == t[..j][k];
      NumGrows(t, i, j - 1);
      NumNext(t[..j - 1], t[j - 1]);
    }
  }

  /** Read the fraction digits at `i`, at most as many as the scale carries. */
  method Fraction(t: string, i0: nat) returns (i: nat, frac: nat, fits: bool)
    requires i0 <= |t|
    ensures fits ==> i == RunAt(t, i0) && i - i0 <= FRAC_DIGITS && Digits(t[i0..i]) && frac == Num(t[i0..i])
    ensures !fits ==> RunAt(t, i0) - i0 > FRAC_DIGITS
  {
    hide Num, RunAt;
    i, frac, fits := i0, 0, true;
    NumNone();
    assert t[i0..i0] == "";
    while i < |t| && IsDigit(t[i])
      invariant i0 <= i <= |t| && RunAt(t, i) == RunAt(t, i0) && i - i0 <= FRAC_DIGITS
      invariant Digits(t[i0..i]) && frac == Num(t[i0..i])
      decreases |t| - i
    {
      RunStep(t, i);
      if i - i0 == FRAC_DIGITS { return i, frac, false; }
      assert t[i0..i + 1] == t[i0..i] + [t[i]];
      NumNext(t[i0..i], t[i]);
      frac := frac * 10 + Val(t[i]);
      i := i + 1;
    }
    RunStep(t, i);
  }

  /** What parsing answers: the value of a text that splits, is well-formed and fits. */
  ghost function ParseOf(t: string): Option<int> {
    SplitJoins(t);
    var p := SplitOf(t);
    if p.Some? && WellFormed(p.value) && Meaning(p.value) <= MAX_RAW then Some(Meaning(p.value)) else None
  }

  /** Without a fraction: the text is its whole digits, or is no decimal. */
  lemma {:induction false} ParsePlain(t: string)
    requires var i := RunAt(t, 0); i == |t| || t[i] != '.'
    ensures var i := RunAt(t, 0);
            Digits(t[..i]) && ParseOf(t) ==
              if i == |t| && i > 0 && Num(t[..i]) * SCALE <= MAX_RAW then Some(Num(t[..i]) * SCALE) else None
  {
    hide Num;
    var i := RunAt(t, 0);
    assert t[0..i] == t[..i];
    if i == |t| { assert t[..i] == t; }
  }

  /** With a fraction. */
  lemma {:induction false} ParsePoint(t: string)
    requires var i := RunAt(t, 0); i < |t| && t[i] == '.'
    ensures var i := RunAt(t, 0);
            var j := RunAt(t, i + 1);
            && Digits(t[..i]) && Digits(t[i + 1..j])
            && (i == 0 || j != |t| || j == i + 1 || j - i - 1 > FRAC_DIGITS ==> ParseOf(t).None?)
            && (i > 0 && j == |t| && 0 < j - i - 1 <= FRAC_DIGITS ==>
                  var raw := Num(t[..i]) * SCALE + Num(t[i + 1..j]) * Pow10(FRAC_DIGITS - (j - i - 1));
                  ParseOf(t) == if raw <= MAX_RAW then Some(raw) else None)
  {
    hide Num, Pow10;
    var i := RunAt(t, 0);
    var j := RunAt(t, i + 1);
    assert t[0..i] == t[..i];
    if j == |t| { assert t[i + 1..j] == t[i + 1..]; }
  }

  /** Whole digits too large for the scale sink the text, whatever follows. */
  lemma {:induction false} TooLarge(t: string)
    requires Digits(t[..RunAt(t, 0)]) && Num(t[..RunAt(t, 0)]) > MAX_RAW / SCALE
    ensures ParseOf(t).None?
  {
    hide Num, Pow10, RunAt;
    var i := RunAt(t, 0);
    var ip := Num(t[..i]);
    assert ip * SCALE > MAX_RAW;
    if i == |t| || t[i] != '.' { ParsePlain(t); } else { ParsePoint(t); }
  }

  method ScaleUp(frac0: nat, digits: nat) returns (frac: nat)
    requires digits <= FRAC_DIGITS
    ensures frac == frac0 * Pow10(FRAC_DIGITS - digits)
  {
    frac := frac0;
    for d := digits to FRAC_DIGITS
      invariant frac == frac0 * Pow10(d - digits)
    {
      assert Pow10(d + 1 - digits) == 10 * Pow10(d - digits);
      frac := frac * 10;
    }
  }

  /** The raw value of an unsigned decimal text, or nothing. */
  method Parse(t: string) returns (r: Option<int>)
    ensures r == ParseOf(t)
  {
    hide Num, Pow10, RunAt, ParseOf;
    var i, ip, fits := Whole(t);
    if !fits {
      TooLarge(t);
      return None;
    }
    var frac, fracDigits := 0, 0;
    if i < |t| && t[i] == '.' {
      ParsePoint(t);
      if i == 0 { return None; }
      var start := i + 1;
      i, frac, fits := Fraction(t, start);
      if !fits { return None; }
      fracDigits := i - start;
      if fracDigits == 0 { return None; }
    } else {
      ParsePlain(t);
      if i == 0 { return None; }
    }
    if i != |t| { return None; }
    var scaledFrac := ScaleUp(frac, fracDigits);
    var scaled := ip * SCALE;
    if scaled > MAX_RAW - scaledFrac { return None; }
    return Some(scaled + scaledFrac);
  }

  /** Parsing accepts exactly the decimals the scale can carry, and reads them exactly. */
  lemma {:induction false} ParseExact(t: string, raw: int)
    ensures ParseOf(t) == Some(raw) <==> exists p :: Denotes(t, p, raw)
  {
    SplitJoins(t);
    if ParseOf(t) == Some(raw) {
      assert Denotes(t, SplitOf(t).value, raw);
    }
    if exists p :: Denotes(t, p, raw) {
      var p :| Denotes(t, p, raw);
      SplitJoined(p);
    }
  }

  // ---- printing -----------------------------------------------------------

  /** Decimal digits of a number, no leading zeros. */
  function DigitsOf(n: nat): string {
    if n < 10 then [Chr(n)] else DigitsOf(n / 10) + [Chr(n % 10)]
  }

  /** The `k` lowest digits of a number. */
  function Padded(n: nat, k: nat): string {
    if k == 0 then "" else Padded(n / 10, k - 1) + [Chr(n % 10)]
  }

  function Trimmed(s: string): string {
    if s != "" && s[|s| - 1] == '0' then Trimmed(s[..|s| - 1]) else s
  }

  /** The text of a raw value. */
  function Text(raw: int): string {
    if raw < 0 then "-" + Joined(PartsOf(-raw)) else Joined(PartsOf(raw))
  }

  function PartsOf(u: nat): Parts {
    Parts(DigitsOf(u / SCALE), if u % SCALE == 0 then None else Some(Trimmed(Padded(u % SCALE, FRAC_DIGITS))))
  }

  lemma {:induction false} DigitsOfNum(n: nat)
    ensures Digits(DigitsOf(n)) && DigitsOf(n) != "" && Num(DigitsOf(n)) == n
  {
    if n >= 10 {
      DigitsOfNum(n / 10);
      NumNext(DigitsOf(n / 10), Chr(n % 10));
    } else {
      NumNext("", Chr(n));
      assert "" + [Chr(n)] == [Chr(n)];
    }
  }

  lemma {:induction false} PaddedNum(n: nat, k: nat)
    requires n < Pow10(k)
    ensures Digits(Padded(n, k)) && |Padded(n, k)| == k && Num(Padded(n, k)) == n
  {
    if k > 0 {
      PaddedNum(n / 10, k - 1);
      NumNext(Padded(n / 10, k - 1), Chr(n % 10));
    }
  }

  /** A digit string is the only one of its length with its value. */
  lemma {:induction false} PaddedIs(s: string)
    requires Digits(s)
    ensures Padded(Num(s), |s|) == s
  {
    if s != "" {
      var t, c := s[..|s| - 1], s[|s| - 1];
      PaddedIs(t);
      assert Num(s) / 10 == Num(t) && Num(s) % 10 == Val(c);
      assert Chr(Val(c)) == c;
      assert s == t + [c];
    }
  }

  lemma {:induction false} TrimmedNum(s: string)
    requires Digits(s)
    ensures |Trimmed(s)| <= |s| && Digits(Trimmed(s)) && Num(s) == Num(Trimmed(s)) * Pow10(|s| - |Trimmed(s)|)
    ensures Num(s) != 0 ==> Trimmed(s) != ""
  {
    if s != "" && s[|s| - 1] == '0' {
      var t := s[..|s| - 1];
      TrimmedNum(t);
      var x, k := Num(Trimmed(t)), |t| - |Trimmed(t)|;
      Ten(x, Pow10(k));
    }
  }

  lemma {:induction false} PartsMean(u: nat)
    ensures WellFormed(PartsOf(u)) && Meaning(PartsOf(u)) == u
  {
    DigitsOfNum(u / SCALE);
    Eight();
    if u % SCALE != 0 {
      PaddedNum(u % SCALE, FRAC_DIGITS);
      TrimmedNum(Padded(u % SCALE, FRAC_DIGITS));
    }
  }

  /** Printing and parsing undo each other on every raw value the parser admits, and only there. */
  lemma {:induction false} RoundTrip(raw: int)
    ensures ParseOf(Text(raw)) == Some(raw) <==> 0 <= raw <= MAX_RAW
  {
    if raw >= 0 {
      PartsMean(raw);
      SplitJoined(PartsOf(raw));
    } else {
      var t := Text(raw);
      assert t[0] == '-' && RunAt(t, 0) == 0;
      ParsePlain(t);
    }
  }

  lemma {:induction false} DigitsOfShort(n: nat, k: nat)
    requires k >= 1 && n < Pow10(k)
    ensures |DigitsOf(n)| <= k
  {
    if n >= 10 { DigitsOfShort(n / 10, k - 1); }
  }

  lemma {:induction false} TrimmedZeros(s: string, k: nat)
    ensures Trimmed(s + Zeros(k)) == Trimmed(s)
  {
    if k > 0 {
      assert s + Zeros(k) == (s + Zeros(k - 1)) + ['0'];
      assert (s + Zeros(k))[..|s| + k - 1] == s + Zeros(k - 1);
      TrimmedZeros(s, k - 1);
    } else {
      assert s + "" == s;
    }
  }

  function Zeros(k: nat): (z: string)
    ensures |z| == k
  {
    if k == 0 then "" else Zeros(k - 1) + ['0']
  }

  lemma {:induction false} Ten(a: int, b: int)
    ensures 10 * (a * b) == a * (10 * b)
  {
  }

  lemma {:induction false} ZerosScale(s: string, k: nat)
    requires Digits(s)
    ensures Digits(s + Zeros(k)) && Num(s + Zeros(k)) == Num(s) * Pow10(k)
  {
    if k > 0 {
      hide Num, Digits;
      ZerosScale(s, k - 1);
      assert s + Zeros(k) == (s + Zeros(k - 1)) + ['0'];
      NumNext(s + Zeros(k - 1), '0');
      Ten(Num(s), Pow10(k - 1));
    } else {
      assert s + "" == s;
    }
  }

  /** The printed fraction is the shortest with its value. */
  lemma {:induction false} FracShortest(frac: string)
    requires Digits(frac) && |frac| <= FRAC_DIGITS
    ensures |Trimmed(Padded(Num(frac) * Pow10(FRAC_DIGITS - |frac|), FRAC_DIGITS))| <= |frac|
  {
    var k := FRAC_DIGITS - |frac|;
    ZerosScale(frac, k);
    PaddedIs(frac + Zeros(k));
    TrimmedZeros(frac, k);
    TrimmedNum(frac);
  }

  /** Of all the texts of a value, the printed one is the shortest. */
  lemma {:induction false} TextShortest(t: string, p: Parts, raw: int)
    requires Denotes(t, p, raw)
    ensures |Text(raw)| <= |t|
  {
    hide Num, Pow10, Padded, Trimmed, DigitsOf;
    var ip := Num(p.whole);
    NumBound(p.whole);
    DigitsOfShort(ip, |p.whole|);
    if p.frac.Some? {
      var frac := Num(p.frac.value) * Pow10(FRAC_DIGITS - |p.frac.value|);
      FracBound(p.frac.value);
      FracShortest(p.frac.value);
      Unscaled(ip, frac);
    } else {
      Unscaled(ip, 0);
    }
  }

  lemma {:induction false} Unscaled(ip: nat, frac: nat)
    requires frac < SCALE
    ensures (ip * SCALE + frac) / SCALE == ip && (ip * SCALE + frac) % SCALE == frac
  {
  }

  /** Write the digits of a fraction into a buffer, from the last one back, and drop its trailing zeros. */
  method FracText(frac0: nat) returns (s: string)
    ensures s == Trimmed(Padded(frac0, FRAC_DIGITS))
  {
    s := "";
    var frac := frac0;
    var d: nat := FRAC_DIGITS;
    assert Padded(frac0, FRAC_DIGITS) + "" == Padded(frac0, FRAC_DIGITS);
    while d > 0
      invariant d <= FRAC_DIGITS && Padded(frac, d) + s == Padded(frac0, FRAC_DIGITS)
    {
      assert Padded(frac, d) + s == Padded(frac / 10, d - 1) + ([Chr(frac % 10)] + s);
      s := [Chr(frac % 10)] + s;
      frac := frac / 10;
      d := d - 1;
    }
    assert "" + s == s;
    while s != "" && s[|s| - 1] == '0'
      invariant Trimmed(s) == Trimmed(Padded(frac0, FRAC_DIGITS))
      decreases |s|
    {
      s := s[..|s| - 1];
    }
  }

  /** Append the text of a raw value. */
  method Append(o: string, raw: int) returns (r: string)
    ensures r == o + Text(raw)
  {
    hide Padded, DigitsOf;
    var u: nat := if raw < 0 then -raw else raw;
    var sign := if raw < 0 then "-" else "";
    var frac := u % SCALE;
    var point := "";
    if frac != 0 {
      var digits := FracText(frac);
      point := "." + digits;
    }
    r := o + sign + DigitsOf(u / SCALE) + point;
    assert sign + (DigitsOf(u / SCALE) + point) == Text(raw);
    assert r == o + (sign + (DigitsOf(u / SCALE) + point));
  }
}
