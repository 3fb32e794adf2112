/**
 JavaScript scalar values as the pages see them: the numbers they compute with
 (finite or NaN), truthiness and the `||` fallback, and the two string-to-number
 conversions the forms use, `parseFloat` (longest numeric prefix) and `Number`
 (whole string, blank is 0). Only decimal literals are recognised: `Infinity`,
 hexadecimal, octal and binary forms are not part of this model.
 */
module JsValues {

  datatype Option<T> = None | Some(value: T)

  /** A JavaScript number: a finite value or NaN. */
  datatype Num = Real(r: real) | NaN

  /** The scalar values a JSON body or a form field can hold. */
  datatype JsValue = Undefined | Null | Bool(b: bool) | Number(n: Num) | Str(s: string)

  /** JavaScript truthiness: `undefined`, `null`, `false`, `0`, `NaN` and `""` are falsy. */
  predicate Truthy(v: JsValue) {
    match v
    case Undefined => false
    case Null => false
    case Bool(b) => b
    case Number(n) => n.Real? && n.r != 0.0
    case Str(s) => s != ""
  }

  /** `xs.map(f)`: one result per element, in order. */
  function Map<T, U>(xs: seq<T>, f: T -> U): (r: seq<U>)
    ensures |r| == |xs|
    ensures forall k :: 0 <= k < |xs| ==> r[k] == f(xs[k])
  {
    if xs == [] then [] else [f(xs[0])] + Map(xs[1..], f)
  }

  /** `xs.filter(p)`: the elements satisfying `p`, in their order. */
  function Filter<T>(xs: seq<T>, p: T -> bool): (r: seq<T>)
    ensures |r| <= |xs|
    ensures forall k :: 0 <= k < |r| ==> p(r[k])
    ensures forall k :: 0 <= k < |xs| && p(xs[k]) ==> xs[k] in r
    ensures multiset(r) <= multiset(xs)
    ensures forall k :: 0 <= k < |xs| ==> multiset(r)[xs[k]] == if p(xs[k]) then multiset(xs)[xs[k]] else 0
  {
    if xs == [] then []
    else
      var rest := Filter(xs[1..], p);
      assert forall k :: 1 <= k < |xs| ==> xs[k] == xs[1..][k - 1];
      FilterStep(xs, p, rest);
      if p(xs[0]) then [xs[0]] + rest else rest
  }

  /** One step of `Filter`: the survivors of the tail, with the head in
      front when it passes, are the survivors of the whole list. */
  lemma FilterStep<T>(xs: seq<T>, p: T -> bool, rest: seq<T>)
    requires xs != [] && |rest| <= |xs| - 1 && multiset(rest) <= multiset(xs[1..])
    requires forall k :: 0 <= k < |rest| ==> p(rest[k])
    requires forall k :: 1 <= k < |xs| ==>
               multiset(rest)[xs[k]] == if p(xs[k]) then multiset(xs[1..])[xs[k]] else 0
    ensures var r := if p(xs[0]) then [xs[0]] + rest else rest;
            && |r| <= |xs|
            && (forall k :: 0 <= k < |r| ==> p(r[k]))
            && multiset(r) <= multiset(xs)
            && (forall k :: 0 <= k < |xs| ==> multiset(r)[xs[k]] == if p(xs[k]) then multiset(xs)[xs[k]] else 0)
            && (forall k :: 0 <= k < |xs| && p(xs[k]) ==> xs[k] in r)
  {
    var r := if p(xs[0]) then [xs[0]] + rest else rest;
    assert xs == [xs[0]] + xs[1..];
    assert multiset(xs) == multiset{xs[0]} + multiset(xs[1..]);
    assert multiset(rest)[xs[0]] == if p(xs[0]) then multiset(xs[1..])[xs[0]] else 0 by {
      if xs[0] in xs[1..] {
        var j :| 0 <= j < |xs[1..]| && xs[1..][j] == xs[0];
        assert xs[j + 1] == xs[0];
      }
    }
    forall k | 0 <= k < |xs| && p(xs[k])
      ensures xs[k] in r
    {
      assert xs[k] in multiset(xs);
      assert multiset(r)[xs[k]] > 0;
    }
  }

  /** Filtering a concatenation filters each part: the survivors keep their order. */
  lemma {:induction false} FilterConcat<T>(xs: seq<T>, ys: seq<T>, p: T -> bool)
    ensures Filter(xs + ys, p) == Filter(xs, p) + Filter(ys, p)
    decreases |xs|
  {
    if xs == [] {
      assert xs + ys == ys;
    } else {
      assert (xs + ys)[1..] == xs[1..] + ys;
      FilterConcat(xs[1..], ys, p);
    }
  }

  /** Nothing is removed when every element satisfies `p`, and filtering twice
      is filtering once. */
  lemma {:induction false} FilterKeepsAll<T>(xs: seq<T>, p: T -> bool)
    requires forall k :: 0 <= k < |xs| ==> p(xs[k])
    ensures Filter(xs, p) == xs
    decreases |xs|
  {
    if xs != [] {
      FilterKeepsAll(xs[1..], p);
    }
  }

  /** `xs.find(p)`: the first element satisfying `p`, or nothing (`undefined`). */
  function Find<T>(xs: seq<T>, p: T -> bool): (r: Option<T>)
    ensures r.None? <==> forall k :: 0 <= k < |xs| ==> !p(xs[k])
    ensures r.Some? ==> exists k :: 0 <= k < |xs| && xs[k] == r.value && p(xs[k])
                                   && forall j :: 0 <= j < k ==> !p(xs[j])
  {
    if xs == [] then None
    else if p(xs[0]) then Some(xs[0])
    else
      var r := Find(xs[1..], p);
      assert forall k :: 1 <= k < |xs| ==> xs[k] == xs[1..][k - 1];
      r
  }

  /** `a === b`: same type and same value; NaN equals nothing. */
  predicate StrictEquals(a: JsValue, b: JsValue) {
    match (a, b)
    case (Undefined, Undefined) => true
    case (Null, Null) => true
    case (Bool(x), Bool(y)) => x == y
    case (Number(x), Number(y)) => x.Real? && y.Real? && x.r == y.r
    case (Str(x), Str(y)) => x == y
    case _ => false
  }

  /** `a || b`: the first operand when it is truthy, the second otherwise. */
  function Or(a: JsValue, b: JsValue): JsValue {
    if Truthy(a) then a else b
  }

  /** `n || 0` on a number: NaN (and 0 itself) become 0. */
  function Or0(n: Num): real {
    if n.Real? then n.r else 0.0
  }

  function Add(a: Num, b: Num): Num {
    if a.Real? && b.Real? then Real(a.r + b.r) else NaN
  }

  function Sub(a: Num, b: Num): Num {
    if a.Real? && b.Real? then Real(a.r - b.r) else NaN
  }

  function Mul(a: Num, b: Num): Num {
    if a.Real? && b.Real? then Real(a.r * b.r) else NaN
  }

  /** `a > b`: false whenever either side is NaN. */
  predicate Greater(a: Num, b: Num) {
    a.Real? && b.Real? && a.r > b.r
  }

  /** `Math.abs` */
  function Abs(n: Num): (r: Num)
    ensures r.Real? <==> n.Real?
    ensures r.Real? ==> r.r >= 0.0 && (r.r == n.r || r.r == -n.r)
  {
    if n.NaN? then NaN else if n.r < 0.0 then Real(-n.r) else n
  }

  /** The numeric conversion `>=`, `Math.abs` and arithmetic apply to an operand. */
  function ToNumeric(v: JsValue): Num {
    match v
    case Undefined => NaN
    case Null => Real(0.0)
    case Bool(b) => if b then Real(1.0) else Real(0.0)
    case Number(n) => n
    case Str(s) => ToNumber(s)
  }

  // ---------------------------------------------------------------------------
  // Decimal literals

  predicate IsDigit(c: char) {
    '0' <= c <= '9'
  }

  function DigitOf(c: char): nat
    requires IsDigit(c)
  {
    c as int - '0' as int
  }

  predicate AllDigits(s: string) {
    forall k :: 0 <= k < |s| ==> IsDigit(s[k])
  }

  /** White space and line terminators that trimming removes: the ASCII ones,
      no-break space, byte order mark, the other Unicode space separators
      (ogham space mark, the spaces from en quad to hair space, narrow
      no-break space, medium mathematical space, ideographic space) and the
      two Unicode line separators. */
  predicate IsSpace(c: char) {
    c == ' ' || c == '\t' || c == '\n' || c == '\r' || c == '\U{000B}' || c == '\U{000C}'
    || c == '\U{00A0}' || c == '\U{FEFF}' || c == '\U{1680}' || ('\U{2000}' <= c <= '\U{200A}')
    || c == '\U{202F}' || c == '\U{205F}' || c == '\U{3000}' || c == '\U{2028}' || c == '\U{2029}'
  }

  /** The value of a string of decimal digits, most significant first. */
  function DigitsValue(ds: string): nat
    requires AllDigits(ds)
  {
    if ds == [] then 0 else 10 * DigitsValue(ds[..|ds| - 1]) + DigitOf(ds[|ds| - 1])
  }

  /** `m × 10^e` for a possibly negative exponent, one power of ten at a time. */
  function Scale(m: real, e: int): real
    decreases if e < 0 then -e else e
  {
    if e == 0 then m
    else if e > 0 then 10.0 * Scale(m, e - 1)
    else Scale(m, e + 1) / 10.0
  }

  /** A recognised prefix: its numeric value and how many characters it spans. */
  datatype Scan = Scan(value: real, length: nat)

  /** Where the scanner is in `[spaces] [+|-] digits [. digits] [(e|E) [+|-] digits]`. */
  datatype Phase = Leading | Integer | Fraction | ExponentMark | ExponentSign | ExponentDigits

  /** The scanner's state: the sign, all mantissa digits read so far as one
      integer, how many of them follow the decimal point, whether there was
      any, the exponent and its sign, and the longest prefix accepted so far. */
  datatype Scanner = Scanner(phase: Phase, negative: bool, mantissa: nat, fractionDigits: nat,
                             sawDigit: bool, exponent: nat, negativeExponent: bool,
                             accepted: Option<Scan>)

  const Start := Scanner(Leading, false, 0, 0, false, 0, false, None)

  /** The value of the literal the scanner has read. */
  function ValueOf(st: Scanner): real {
    var e: int := if st.negativeExponent then -(st.exponent as int) else st.exponent;
    var magnitude := Scale(st.mantissa as real, e - st.fractionDigits);
    if st.negative then -magnitude else magnitude
  }

  /** Records that the first `length` characters form a literal. */
  function Accept(st: Scanner, length: nat): Scanner {
    st.(accepted := Some(Scan(ValueOf(st), length)))
  }

  /** Reads character `c` at position `i` of the integer part. */
  function IntegerStep(st: Scanner, c: char, i: nat): Option<Scanner> {
    if IsDigit(c) then
      Some(Accept(st.(phase := Integer, mantissa := 10 * st.mantissa + DigitOf(c), sawDigit := true), i + 1))
    else if c == '.' then
      var st' := st.(phase := Fraction);
      Some(if st.sawDigit then Accept(st', i + 1) else st')
    else if (c == 'e' || c == 'E') && st.sawDigit then Some(st.(phase := ExponentMark))
    else None
  }

  /** Reads character `c` at position `i`; None when `c` cannot continue the literal. */
  function Step(st: Scanner, c: char, i: nat): Option<Scanner> {
    match st.phase
    case Leading =>
      if IsSpace(c) then Some(st)
      else if c == '+' || c == '-' then Some(st.(phase := Integer, negative := c == '-'))
      else IntegerStep(st, c, i)
    case Integer => IntegerStep(st, c, i)
    case Fraction =>
      if IsDigit(c) then
        Some(Accept(st.(mantissa := 10 * st.mantissa + DigitOf(c), fractionDigits := st.fractionDigits + 1,
                        sawDigit := true), i + 1))
      else if (c == 'e' || c == 'E') && st.sawDigit then Some(st.(phase := ExponentMark))
      else None
    case ExponentMark =>
      if c == '+' || c == '-' then Some(st.(phase := ExponentSign, negativeExponent := c == '-'))
      else if IsDigit(c) then Some(Accept(st.(phase := ExponentDigits, exponent := DigitOf(c)), i + 1))
      else None
    case ExponentSign =>
      if IsDigit(c) then Some(Accept(st.(phase := ExponentDigits, exponent := DigitOf(c)), i + 1))
      else None
    case ExponentDigits =>
      if IsDigit(c) then Some(Accept(st.(exponent := 10 * st.exponent + DigitOf(c)), i + 1))
      else None
  }

  /** Runs the scanner from position `i` until a character stops it or the
      input ends; the answer is the longest prefix it accepted. */
  function Run(s: string, i: nat, st: Scanner): Option<Scan>
    requires i <= |s|
    decreases |s| - i
  {
    if i == |s| then st.accepted
    else match Step(st, s[i], i)
      case None => st.accepted
      case Some(st') => Run(s, i + 1, st')
  }

  function TrimEnd(s: string): (r: string)
    ensures |r| <= |s| && r == s[..|r|]
    ensures r == [] || !IsSpace(r[|r| - 1])
    ensures forall k :: |r| <= k < |s| ==> IsSpace(s[k])
  {
    if |s| > 0 && IsSpace(s[|s| - 1]) then TrimEnd(s[..|s| - 1]) else s
  }

  /** `parseFloat(s)`: the value of the longest signed decimal prefix after
      leading white space, or NaN when there is none. */
  function ParseFloat(s: string): Num {
    match Run(s, 0, Start)
    case Some(sc) => Real(sc.value)
    case None => NaN
  }

  /** `Number(s)`: white space around the literal is ignored, a blank string is
      0, and anything but one complete signed decimal literal is NaN. */
  function ToNumber(s: string): Num {
    var t := TrimEnd(s);
    if t == [] then Real(0.0)
    else match Run(t, 0, Start)
      case Some(sc) => if sc.length == |t| then Real(sc.value) else NaN
      case None => NaN
  }

  /** Decimal digits of a natural number, the way `String(n)` writes it. */
  function RenderNat(n: nat): (r: string)
    ensures |r| > 0 && AllDigits(r)
  {
    if n < 10 then [('0' as int + n) as char]
    else RenderNat(n / 10) + [('0' as int + n % 10) as char]
  }

  // ---------------------------------------------------------------------------
  // Properties of the conversions

  /** The scanner never reads past the end of `t` into white space that
      follows it, once it has left the leading white space. */
  lemma {:induction false} RunAppend(t: string, w: string, i: nat, st: Scanner)
    requires i <= |t|
    requires w == [] || IsSpace(w[0])
    requires st.phase != Leading || (i < |t| && !IsSpace(t[|t| - 1]))
    ensures Run(t + w, i, st) == Run(t, i, st)
    decreases |t| - i
  {
    if i < |t| {
      assert (t + w)[i] == t[i];
      match Step(st, t[i], i)
      case None =>
      case Some(st') =>
        assert st'.phase == Leading ==> st.phase == Leading && IsSpace(t[i]);
        RunAppend(t, w, i + 1, st');
    } else if w != [] {
      assert (t + w)[i] == w[0];
    }
  }

  /** Nothing but white space is no number. */
  lemma {:induction false} RunSpaces(s: string, i: nat)
    requires i <= |s|
    requires forall k :: i <= k < |s| ==> IsSpace(s[k])
    ensures Run(s, i, Start) == None
    decreases |s| - i
  {
    if i < |s| {
      RunSpaces(s, i + 1);
    }
  }

  /** Wherever `Number(s)` is a number, `parseFloat(s) || 0` is the same number:
      the two conversions the forms mix disagree only on strings `Number`
      rejects. */
  lemma NumberAgreesWithParseFloat(s: string, v: real)
    requires ToNumber(s) == Real(v)
    ensures Or0(ParseFloat(s)) == v
  {
    var t := TrimEnd(s);
    if t == [] {
      RunSpaces(s, 0);
    } else {
      var w := s[|t|..];
      assert s == t + w;
      RunAppend(t, w, 0, Start);
    }
  }

  lemma {:induction false} DigitsValueOfRender(n: nat)
    ensures DigitsValue(RenderNat(n)) == n
  {
    var r := RenderNat(n);
    if n >= 10 {
      DigitsValueOfRender(n / 10);
      assert r[..|r| - 1] == RenderNat(n / 10);
    }
  }

  /** The scanner after the digits of an integer of value `v` that end at position `i`. */
  function AfterDigits(v: nat, i: nat): Scanner {
    Scanner(Integer, false, v, 0, true, 0, false, Some(Scan(v as real, i)))
  }

  /** Over a run of digits the scanner accumulates their value and accepts
      every prefix. */
  lemma {:induction false} RunDigits(t: string, i: nat, m: nat)
    requires 0 < i <= m <= |t| && AllDigits(t[..m])
    ensures AllDigits(t[..i])
    ensures Run(t, i, AfterDigits(DigitsValue(t[..i]), i)) == Run(t, m, AfterDigits(DigitsValue(t[..m]), m))
    decreases m - i
  {
    assert t[..m][..i] == t[..i];
    if i < m {
      assert t[..i + 1][..i] == t[..i];
      assert t[..m][..i + 1] == t[..i + 1];
      assert t[..i + 1][i] == t[i];
      RunDigits(t, i + 1, m);
    }
  }

  /** From the start, a digit is read as a one-digit integer. */
  lemma StartDigit(c: char)
    requires IsDigit(c)
    ensures Step(Start, c, 0) == Some(AfterDigits(DigitOf(c), 1))
  {
    var st := Start.(phase := Integer, mantissa := DigitOf(c), sawDigit := true);
    assert ValueOf(st) == Scale(DigitOf(c) as real, 0) == DigitOf(c) as real;
    assert Accept(st, 1) == AfterDigits(DigitOf(c), 1);
    assert !IsSpace(c) && c != '+' && c != '-';
  }

  /** The first digit takes the scanner out of the leading white space. */
  lemma FirstDigit(t: string)
    requires |t| > 0 && IsDigit(t[0])
    ensures AllDigits(t[..1])
    ensures Run(t, 0, Start) == Run(t, 1, AfterDigits(DigitsValue(t[..1]), 1))
  {
    assert t[..1][..0] == [];
    assert DigitsValue(t[..1]) == DigitOf(t[0]);
    StartDigit(t[0]);
  }

  /** A non-empty run of digits is read whole, as an integer. */
  lemma ScanDigits(r: string)
    requires |r| > 0 && AllDigits(r)
    ensures Run(r, 0, Start) == Some(Scan(DigitsValue(r) as real, |r|))
  {
    FirstDigit(r);
    RunDigits(r, 1, |r|);
    assert r[..|r|] == r;
  }

  /** Both conversions read back the digits `String(n)` writes for a natural number. */
  lemma RenderNatRoundTrip(n: nat)
    ensures ToNumber(RenderNat(n)) == Real(n as real)
    ensures ParseFloat(RenderNat(n)) == Real(n as real)
  {
    var r := RenderNat(n);
    DigitsValueOfRender(n);
    ScanDigits(r);
    assert TrimEnd(r) == r;
  }

  /** A trailing decimal point adds nothing: `String(n) + "."` still reads as `n`. */
  lemma TrailingPointRoundTrip(n: nat)
    ensures ParseFloat(RenderNat(n) + ".") == Real(n as real)
    ensures ToNumber(RenderNat(n) + ".") == Real(n as real)
  {
    var r := RenderNat(n);
    var t := r + ".";
    DigitsValueOfRender(n);
    assert t[..|r|] == r;
    FirstDigit(t);
    RunDigits(t, 1, |r|);
    var st := AfterDigits(n, |r|);
    assert t[|r|] == '.';
    assert Step(st, '.', |r|) == Some(Accept(st.(phase := Fraction), |r| + 1));
    assert TrimEnd(t) == t;
  }

  /** After the digits of `n`, a point and one more digit `d` end the input
      with the value `n + d/10`. */
  lemma FractionTail(t: string, i: nat, n: nat, d: nat)
    requires |t| == i + 2 && t[i] == '.' && IsDigit(t[i + 1]) && DigitOf(t[i + 1]) == d
    ensures Run(t, i, AfterDigits(n, i)) == Some(Scan(n as real + d as real / 10.0, i + 2))
  {
    var st := AfterDigits(n, i);
    var st1 := Accept(st.(phase := Fraction), i + 1);
    assert Step(st, '.', i) == Some(st1);
    var st2 := Accept(st1.(mantissa := 10 * n + d, fractionDigits := 1, sawDigit := true), i + 2);
    assert Step(st1, t[i + 1], i + 1) == Some(st2);
    assert ValueOf(st2) == Scale((10 * n + d) as real, -1) == (10 * n + d) as real / 10.0;
    assert Run(t, i + 2, st2) == st2.accepted;
    assert Run(t, i + 1, st1) == Run(t, i + 2, st2);
  }

  /** One decimal place: `String(n) + "." + d` reads as `n + d/10`. */
  lemma OneDecimalRoundTrip(n: nat, d: nat)
    requires d < 10
    ensures ParseFloat(RenderNat(n) + "." + RenderNat(d)) == Real(n as real + d as real / 10.0)
  {
    var r := RenderNat(n);
    var t := r + "." + RenderNat(d);
    DigitsValueOfRender(n);
    DigitsValueOfRender(d);
    assert t[..|r|] == r;
    FirstDigit(t);
    RunDigits(t, 1, |r|);
    assert t[|r|] == '.' && t[|r| + 1] == RenderNat(d)[0] && |t| == |r| + 2;
    assert RenderNat(d)[..0] == [];
    FractionTail(t, |r|, n, d);
  }

  /** `String(x)` for the numbers this model displays: the digits of a whole,
      non-negative number. Other numbers are not rendered here. */
  function NumberText(x: Num): (r: Option<string>)
    ensures r.Some? ==> ToNumber(r.value) == x && ParseFloat(r.value) == x
  {
    if x.Real? && x.r >= 0.0 && x.r == x.r.Floor as real then
      RenderNatRoundTrip(x.r.Floor);
      Some(RenderNat(x.r.Floor))
    else None
  }
}
