/** The part of Python's `decimal.Decimal` that `_dec` and `_fmt` rely on
    (ksef_pdf.py:259-272): reading a plain decimal string, exact addition,
    and the format spec `",.2f"` with the comma replaced by a space. */
module Decimals {
  import opened Wrappers
  import opened Strings

  /** A finite Decimal, sign * coef * 10^(-exp). `exp` counts the digits
      after the point, so "12.50" is Dec(false, 1250, 2) and keeps its
      trailing zero; "-0" is a negative zero, as in Python. */
  datatype Dec = Dec(neg: bool, coef: nat, exp: nat)

  /** Decimal("0"), the start value of the VAT totals. */
  const Zero: Dec := Dec(false, 0, 0)

  /** Decimal("0.00"), what `_dec` falls back to. */
  const ZeroCents: Dec := Dec(false, 0, 2)

  function Pow10(n: nat): (r: nat)
    ensures r >= 1
  {
    if n == 0 then 1 else 10 * Pow10(n - 1)
  }

  lemma {:induction false} Pow10Add(a: nat, b: nat)
    ensures Pow10(a + b) == Pow10(a) * Pow10(b)
  {
    if a > 0 {
      Pow10Add(a - 1, b);
      assert Pow10(a + b) == 10 * Pow10(a - 1 + b);
    }
  }

  function Max(a: nat, b: nat): nat {
    if a < b then b else a
  }

  function Abs(x: int): nat {
    if x < 0 then -x else x
  }

  /** The signed coefficient. */
  function Signed(d: Dec): int {
    if d.neg then -(d.coef as int) else d.coef
  }

  /** The value of `d` times 10^e, an integer once e >= d.exp. */
  function ScaledTo(d: Dec, e: nat): int
    requires d.exp <= e
  {
    Signed(d) * Pow10(e - d.exp)
  }

  /** A zero whose sign bit is set. */
  predicate NegZero(d: Dec) {
    d.neg && d.coef == 0
  }

  /** Decimal addition when no rounding is needed: the exponent is the
      smaller Python exponent (the larger count of fractional digits), the
      value is exact, and an exact zero is negative only when both operands
      are negative. */
  function Add(a: Dec, b: Dec): (r: Dec)
    ensures r.exp == Max(a.exp, b.exp)
    ensures ScaledTo(r, r.exp) == ScaledTo(a, r.exp) + ScaledTo(b, r.exp)
    ensures NegZero(r) <==> NegZero(a) && NegZero(b)
  {
    var e := Max(a.exp, b.exp);
    var s := ScaledTo(a, e) + ScaledTo(b, e);
    ScaledSign(a, e);
    ScaledSign(b, e);
    Dec(if s == 0 then a.neg && b.neg else s < 0, Abs(s), e)
  }

  lemma ScaledSign(d: Dec, e: nat)
    requires d.exp <= e
    ensures d.coef == 0 <==> ScaledTo(d, e) == 0
    ensures d.neg && d.coef > 0 ==> ScaledTo(d, e) < 0
    ensures !d.neg ==> ScaledTo(d, e) >= 0
  {
    var p := Pow10(e - d.exp);
    if d.neg {
      assert ScaledTo(d, e) == -(d.coef * p);
    } else {
      assert ScaledTo(d, e) == d.coef * p;
    }
  }

  lemma ScaledRescale(d: Dec, e1: nat, e2: nat)
    requires d.exp <= e1 <= e2
    ensures ScaledTo(d, e2) == ScaledTo(d, e1) * Pow10(e2 - e1)
  {
    Pow10Add(e1 - d.exp, e2 - e1);
    assert Pow10(e2 - d.exp) == Pow10(e1 - d.exp) * Pow10(e2 - e1);
  }

  lemma Distrib(x: int, y: int, p: int)
    ensures (x + y) * p == x * p + y * p
  {
  }

  lemma ScaledAdd(a: Dec, b: Dec, e: nat)
    requires Max(a.exp, b.exp) <= e
    ensures ScaledTo(Add(a, b), e) == ScaledTo(a, e) + ScaledTo(b, e)
  {
    var r := Add(a, b);
    var m := r.exp;
    ScaledRescale(r, m, e);
    ScaledRescale(a, m, e);
    ScaledRescale(b, m, e);
    Distrib(ScaledTo(a, m), ScaledTo(b, m), Pow10(e - m));
  }

  /** Two Decimals with the same exponent, the same value and the same
      sign bit on zero are the same Decimal. */
  lemma SameDec(x: Dec, y: Dec)
    requires x.exp == y.exp
    requires ScaledTo(x, x.exp) == ScaledTo(y, y.exp)
    requires NegZero(x) <==> NegZero(y)
    ensures x == y
  {
    assert Pow10(x.exp - x.exp) == 1;
  }

  /** Regrouping a sum of four: (a + b) + (c + d) and (a + c) + (b + d) are
      the same Decimal, negative-zero sign included. This is what makes the
      gross total of the VAT table equal its net total plus its VAT total. */
  lemma AddRegroup(a: Dec, b: Dec, c: Dec, d: Dec)
    ensures Add(Add(a, b), Add(c, d)) == Add(Add(a, c), Add(b, d))
  {
    var l := Add(Add(a, b), Add(c, d));
    var r := Add(Add(a, c), Add(b, d));
    var e := l.exp;
    assert e == r.exp;
    ScaledAdd(a, b, e);
    ScaledAdd(c, d, e);
    ScaledAdd(a, c, e);
    ScaledAdd(b, d, e);
    SameDec(l, r);
  }

  /** Python's ROUND_HALF_EVEN to two decimal places, on the magnitude: the
      number of hundredths nearest to coef * 10^(-exp), ties going to the
      even neighbour. Exact when there are at most two fractional digits. */
  function RoundCents(d: Dec): (c: nat)
    ensures d.exp <= 2 ==> c == d.coef * Pow10(2 - d.exp)
    ensures d.exp > 2 ==> 2 * Abs(c * Pow10(d.exp - 2) - d.coef) <= Pow10(d.exp - 2)
    ensures d.exp > 2 && 2 * Abs(c * Pow10(d.exp - 2) - d.coef) == Pow10(d.exp - 2) ==> c % 2 == 0
  {
    if d.exp <= 2 then d.coef * Pow10(2 - d.exp) else HalfEvenQuotient(d.coef, Pow10(d.exp - 2))
  }

  /** n / p rounded half-even: the quotient, plus one when the remainder is
      over half of p or exactly half with an odd quotient. It is within half
      of p of n, and even on a tie. */
  function HalfEvenQuotient(n: nat, p: nat): (c: nat)
    requires p >= 1
    ensures 2 * Abs(c * p - n) <= p
    ensures 2 * Abs(c * p - n) == p ==> c % 2 == 0
  {
    var q := n / p;
    var r := n % p;
    Euclid(n, p);
    var c := if 2 * r > p || (2 * r == p && q % 2 == 1) then q + 1 else q;
    HalfEven(n, p, q, r, c);
    c
  }

  lemma Euclid(n: nat, p: nat)
    requires p >= 1
    ensures n == (n / p) * p + n % p && n % p < p
  {
  }

  lemma HalfEven(n: nat, p: nat, q: nat, r: nat, c: nat)
    requires p >= 1 && n == q * p + r && r < p
    requires c == if 2 * r > p || (2 * r == p && q % 2 == 1) then q + 1 else q
    ensures 2 * Abs(c * p - n) <= p
    ensures 2 * Abs(c * p - n) == p ==> c % 2 == 0
  {
    if c == q {
      assert c * p - n + r == 0;
    } else {
      assert c * p == q * p + p;
      assert c * p - n == p - r;
    }
  }

  predicate IsDigit(c: char) {
    '0' <= c <= '9'
  }

  predicate AllDigits(s: string) {
    forall k :: 0 <= k < |s| ==> IsDigit(s[k])
  }

  function DigitChar(n: nat): (c: char)
    requires n < 10
    ensures IsDigit(c) && c as int - '0' as int == n
  {
    ('0' as int + n) as char
  }

  /** The value of a string of decimal digits. */
  function DigitsValue(s: string): nat
    requires AllDigits(s)
  {
    if s == [] then 0 else DigitsValue(s[..|s| - 1]) * 10 + (s[|s| - 1] as int - '0' as int)
  }

  /** The decimal digits of n, without leading zeros ("0" for zero). */
  function NatDigits(n: nat): (s: string)
    ensures |s| >= 1 && AllDigits(s)
    ensures s[0] == '0' ==> s == "0"
  {
    if n < 10 then [DigitChar(n)] else NatDigits(n / 10) + [DigitChar(n % 10)]
  }

  lemma {:induction false} DigitsValueAppend(a: string, b: string)
    requires AllDigits(a) && AllDigits(b)
    ensures AllDigits(a + b)
    ensures DigitsValue(a + b) == DigitsValue(a) * Pow10(|b|) + DigitsValue(b)
    decreases |b|
  {
    if b != [] {
      var b' := b[..|b| - 1];
      assert (a + b)[..|a + b| - 1] == a + b';
      DigitsValueAppend(a, b');
      var x, p, y, last := DigitsValue(a), Pow10(|b'|), DigitsValue(b'), b[|b| - 1] as int - '0' as int;
      assert DigitsValue(a + b) == (x * p + y) * 10 + last;
      Regroup(x, p, y, last);
      assert Pow10(|b|) == p * 10;
      assert DigitsValue(b) == y * 10 + last;
    } else {
      assert a + b == a;
    }
  }

  lemma Regroup(x: int, p: int, y: int, last: int)
    ensures (x * p + y) * 10 + last == x * (p * 10) + (y * 10 + last)
  {
  }

  lemma {:induction false} NatDigitsValue(n: nat)
    ensures DigitsValue(NatDigits(n)) == n
  {
    if n >= 10 {
      NatDigitsValue(n / 10);
      var s := NatDigits(n);
      assert s[..|s| - 1] == NatDigits(n / 10);
    }
  }

  /** Python's thousands grouping: a separator (here already a space) before
      every block of three digits counted from the right. */
  function Group(ds: string): string {
    if |ds| <= 3 then ds else Group(ds[..|ds| - 3]) + " " + ds[|ds| - 3..]
  }

  /** A well-grouped integer part: one to three digits, then blocks of a
      single space and exactly three digits. */
  predicate Grouped(g: string)
    decreases |g|
  {
    if |g| <= 3 then 1 <= |g| && AllDigits(g)
    else |g| >= 5 && g[|g| - 4] == ' ' && AllDigits(g[|g| - 3..]) && Grouped(g[..|g| - 4])
  }

  /** `s.replace(" ", "")`. */
  function RemoveSpaces(s: string): (r: string)
    ensures |r| <= |s|
  {
    if s == [] then [] else RemoveSpaces(s[..|s| - 1]) + (if s[|s| - 1] == ' ' then [] else [s[|s| - 1]])
  }

  lemma {:induction false} RemoveSpacesAppend(a: string, b: string)
    ensures RemoveSpaces(a + b) == RemoveSpaces(a) + RemoveSpaces(b)
    decreases |b|
  {
    if b != [] {
      var b' := b[..|b| - 1];
      assert (a + b)[..|a + b| - 1] == a + b';
      RemoveSpacesAppend(a, b');
    } else {
      assert a + b == a;
    }
  }

  lemma {:induction false} RemoveSpacesNone(s: string)
    requires ' ' !in s
    ensures RemoveSpaces(s) == s
    decreases |s|
  {
    if s != [] {
      RemoveSpacesNone(s[..|s| - 1]);
    }
  }

  /** Grouping is well formed, starts with the first digit, and removing the
      separators gives the digits back. */
  lemma GroupSpec(ds: string)
    requires |ds| >= 1 && AllDigits(ds)
    ensures Grouped(Group(ds))
    ensures Group(ds)[0] == ds[0]
    ensures RemoveSpaces(Group(ds)) == ds
  {
    GroupWellFormed(ds);
    GroupUngroup(ds);
    assert ' ' !in ds by {
      forall k | 0 <= k < |ds| ensures ds[k] != ' ' {
        assert IsDigit(ds[k]);
      }
    }
    RemoveSpacesNone(ds);
  }

  lemma GroupWellFormed(ds: string)
    requires |ds| >= 1 && AllDigits(ds)
    ensures Grouped(Group(ds))
    ensures Group(ds)[0] == ds[0]
  {
    GroupGrouped(ds);
    GroupHead(ds);
  }

  lemma {:induction false} GroupGrouped(ds: string)
    requires |ds| >= 1 && AllDigits(ds)
    ensures Grouped(Group(ds))
    decreases |ds|
  {
    if |ds| > 3 {
      var h := ds[..|ds| - 3];
      var t := ds[|ds| - 3..];
      GroupGrouped(h);
      var g := Group(ds);
      assert |Group(h)| >= 1;
      assert g[..|g| - 4] == Group(h) && g[|g| - 4] == ' ' && g[|g| - 3..] == t by {
        assert g == Group(h) + " " + t;
      }
      assert AllDigits(t) by {
        forall k | 0 <= k < |t| ensures IsDigit(t[k]) {
          assert t[k] == ds[|ds| - 3 + k];
        }
      }
    }
  }

  lemma {:induction false} GroupHead(ds: string)
    requires |ds| >= 1
    ensures |Group(ds)| >= 1 && Group(ds)[0] == ds[0]
    decreases |ds|
  {
    if |ds| > 3 {
      var h := ds[..|ds| - 3];
      GroupHead(h);
      assert Group(ds) == Group(h) + " " + ds[|ds| - 3..];
    }
  }

  lemma {:induction false} GroupUngroup(ds: string)
    ensures RemoveSpaces(Group(ds)) == RemoveSpaces(ds)
    decreases |ds|
  {
    if |ds| > 3 {
      var h := ds[..|ds| - 3];
      var t := ds[|ds| - 3..];
      GroupUngroup(h);
      RemoveSpacesAppend(Group(h) + " ", t);
      RemoveSpacesAppend(Group(h), " ");
      assert RemoveSpaces(" ") == [] by {
        assert " "[..0] == [];
      }
      RemoveSpacesAppend(h, t);
      assert h + t == ds;
    }
  }

  /** The two fractional digits of a count of hundredths. */
  function Cents2(c: nat): (s: string)
    ensures |s| == 2 && AllDigits(s)
    ensures DigitsValue(s) == c % 100
  {
    var hi := DigitChar(c % 100 / 10);
    var lo := DigitChar(c % 10);
    var s := [hi, lo];
    assert s[..1] == [hi];
    assert [hi][..0] == [];
    assert DigitsValue([hi]) == c % 100 / 10;
    assert DigitsValue(s) == DigitsValue([hi]) * 10 + c % 10;
    s
  }

  /** `f"{d:,.2f}".replace(",", " ")`: the sign when the sign bit is set, the
      grouped integer digits, a point and exactly two fractional digits. */
  function Fmt(d: Dec): (r: string)
    ensures |r| >= 4 && r[|r| - 3] == '.' && IsDigit(r[|r| - 2]) && IsDigit(r[|r| - 1])
    ensures (r[0] == '-') <==> d.neg
    ensures Grouped(r[(if d.neg then 1 else 0)..|r| - 3])
  {
    ShowCents(d.neg, RoundCents(d))
  }

  /** A signed count of hundredths as `_fmt` prints it. */
  function ShowCents(neg: bool, c: nat): (r: string)
    ensures |r| >= 4 && r[|r| - 3] == '.' && IsDigit(r[|r| - 2]) && IsDigit(r[|r| - 1])
    ensures (r[0] == '-') <==> neg
    ensures Grouped(r[(if neg then 1 else 0)..|r| - 3])
  {
    var ds := NatDigits(c / 100);
    var tail := Cents2(c);
    GroupSpec(ds);
    assert IsDigit(ds[0]) && IsDigit(tail[0]) && IsDigit(tail[1]);
    PiecesShape(neg, Group(ds), tail);
    (if neg then "-" else "") + Group(ds) + "." + tail
  }

  lemma PiecesShape(neg: bool, g: string, tail: string)
    requires |g| >= 1 && g[0] != '-' && Grouped(g) && |tail| == 2 && IsDigit(tail[0]) && IsDigit(tail[1])
    ensures var r := (if neg then "-" else "") + g + "." + tail;
      && |r| >= 4 && r[|r| - 3] == '.' && IsDigit(r[|r| - 2]) && IsDigit(r[|r| - 1])
      && ((r[0] == '-') <==> neg)
      && Grouped(r[(if neg then 1 else 0)..|r| - 3])
  {
    Pieces(if neg then "-" else "", g, tail);
  }

  /** Where the pieces of `sign + g + "." + tail` land. */
  lemma Pieces(sign: string, g: string, tail: string)
    requires |sign| <= 1 && |g| >= 1 && |tail| == 2
    ensures var r := sign + g + "." + tail;
      && |r| >= 4 && r[|sign|..|r| - 3] == g
      && r[|r| - 3] == '.' && r[|r| - 2] == tail[0] && r[|r| - 1] == tail[1]
      && r[0] == (if sign == "" then g[0] else sign[0])
  {
  }

  /** The index of the first `c` in `s`, or |s| when there is none. */
  function IndexOf(s: string, c: char): (i: nat)
    ensures i <= |s|
    ensures i < |s| ==> s[i] == c
    ensures forall j :: 0 <= j < i ==> s[j] != c
  {
    if s == [] || s[0] == c then 0 else 1 + IndexOf(s[1..], c)
  }

  /** Digits, a point and digits split at that point. */
  lemma PointParts(ds: string, tail: string)
    requires AllDigits(ds)
    ensures var body := ds + "." + tail;
      && IndexOf(body, '.') == |ds| && body[..|ds|] == ds && body[|ds| + 1..] == tail
  {
    var body := ds + "." + tail;
    assert body[..|ds|] == ds && body[|ds|] == '.' && body[|ds| + 1..] == tail;
    forall j | 0 <= j < |ds|
      ensures body[j] != '.'
    {
      assert body[j] == ds[j] && IsDigit(ds[j]);
    }
    IndexOfFirst(body, '.', |ds|);
  }

  lemma IndexOfFirst(s: string, c: char, k: nat)
    requires k < |s| && s[k] == c
    requires forall j :: 0 <= j < k ==> s[j] != c
    ensures IndexOf(s, c) == k
  {
  }

  /** `Decimal(s)` for the plain notation `[+|-]digits[.digits]`, where the
      digits may be left out on one side of the point but not on both.
      Every other string is an invalid operation (None). */
  function ParsePlain(s: string): (r: Option<Dec>)
    ensures r.Some? ==> (r.value.neg <==> |s| > 0 && s[0] == '-')
    ensures r.Some? ==> r.value.exp < |s|
  {
    var signed := |s| > 0 && (s[0] == '-' || s[0] == '+');
    ParseUnsigned(signed && s[0] == '-', if signed then s[1..] else s)
  }

  /** The digits and point after the sign: `ip[.fp]` with at least one digit. */
  function ParseUnsigned(neg: bool, body: string): (r: Option<Dec>)
    ensures r.Some? ==> r.value.neg == neg && r.value.exp < |body|
  {
    var k := IndexOf(body, '.');
    var ip := body[..k];
    var fp := if k < |body| then body[k + 1..] else "";
    if AllDigits(ip) && AllDigits(fp) && |ip| + |fp| > 0 then
      DigitsValueAppend(ip, fp);
      Some(Dec(neg, DigitsValue(ip + fp), |fp|))
    else None
  }

  /** `_dec(value)`: None and anything `Decimal` rejects become
      Decimal("0.00"); `Decimal` itself strips surrounding whitespace. */
  function ToDecimal(v: Option<string>): (d: Dec)
    ensures v.None? ==> d == ZeroCents
    ensures v.Some? && !PlainDecimal(Strip(v.value)) ==> d == ZeroCents
  {
    match v
    case None => ZeroCents
    case Some(s) =>
      ParsePlainSpec(Strip(s));
      ParsePlain(Strip(s)).GetOr(ZeroCents)
  }

  /** `_fmt(value)` for a value that is a string or None. */
  function FmtText(v: Option<string>): string {
    Fmt(ToDecimal(v))
  }

  /** Round trip: reading back what `_fmt` printed, with the separators
      removed, gives the value rounded half-even to hundredths, with its sign
      bit. So the printed text always parses and always has exactly two
      fractional digits. */
  lemma FmtRoundTrip(d: Dec)
    ensures ParsePlain(RemoveSpaces(Fmt(d))) == Some(Dec(d.neg, RoundCents(d), 2))
  {
    ShowCentsRoundTrip(d.neg, RoundCents(d));
  }

  lemma ShowCentsRoundTrip(neg: bool, c: nat)
    ensures ParsePlain(RemoveSpaces(ShowCents(neg, c))) == Some(Dec(neg, c, 2))
  {
    var sign := if neg then "-" else "";
    var ds := NatDigits(c / 100);
    var tail := Cents2(c);
    var s := RemoveSpaces(ShowCents(neg, c));
    assert s == sign + ds + "." + tail by {
      ShowCentsUngrouped(neg, c);
    }
    ParsePointed(sign, ds, tail);
    assert DigitsValue(ds + tail) == c by {
      DigitsValueAppend(ds, tail);
      NatDigitsValue(c / 100);
      assert Pow10(|tail|) == 100;
      CentsSplit(c, DigitsValue(ds), DigitsValue(tail));
    }
  }

  lemma CentsSplit(c: nat, hi: nat, lo: nat)
    requires hi == c / 100 && lo == c % 100
    ensures hi * 100 + lo == c
  {
  }

  lemma ShowCentsUngrouped(neg: bool, c: nat)
    ensures RemoveSpaces(ShowCents(neg, c)) == (if neg then "-" else "") + NatDigits(c / 100) + "." + Cents2(c)
  {
    var sign := if neg then "-" else "";
    var ds := NatDigits(c / 100);
    var g := Group(ds);
    GroupSpec(ds);
    var tail := Cents2(c);
    assert ShowCents(neg, c) == sign + g + "." + tail;
    RemoveSpacesAppend(sign + g + ".", tail);
    RemoveSpacesAppend(sign + g, ".");
    RemoveSpacesAppend(sign, g);
    RemoveSpacesNone(sign);
    RemoveSpacesNone(".");
    assert ' ' !in tail by {
      assert IsDigit(tail[0]) && IsDigit(tail[1]);
    }
    RemoveSpacesNone(tail);
  }

  /** `Decimal(sign + ip + "." + fp)` is exact: the digits on both sides of
      the point, read as one integer, scaled by the number of fractional
      digits, negative iff the sign is "-". */
  lemma ParsePointed(sign: string, ip: string, fp: string)
    requires sign == "" || sign == "+" || sign == "-"
    requires AllDigits(ip) && AllDigits(fp) && |ip| + |fp| > 0
    ensures AllDigits(ip + fp)
    ensures ParsePlain(sign + ip + "." + fp) == Some(Dec(sign == "-", DigitsValue(ip + fp), |fp|))
  {
    var body := ip + "." + fp;
    assert body[0] != '-' && body[0] != '+' by {
      assert body[0] == (if ip != [] then ip[0] else '.');
      assert ip != [] ==> IsDigit(ip[0]);
    }
    SignSplit(sign, body);
    ConcatRegroup(sign, ip, ".", fp);
    UnsignedPointed(sign == "-", ip, fp);
  }

  /** The body `ip.fp` after the sign. */
  lemma UnsignedPointed(neg: bool, ip: string, fp: string)
    requires AllDigits(ip) && AllDigits(fp) && |ip| + |fp| > 0
    ensures AllDigits(ip + fp)
    ensures ParseUnsigned(neg, ip + "." + fp) == Some(Dec(neg, DigitsValue(ip + fp), |fp|))
  {
    PointParts(ip, fp);
    DigitsValueAppend(ip, fp);
  }

  /** How ParsePlain splits an optional sign off a body that starts with
      neither sign. */
  lemma SignSplit(sign: string, body: string)
    requires sign == "" || sign == "+" || sign == "-"
    requires body != [] && body[0] != '-' && body[0] != '+'
    ensures ParsePlain(sign + body) == ParseUnsigned(sign == "-", body)
  {
    var s := sign + body;
    if sign != "" {
      assert s[0] == sign[0] && s[1..] == body;
    } else {
      assert s == body;
    }
  }

  /** `Decimal(sign + ip)` for an integer: its digits' value, exponent 0. */
  lemma ParseInteger(sign: string, ip: string)
    requires sign == "" || sign == "+" || sign == "-"
    requires AllDigits(ip) && |ip| > 0
    ensures ParsePlain(sign + ip) == Some(Dec(sign == "-", DigitsValue(ip), 0))
  {
    assert IsDigit(ip[0]);
    SignSplit(sign, ip);
    UnsignedInteger(sign == "-", ip);
  }

  lemma UnsignedInteger(neg: bool, ip: string)
    requires AllDigits(ip) && |ip| > 0
    ensures ParseUnsigned(neg, ip) == Some(Dec(neg, DigitsValue(ip), 0))
  {
    forall k | 0 <= k < |ip| ensures ip[k] != '.' {
      assert IsDigit(ip[k]);
    }
    assert IndexOf(ip, '.') == |ip|;
    assert ip[..|ip|] == ip && ip + "" == ip;
  }

  /** A character other than a digit or a point, anywhere but in the sign
      position, makes the string unparsable. */
  lemma ParseRejectsChar(s: string, k: nat)
    requires k < |s| && !IsDigit(s[k]) && s[k] != '.'
    requires k > 0 || (s[0] != '-' && s[0] != '+')
    ensures ParsePlain(s).None?
  {
    var signed := |s| > 0 && (s[0] == '-' || s[0] == '+');
    var body := if signed then s[1..] else s;
    var m := if signed then k - 1 else k;
    assert body[m] == s[k];
    var i := IndexOf(body, '.');
    if m < i {
      assert body[..i][m] == body[m];
    } else {
      assert body[i + 1..][m - i - 1] == body[m];
    }
  }

  /** So does a second point. */
  lemma ParseRejectsPoints(s: string, k1: nat, k2: nat)
    requires k1 < k2 < |s| && s[k1] == '.' && s[k2] == '.'
    ensures ParsePlain(s).None?
  {
    var signed := |s| > 0 && (s[0] == '-' || s[0] == '+');
    var body := if signed then s[1..] else s;
    var m := if signed then k2 - 1 else k2;
    assert body[m] == '.';
    var i := IndexOf(body, '.');
    assert i < m by {
      var m1 := if signed then k1 - 1 else k1;
      assert body[m1] == '.';
    }
    assert body[i + 1..][m - i - 1] == '.';
  }

  /** The texts `Decimal` reads in plain notation: at least one digit;
      apart from a leading sign, only digits and points; and at most one
      point. */
  predicate PlainDecimal(s: string) {
    && (exists k :: 0 <= k < |s| && IsDigit(s[k]))
    && (forall k :: 0 <= k < |s| && !IsDigit(s[k]) && s[k] != '.' ==> k == 0 && (s[0] == '-' || s[0] == '+'))
    && (forall k1, k2 :: 0 <= k1 < k2 < |s| && s[k1] == '.' ==> s[k2] != '.')
  }

  /** ParsePlain accepts exactly the plain decimal texts. */
  lemma ParsePlainSpec(s: string)
    ensures ParsePlain(s).Some? <==> PlainDecimal(s)
  {
    if PlainDecimal(s) {
      PlainParses(s);
    } else {
      NotPlainRejected(s);
    }
  }

  lemma PlainParses(s: string)
    requires PlainDecimal(s)
    ensures ParsePlain(s).Some?
  {
    var signed := |s| > 0 && (s[0] == '-' || s[0] == '+');
    var o := if signed then 1 else 0;
    var body := if signed then s[1..] else s;
    assert forall j :: 0 <= j < |body| ==> body[j] == s[o + j];
    forall j | 0 <= j < |body|
      ensures IsDigit(body[j]) || body[j] == '.'
    {
      assert body[j] == s[o + j];
    }
    var d :| 0 <= d < |s| && IsDigit(s[d]);
    assert IsDigit(body[d - o]);
    UnsignedParses(signed && s[0] == '-', body, d - o);
  }

  /** Digits with at most one point, one of them a digit, parse. */
  lemma UnsignedParses(neg: bool, body: string, d: nat)
    requires d < |body| && IsDigit(body[d])
    requires forall j :: 0 <= j < |body| ==> IsDigit(body[j]) || body[j] == '.'
    requires forall k1, k2 :: 0 <= k1 < k2 < |body| && body[k1] == '.' ==> body[k2] != '.'
    ensures ParseUnsigned(neg, body).Some?
  {
    var k := IndexOf(body, '.');
    var ip := body[..k];
    var fp := if k < |body| then body[k + 1..] else "";
    assert AllDigits(ip) by {
      forall j | 0 <= j < |ip|
        ensures IsDigit(ip[j])
      {
        assert ip[j] == body[j];
      }
    }
    assert AllDigits(fp) by {
      forall j | 0 <= j < |fp|
        ensures IsDigit(fp[j])
      {
        assert fp[j] == body[k + 1 + j];
      }
    }
    if d < k {
      assert ip[d] == body[d];
    } else {
      assert fp[d - k - 1] == body[d];
    }
  }

  lemma NotPlainRejected(s: string)
    requires !PlainDecimal(s)
    ensures ParsePlain(s).None?
  {
    if forall k :: 0 <= k < |s| ==> !IsDigit(s[k]) {
      ParseRejectsNoDigit(s);
    } else if exists k :: 0 <= k < |s| && !IsDigit(s[k]) && s[k] != '.' && !(k == 0 && (s[0] == '-' || s[0] == '+')) {
      var k :| 0 <= k < |s| && !IsDigit(s[k]) && s[k] != '.' && !(k == 0 && (s[0] == '-' || s[0] == '+'));
      ParseRejectsChar(s, k);
    } else {
      var k1, k2 :| 0 <= k1 < k2 < |s| && s[k1] == '.' && s[k2] == '.';
      ParseRejectsPoints(s, k1, k2);
    }
  }

  /** A text without a digit, such as "", "-" or ".", is rejected. */
  lemma ParseRejectsNoDigit(s: string)
    requires forall k :: 0 <= k < |s| ==> !IsDigit(s[k])
    ensures ParsePlain(s).None?
  {
    var signed := |s| > 0 && (s[0] == '-' || s[0] == '+');
    var o := if signed then 1 else 0;
    var body := if signed then s[1..] else s;
    var k := IndexOf(body, '.');
    var ip := body[..k];
    var fp := if k < |body| then body[k + 1..] else "";
    if |ip| > 0 {
      assert ip[0] == s[o];
    }
    if |fp| > 0 {
      assert fp[0] == s[o + k + 1];
    }
  }

  /** `_dec` of a plain decimal text is its exact value, once Decimal has
      stripped the surrounding whitespace. */
  lemma DecOfPointed(v: string, sign: string, ip: string, fp: string)
    requires sign == "" || sign == "+" || sign == "-"
    requires AllDigits(ip) && AllDigits(fp) && |ip| + |fp| > 0
    requires Strip(v) == sign + ip + "." + fp
    ensures AllDigits(ip + fp)
    ensures ToDecimal(Some(v)) == Dec(sign == "-", DigitsValue(ip + fp), |fp|)
  {
    ParsePointed(sign, ip, fp);
  }

  lemma DecOfInteger(v: string, sign: string, ip: string)
    requires sign == "" || sign == "+" || sign == "-"
    requires AllDigits(ip) && |ip| > 0
    requires Strip(v) == sign + ip
    ensures ToDecimal(Some(v)) == Dec(sign == "-", DigitsValue(ip), 0)
  {
    ParseInteger(sign, ip);
  }

  /** `_dec` of a text that Decimal rejects is Decimal("0.00"). */
  lemma DecOfInvalid(v: string)
    requires !PlainDecimal(Strip(v))
    ensures ToDecimal(Some(v)) == ZeroCents
  {
  }

  /** In particular an empty or whitespace-only text, which `_text` turns
      into "", reads as Decimal("0.00"). */
  lemma DecOfBlank(v: string)
    requires AllSpace(v)
    ensures ToDecimal(Some(v)) == ZeroCents
  {
    assert Strip(v) == [];
  }

  /** With at most two fractional digits nothing is rounded away: the
      printed text reads back as the same value. */
  lemma FmtExact(d: Dec)
    requires d.exp <= 2
    ensures ParsePlain(RemoveSpaces(Fmt(d))) == Some(Dec(d.neg, d.coef * Pow10(2 - d.exp), 2))
  {
    FmtCents(d, d.coef * Pow10(2 - d.exp));
  }

  lemma FmtCents(d: Dec, c: nat)
    requires RoundCents(d) == c
    ensures ParsePlain(RemoveSpaces(Fmt(d))) == Some(Dec(d.neg, c, 2))
  {
    FmtRoundTrip(d);
  }
}
