/** The string operations the pipeline relies on, restricted to ASCII:
    `str.strip()`, `str.lower()`, `int(str)` and `float(str)`. */
module Text {
  import opened Json

  /** The ASCII characters `str.isspace()` accepts: tab, line feed, vertical tab,
      form feed, carriage return, the four separators 0x1C-0x1F and space. */
  predicate IsSpace(c: char)
  {
    c == ' ' || (9 <= c as int <= 13) || (28 <= c as int <= 31)
  }

  function TrimLeft(s: string): (r: string)
    ensures |r| <= |s| && r == s[|s| - |r|..]
    ensures r != [] ==> !IsSpace(r[0])
    ensures forall i :: 0 <= i < |s| - |r| ==> IsSpace(s[i])
  {
    if s != [] && IsSpace(s[0]) then TrimLeft(s[1..]) else s
  }

  function TrimRight(s: string): (r: string)
    ensures |r| <= |s| && r == s[..|r|]
    ensures r != [] ==> !IsSpace(r[|r| - 1])
    ensures forall i :: |r| <= i < |s| ==> IsSpace(s[i])
  {
    if s != [] && IsSpace(s[|s| - 1]) then TrimRight(s[..|s| - 1]) else s
  }

  /** `s.strip()`. */
  function Strip(s: string): string
  {
    TrimRight(TrimLeft(s))
  }

  /** Where `s.strip()` starts inside `s`. */
  function StripStart(s: string): nat
  {
    |s| - |TrimLeft(s)|
  }

  /** `s.strip()` is a contiguous part of `s`, starting at `StripStart(s)`. */
  lemma StripSlice(s: string)
    ensures StripStart(s) + |Strip(s)| <= |s|
    ensures Strip(s) == s[StripStart(s)..StripStart(s) + |Strip(s)|]
  {
    var t := TrimLeft(s);
    var r := TrimRight(t);
    var lo := |s| - |t|;
    assert t == s[lo..] && r == t[..|r|];
    forall k | 0 <= k < |r|
      ensures r[k] == s[lo + k]
    {
      assert r[k] == t[k];
    }
    assert r == s[lo..lo + |r|];
  }

  /** `s.strip()` removes exactly the leading and trailing whitespace:
      everything cut off on either side is whitespace, and what is left neither
      starts nor ends with whitespace. */
  lemma StripSpec(s: string)
    ensures StripStart(s) + |Strip(s)| <= |s|
    ensures Strip(s) == s[StripStart(s)..StripStart(s) + |Strip(s)|]
    ensures forall i :: 0 <= i < StripStart(s) ==> IsSpace(s[i])
    ensures forall i :: StripStart(s) + |Strip(s)| <= i < |s| ==> IsSpace(s[i])
    ensures Strip(s) != [] ==> !IsSpace(Strip(s)[0]) && !IsSpace(Strip(s)[|Strip(s)| - 1])
  {
    StripSlice(s);
    var t := TrimLeft(s);
    var lo := |s| - |t|;
    var n := |TrimRight(t)|;
    forall i | lo + n <= i < |s|
      ensures IsSpace(s[i])
    {
      assert s[i] == t[i - lo];
    }
  }

  /** A string strips to nothing exactly when it is all whitespace. */
  lemma {:induction false} StripEmptyIffBlank(s: string)
    ensures Strip(s) == [] <==> forall i :: 0 <= i < |s| ==> IsSpace(s[i])
  {
    StripSpec(s);
  }

  /** Stripping twice strips nothing more. */
  lemma StripIdempotent(s: string)
    ensures Strip(Strip(s)) == Strip(s)
  {
    StripSpec(s);
    var t := Strip(s);
    if t != [] {
      assert TrimLeft(t) == t;
    }
  }

  function LowerChar(c: char): char
  {
    if 'A' <= c <= 'Z' then (c as int + 32) as char else c
  }

  /** `s.lower()` for ASCII letters. */
  function Lower(s: string): (r: string)
    ensures |r| == |s|
    ensures forall i :: 0 <= i < |s| ==> r[i] == LowerChar(s[i])
  {
    seq(|s|, i requires 0 <= i < |s| => LowerChar(s[i]))
  }

  predicate IsDigit(c: char)
  {
    '0' <= c <= '9'
  }

  predicate AllDigits(s: string)
  {
    forall i :: 0 <= i < |s| ==> IsDigit(s[i])
  }

  /** The value of a string of decimal digits. */
  function DigitsValue(s: string): (n: nat)
    requires AllDigits(s)
  {
    if s == [] then 0
    else DigitsValue(s[..|s| - 1]) * 10 + (s[|s| - 1] as int - '0' as int)
  }

  function Pow10(n: nat): (p: nat)
    ensures p >= 1
  {
    if n == 0 then 1 else 10 * Pow10(n - 1)
  }

  /** The sign of a number written in `t` and where its digits start. */
  function SignOf(t: string): (r: (int, nat))
    ensures r.1 <= |t| && (r.0 == 1 || r.0 == -1)
  {
    if t != [] && t[0] == '-' then (-1, 1)
    else if t != [] && t[0] == '+' then (1, 1)
    else (1, 0)
  }

  /** `str(n)` for a natural number: its decimal digits, without leading zeros. */
  function Show(n: nat): (s: string)
    ensures s != [] && AllDigits(s)
    ensures DigitsValue(s) == n
  {
    if n < 10 then [('0' as int + n) as char]
    else
      var p := Show(n / 10);
      var s := p + [('0' as int + n % 10) as char];
      assert s[..|s| - 1] == p;
      s
  }

  /** `str(n)` for an integer. */
  function ShowInt(n: int): string
  {
    if n < 0 then "-" + Show(-n) else Show(n)
  }

  /** The text of the digits after an optional leading sign. */
  function Unsigned(t: string): string
  {
    if t != [] && (t[0] == '-' || t[0] == '+') then t[1..] else t
  }

  /** What `int()` accepts once the whitespace is stripped: an optional sign
      followed by one or more decimal digits. */
  predicate IsIntegerText(t: string)
  {
    Unsigned(t) != [] && AllDigits(Unsigned(t))
  }

  /** What `float()` accepts here once the whitespace is stripped: an optional
      sign, then digits and at most one decimal point, with at least one digit. */
  predicate IsDecimalText(t: string)
  {
    IsUnsignedDecimalText(Unsigned(t))
  }

  predicate IsUnsignedDecimalText(u: string)
  {
    && (forall i :: 0 <= i < |u| ==> IsDigit(u[i]) || u[i] == '.')
    && (forall i, j :: 0 <= i < j < |u| && u[i] == '.' ==> u[j] != '.')
    && (exists i :: 0 <= i < |u| && IsDigit(u[i]))
  }

  /** `int(s)`: surrounding whitespace, an optional sign and at least one decimal
      digit; anything else raises `ValueError`. */
  function ParseInt(s: string): (r: Option<int>)
    ensures r.Some? <==> IsIntegerText(Strip(s))
    ensures r.Some? ==> Strip(s) != []
  {
    IntegerOf(Strip(s))
  }

  /** An optional sign followed by at least one decimal digit, and nothing else;
      the value is the digits' value, negated after a `-`. */
  function IntegerOf(t: string): (r: Option<int>)
    ensures r.Some? <==> IsIntegerText(t)
    ensures r.Some? ==> t != []
    ensures t != [] && AllDigits(t) ==> r == Some(DigitsValue(t))
    ensures |t| >= 2 && t[0] == '-' && AllDigits(t[1..]) ==> r == Some(-(DigitsValue(t[1..]) as int))
    ensures |t| >= 2 && t[0] == '+' && AllDigits(t[1..]) ==> r == Some(DigitsValue(t[1..]))
  {
    var (sign, start) := SignOf(t);
    var digits := t[start..];
    assert digits == Unsigned(t);
    if digits != [] && AllDigits(digits) then Some(sign * DigitsValue(digits)) else None
  }

  /** `int(str(n))` is `n`, whatever whitespace surrounds the digits. */
  lemma ParseIntShow(ws1: string, n: int, ws2: string)
    requires forall i :: 0 <= i < |ws1| ==> IsSpace(ws1[i])
    requires forall i :: 0 <= i < |ws2| ==> IsSpace(ws2[i])
    ensures ParseInt(ws1 + ShowInt(n) + ws2) == Some(n)
  {
    var t := ShowInt(n);
    if n < 0 {
      assert t[1..] == Show(-n);
    }
    StripPadded(ws1, t, ws2);
  }

  /** Surrounding whitespace is exactly what `strip()` removes. */
  lemma StripPadded(ws1: string, t: string, ws2: string)
    requires forall i :: 0 <= i < |ws1| ==> IsSpace(ws1[i])
    requires forall i :: 0 <= i < |ws2| ==> IsSpace(ws2[i])
    requires t != [] ==> !IsSpace(t[0]) && !IsSpace(t[|t| - 1])
    ensures Strip(ws1 + t + ws2) == t
  {
    if t == [] {
      assert ws1 + t + ws2 == ws1 + ws2;
      TrimLeftPadded(ws1 + ws2, []);
      assert (ws1 + ws2) + [] == ws1 + ws2;
    } else {
      assert ws1 + t + ws2 == ws1 + (t + ws2);
      TrimLeftPadded(ws1, t + ws2);
      TrimRightPadded(t, ws2);
    }
  }

  lemma {:induction false} TrimLeftPadded(ws: string, u: string)
    requires forall i :: 0 <= i < |ws| ==> IsSpace(ws[i])
    requires u != [] ==> !IsSpace(u[0])
    ensures TrimLeft(ws + u) == u
    decreases |ws|
  {
    if ws == [] {
      assert ws + u == u;
    } else {
      assert (ws + u)[1..] == ws[1..] + u;
      TrimLeftPadded(ws[1..], u);
    }
  }

  lemma {:induction false} TrimRightPadded(u: string, ws: string)
    requires forall i :: 0 <= i < |ws| ==> IsSpace(ws[i])
    requires u != [] ==> !IsSpace(u[|u| - 1])
    ensures TrimRight(u + ws) == u
    decreases |ws|
  {
    if ws == [] {
      assert u + ws == u;
    } else {
      assert (u + ws)[..|u + ws| - 1] == u + ws[..|ws| - 1];
      TrimRightPadded(u, ws[..|ws| - 1]);
    }
  }

  /** `float(s)` for plain decimal notation: surrounding whitespace, an optional
      sign, digits with at most one decimal point, and at least one digit.  Every
      string `int()` accepts is read as the same number. */
  function ParseDecimal(s: string): (r: Option<real>)
    ensures r.Some? <==> IsDecimalText(Strip(s))
    ensures r.Some? ==> Strip(s) != []
    ensures ParseInt(s).Some? ==> r == Some(ParseInt(s).value as real)
  {
    DecimalOfAccepts(Strip(s));
    DecimalOfInteger(Strip(s));
    DecimalOf(Strip(s))
  }

  /** An optional sign followed by digits with at most one decimal point and at
      least one digit, and nothing else; a leading `-` negates the number. */
  function DecimalOf(t: string): (r: Option<real>)
    ensures r.Some? ==> t != []
    ensures t != [] && t[0] == '-' ==>
      r == (if UnsignedDecimal(t[1..]).Some? then Some(-UnsignedDecimal(t[1..]).value) else None)
    ensures t != [] && t[0] == '+' ==> r == UnsignedDecimal(t[1..])
    ensures t == [] || (t[0] != '-' && t[0] != '+') ==> r == UnsignedDecimal(t)
  {
    var (sign, start) := SignOf(t);
    match UnsignedDecimal(t[start..])
    case Some(v) => Some(if sign < 0 then -v else v)
    case None => None
  }

  /** An integer text is read by `float()` as its value. */
  lemma DecimalOfInteger(t: string)
    ensures IntegerOf(t).Some? ==> DecimalOf(t) == Some(IntegerOf(t).value as real)
  {
    var (sign, start) := SignOf(t);
    assert t[start..] == Unsigned(t);
  }

  /** Digits with at most one decimal point and at least one digit: the whole
      part plus the fraction. */
  function UnsignedDecimal(u: string): (r: Option<real>)
    ensures r.Some? ==> u != []
    ensures u != [] && AllDigits(u) ==> r == Some(DigitsValue(u) as real)
  {
    var dot := DotIndex(u);
    var whole := u[..dot];
    var frac := if dot < |u| then u[dot + 1..] else "";
    assert AllDigits(u) ==> dot == |u| && whole == u;
    if |whole| + |frac| > 0 && AllDigits(whole) && AllDigits(frac) then
      Some(PointValue(whole, frac))
    else None
  }

  /** The number written `whole.frac`. */
  function PointValue(whole: string, frac: string): real
    requires AllDigits(whole) && AllDigits(frac)
  {
    DigitsValue(whole) as real + DigitsValue(frac) as real / Pow10(|frac|) as real
  }

  /** `float()` accepts exactly the plain decimal texts. */
  lemma DecimalOfAccepts(t: string)
    ensures DecimalOf(t).Some? <==> IsDecimalText(t)
  {
    var (sign, start) := SignOf(t);
    assert t[start..] == Unsigned(t);
    if UnsignedDecimal(Unsigned(t)).Some? {
      UnsignedDecimalForm(Unsigned(t));
    }
    if IsDecimalText(t) {
      UnsignedDecimalAccepted(Unsigned(t));
    }
  }

  /** What the unsigned reader accepts has the plain decimal form. */
  lemma UnsignedDecimalForm(u: string)
    requires UnsignedDecimal(u).Some?
    ensures IsUnsignedDecimalText(u)
  {
    var dot := DotIndex(u);
    var whole := u[..dot];
    var frac := if dot < |u| then u[dot + 1..] else "";
    forall i | 0 <= i < |u| && i != dot
      ensures IsDigit(u[i])
    {
      if i < dot {
        assert u[i] == whole[i];
      } else {
        assert u[i] == frac[i - dot - 1];
      }
    }
    if |whole| > 0 {
      assert u[0] == whole[0];
    } else {
      assert u[dot + 1] == frac[0];
    }
  }

  /** Every plain decimal text is accepted by the unsigned reader. */
  lemma UnsignedDecimalAccepted(u: string)
    requires IsUnsignedDecimalText(u)
    ensures UnsignedDecimal(u).Some?
  {
    var dot := DotIndex(u);
    var whole := u[..dot];
    var frac := if dot < |u| then u[dot + 1..] else "";
    forall k | 0 <= k < |whole|
      ensures IsDigit(whole[k])
    {
      assert whole[k] == u[k];
    }
    if dot < |u| {
      forall k | 0 <= k < |frac|
        ensures IsDigit(frac[k])
      {
        assert frac[k] == u[dot + 1 + k];
      }
    }
    var i :| 0 <= i < |u| && IsDigit(u[i]);
    if i < dot {
      assert whole[i] == u[i];
    } else {
      assert frac[i - dot - 1] == u[i];
    }
  }

  /** `float("w.f")` is the whole part plus the fraction (and `float("-w.f")`
      its negation, by `DecimalOf`'s sign clause). */
  lemma DecimalOfPoint(w: string, f: string)
    requires AllDigits(w) && AllDigits(f) && |w| + |f| > 0
    ensures DecimalOf(w + "." + f) == Some(PointValue(w, f))
  {
    var body := w + "." + f;
    UnsignedPoint(w, f);
    assert body[0] == (if w != [] then w[0] else '.');
    assert SignOf(body) == (1, 0);
    assert body[0..] == body;
  }

  /** The unsigned reader on "w.f". */
  lemma UnsignedPoint(w: string, f: string)
    requires AllDigits(w) && AllDigits(f) && |w| + |f| > 0
    ensures UnsignedDecimal(w + "." + f) == Some(PointValue(w, f))
  {
    var body := w + "." + f;
    assert body == w + ("." + f);
    DotIndexAt(w, "." + f);
    var dot := DotIndex(body);
    assert dot < |body|;
    assert body[..dot] == w;
    assert body[dot + 1..] == f;
  }

  /** The first '.' of `w + rest` is the one `rest` starts with when `w` has none. */
  lemma DotIndexAt(w: string, rest: string)
    requires AllDigits(w) && rest != [] && rest[0] == '.'
    ensures DotIndex(w + rest) == |w|
  {
    assert (w + rest)[|w|] == '.';
  }

  /** `float(s)` of the decimal text "w.f" reads that number, whatever whitespace
      surrounds it. */
  lemma ParseDecimalPoint(ws1: string, w: string, f: string, ws2: string)
    requires forall i :: 0 <= i < |ws1| ==> IsSpace(ws1[i])
    requires forall i :: 0 <= i < |ws2| ==> IsSpace(ws2[i])
    requires AllDigits(w) && AllDigits(f) && |w| + |f| > 0
    ensures ParseDecimal(ws1 + (w + "." + f) + ws2) ==
      Some(PointValue(w, f))
  {
    var t := w + "." + f;
    assert t[0] == (if w != [] then w[0] else '.');
    assert t[|t| - 1] == (if f != [] then f[|f| - 1] else '.');
    StripPadded(ws1, t, ws2);
    DecimalOfPoint(w, f);
  }

  /** `float(s.strip())` reads what `float(s)` reads. */
  lemma ParseDecimalStripped(s: string)
    ensures ParseDecimal(Strip(s)) == ParseDecimal(s)
  {
    StripIdempotent(s);
  }

  /** The index of the first '.' in `s`, or `|s|` when there is none. */
  function DotIndex(s: string): (k: nat)
    ensures k <= |s|
    ensures k < |s| ==> s[k] == '.'
    ensures forall i :: 0 <= i < k ==> s[i] != '.'
  {
    if s == [] then 0
    else if s[0] == '.' then 0
    else 1 + DotIndex(s[1..])
  }
}
