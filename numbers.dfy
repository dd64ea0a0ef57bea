/** The numeric coercions the editor relies on: `parseFloat(v) || 0` for
    percentages and batch sizes, and `ToNumber` on strings, which decides loose
    equality `==` between an entity id and the string id a table row carries. */
module Numbers {
  import opened JsonValues
  import opened Text

  predicate IsDigit(c: char) {
    '0' <= c <= '9'
  }

  predicate AllDigits(s: string) {
    forall i :: 0 <= i < |s| ==> IsDigit(s[i])
  }

  /** The value of a string of decimal digits, most significant first. */
  function DigitsValue(s: string): nat
    requires AllDigits(s)
  {
    if |s| == 0 then 0 else 10 * DigitsValue(s[..|s| - 1]) + (s[|s| - 1] as int - '0' as int)
  }

  function Pow10(n: nat): (p: nat)
    ensures p >= 1
  {
    if n == 0 then 1 else 10 * Pow10(n - 1)
  }

  /** The index where the run of decimal digits that starts at index `i` of
      `s` ends. */
  function RunEnd(s: string, i: nat): (j: nat)
    requires i <= |s|
    ensures i <= j <= |s|
    ensures j < |s| ==> !IsDigit(s[j])
    decreases |s| - i
  {
    if i < |s| && IsDigit(s[i]) then RunEnd(s, i + 1) else i
  }

  /** The value of the digits of `s` from index `lo` up to, not including,
      index `hi`. */
  function ValueOf(s: string, lo: nat, hi: nat): int
    requires lo <= hi <= |s|
    decreases hi - lo
  {
    if hi == lo then 0 else 10 * ValueOf(s, lo, hi - 1) + (s[hi - 1] as int - '0' as int)
  }

  /** `n / 10^k`, one decimal place at a time. */
  function Shifted(n: int, k: nat): real {
    if k == 0 then n as real else Shifted(n, k - 1) / 10.0
  }

  /** The longest unsigned decimal literal of `s` that starts at index `i`, of
      the form digits [. [digits]] or . digits: its value and the index where
      it ends; None when no literal starts there. */
  function UnsignedAt(s: string, i: nat): (r: Option<(real, nat)>)
    requires i <= |s|
    ensures r.Some? ==> i < r.value.1 <= |s|
  {
    var a := RunEnd(s, i);
    if a < |s| && s[a] == '.' then
      var b := RunEnd(s, a + 1);
      if a == i && b == a + 1 then None
      else Some((ValueOf(s, i, a) as real + Shifted(ValueOf(s, a + 1, b), b - (a + 1)), b))
    else if a == i then None
    else Some((ValueOf(s, i, a) as real, a))
  }

  /** The longest decimal literal of `s` that starts at index `i`, with an
      optional sign: its value and the index where it ends; None when no
      literal starts there. */
  function DecimalAt(s: string, i: nat): (r: Option<(real, nat)>)
    requires i <= |s|
    ensures r.Some? ==> i < r.value.1 <= |s|
  {
    if i < |s| && (s[i] == '+' || s[i] == '-') then
      match UnsignedAt(s, i + 1)
      case None => None
      case Some((v, e)) => Some((if s[i] == '-' then -v else v, e))
    else UnsignedAt(s, i)
  }

  /** `parseFloat(s)` on a string: the value of the longest decimal literal after
      leading white space; None stands for NaN. */
  function ParseFloat(s: string): (r: Option<real>)
    ensures r.Some? <==> DecimalAt(TrimStart(s), 0).Some?
    ensures r.Some? ==> r.value == DecimalAt(TrimStart(s), 0).value.0
  {
    match DecimalAt(TrimStart(s), 0)
    case Some((v, _)) => Some(v)
    case None => None
  }

  /** `ToNumber(s)` on a string, as `==` applies it: white space around a
      decimal literal is ignored, the blank string is 0, anything else is NaN
      (None). */
  function StringToNumber(s: string): (r: Option<real>)
    ensures Trim(s) == "" ==> r == Some(0.0)
    ensures Trim(s) != "" && r.Some? ==> DecimalAt(Trim(s), 0) == Some((r.value, |Trim(s)|))
    ensures Trim(s) != "" && DecimalAt(Trim(s), 0).Some? && DecimalAt(Trim(s), 0).value.1 == |Trim(s)| ==>
      r == Some(DecimalAt(Trim(s), 0).value.0)
  {
    var t := Trim(s);
    if t == "" then Some(0.0)
    else match DecimalAt(t, 0)
      case Some((v, e)) => if e == |t| then Some(v) else None
      case None => None
  }

  /** `parseFloat(v) || 0` for a property read that may be `undefined`. Strings
      are parsed, numbers are kept, and everything whose string form is not a
      number (undefined, null, booleans, objects) counts as 0. */
  function NumberOrZero(v: Option<Json>): real {
    match v
    case Some(JNum(n)) => n
    case Some(JStr(s)) => (match ParseFloat(s) case Some(x) => x case None => 0.0)
    case _ => 0.0
  }

  /** `v == s` where `s` is a string (a row's `data-id`) and `v` an entity's id
      read that may be `undefined`. A string compares by content, a number or a
      boolean compares with `ToNumber(s)`, an object by its string form
      "[object Object]"; undefined and null equal no string. */
  predicate LooseEqualsText(v: Option<Json>, s: string) {
    match v
    case None => false
    case Some(JNull) => false
    case Some(JStr(t)) => t == s
    case Some(JNum(n)) => StringToNumber(s) == Some(n)
    case Some(JBool(b)) => StringToNumber(s) == Some(if b then 1.0 else 0.0)
    case Some(JObj(_)) => s == "[object Object]"
    case Some(JArr(_)) => false
  }

  /** `v === s`: only the same string is strictly equal. */
  predicate StrictEqualsText(v: Option<Json>, s: string) {
    v == Some(JStr(s))
  }

  /** Strict equality implies loose equality; the converse fails for numeric
      ids: the number 1 is loosely, but not strictly, equal to the row id "1". */
  lemma StrictIsLooser(v: Option<Json>, s: string)
    ensures StrictEqualsText(v, s) ==> LooseEqualsText(v, s)
    ensures LooseEqualsText(Some(JNum(1.0)), "1") && !StrictEqualsText(Some(JNum(1.0)), "1")
  {
    DigitsParse("1");
    assert DigitsValue("1") == 1 by { assert "1"[..0] == ""; }
  }

  /** A string of digits parses to its decimal value, with `parseFloat` and
      with `ToNumber` alike. */
  lemma DigitsParse(s: string)
    requires s != [] && AllDigits(s)
    ensures ParseFloat(s) == Some(DigitsValue(s) as real)
    ensures StringToNumber(s) == Some(DigitsValue(s) as real)
  {
    SolidTrim(s);
    UnsignedDigits(s);
  }

  /** A string of digits is one unsigned literal. */
  lemma UnsignedDigits(s: string)
    requires s != [] && AllDigits(s)
    ensures UnsignedAt(s, 0) == Some((DigitsValue(s) as real, |s|))
  {
    RunEndAll(s, 0);
    ValueOfDigits(s, |s|);
    assert s[..|s|] == s;
  }

  /** A run of digits that reaches the end of the string ends there. */
  lemma {:induction false} RunEndAll(s: string, i: nat)
    requires i <= |s| && forall k :: i <= k < |s| ==> IsDigit(s[k])
    ensures RunEnd(s, i) == |s|
    decreases |s| - i
  {
    if i < |s| {
      RunEndAll(s, i + 1);
    }
  }

  /** The value of the first `hi` digits of a digit string is the value of
      its prefix of length `hi`. */
  lemma {:induction false} ValueOfDigits(s: string, hi: nat)
    requires AllDigits(s) && hi <= |s|
    ensures ValueOf(s, 0, hi) == DigitsValue(s[..hi])
    decreases hi
  {
    if hi > 0 {
      ValueOfDigits(s, hi - 1);
      assert s[..hi][..hi - 1] == s[..hi - 1];
    }
  }

  /** Digits read after a prefix `p` have the value they have on their own. */
  lemma {:induction false} ValueOfShift(p: string, s: string, lo: nat, hi: nat)
    requires lo <= hi <= |s|
    ensures ValueOf(p + s, |p| + lo, |p| + hi) == ValueOf(s, lo, hi)
    decreases hi - lo
  {
    if hi > lo {
      ValueOfShift(p, s, lo, hi - 1);
      assert (p + s)[|p| + hi - 1] == s[hi - 1];
    }
  }

  /** The decimal digit of a number below ten. */
  function Digit(d: nat): (c: char)
    requires d < 10
    ensures IsDigit(c) && c as int - '0' as int == d
  {
    ('0' as int + d) as char
  }

  /** The decimal string of a natural number, as `String(n)` writes it: a
      non-empty digit string whose value is `n`. */
  function NatString(n: nat): (r: string)
    ensures r != [] && AllDigits(r) && DigitsValue(r) == n
    decreases n
  {
    if n < 10 then [Digit(n)]
    else
      var r := NatString(n / 10) + [Digit(n % 10)];
      assert r[..|r| - 1] == NatString(n / 10);
      r
  }

  /** Different natural numbers have different decimal strings. */
  lemma NatStringInjective(m: nat, n: nat)
    ensures NatString(m) == NatString(n) ==> m == n
  {
  }

  /** The decimal string of a natural number reads back as that number, with
      `parseFloat` and with `ToNumber` alike. */
  lemma NatStringParses(n: nat)
    ensures ParseFloat(NatString(n)) == Some(n as real)
    ensures StringToNumber(NatString(n)) == Some(n as real)
  {
    DigitsParse(NatString(n));
  }

  /** The property key `ToPropertyKey` makes of a value read that may be
      `undefined`, as `obj[v]` uses it: a string is itself; undefined, null
      and the booleans are their names; an object is "[object Object]"; a
      number is `NumberKey`'s. None for arrays, whose string form is not
      modelled. */
  function KeyString(v: Option<Json>): (r: Option<string>)
    ensures v.Some? && v.value.JStr? ==> r == Some(v.value.s)
  {
    match v
    case None => Some("undefined")
    case Some(JNull) => Some("null")
    case Some(JBool(b)) => Some(if b then "true" else "false")
    case Some(JStr(s)) => Some(s)
    case Some(JObj(_)) => Some("[object Object]")
    case Some(JArr(_)) => None
    case Some(JNum(n)) => NumberKey(n)
  }

  /** The string form of a number used as a key: an integer below 10^21 in
      magnitude is its decimal string, with a minus sign when negative. None
      for non-integral numbers and integers of 10^21 or more, whose string
      forms are not modelled. */
  function NumberKey(n: real): Option<string> {
    if n != n.Floor as real || n <= -(Pow10(21) as real) || Pow10(21) as real <= n then None
    else if n >= 0.0 then Some(NatString(n.Floor))
    else Some("-" + NatString(-n.Floor))
  }

  /** The key of a number reads back as that number under `ToNumber`, so a
      numeric key is loosely equal to the number it came from. */
  lemma NumberKeyReadsBack(n: real)
    requires KeyString(Some(JNum(n))).Some?
    ensures StringToNumber(KeyString(Some(JNum(n))).value) == Some(n)
    ensures LooseEqualsText(Some(JNum(n)), KeyString(Some(JNum(n))).value)
  {
    var k := NumberKey(n).value;
    assert KeyString(Some(JNum(n))) == Some(k);
    NumberKeyValue(n);
  }

  /** The key `NumberKey` gives reads back as its number under `ToNumber`. */
  lemma NumberKeyValue(n: real)
    requires NumberKey(n).Some?
    ensures StringToNumber(NumberKey(n).value) == Some(n)
  {
    var m := n.Floor;
    if n >= 0.0 {
      var k := NatString(m);
      assert NumberKey(n) == Some(k);
      NatStringParses(m);
    } else {
      var p: nat := -m;
      var k := "-" + NatString(p);
      assert NumberKey(n) == Some(k);
      NegativeParses(p);
    }
  }

  /** A minus sign before a decimal string negates its value under `ToNumber`. */
  lemma NegativeParses(n: nat)
    ensures StringToNumber("-" + NatString(n)) == Some(-(n as real))
  {
    var d := NatString(n);
    var t := "-" + d;
    SolidTrim(t);
    SignedDigits(d);
  }

  /** A string that neither starts nor ends with white space is left alone by
      `TrimStart` and by `trim`. */
  lemma SolidTrim(t: string)
    requires t != [] && !IsSpace(t[0]) && !IsSpace(t[|t| - 1])
    ensures TrimStart(t) == t && Trim(t) == t
  {
    assert TrimEnd(t) == t;
  }

  /** The digits after a sign are read as an unsigned literal that runs to the
      end. */
  lemma SignedDigits(d: string)
    requires d != [] && AllDigits(d)
    ensures UnsignedAt("-" + d, 1) == Some((DigitsValue(d) as real, |d| + 1))
  {
    var t := "-" + d;
    assert forall k :: 1 <= k < |t| ==> t[k] == d[k - 1];
    RunEndAll(t, 1);
    ValueOfShift("-", d, 0, |d|);
    ValueOfDigits(d, |d|);
    assert d[..|d|] == d;
  }

  /** Two values that both have a key and are both numbers get the same key
      only when they are equal numbers: numeric keys do not collide. */
  lemma NumberKeysDistinct(m: real, n: real)
    requires KeyString(Some(JNum(m))).Some? && KeyString(Some(JNum(n))).Some?
    ensures KeyString(Some(JNum(m))) == KeyString(Some(JNum(n))) ==> m == n
  {
    NumberKeyReadsBack(m);
    NumberKeyReadsBack(n);
  }

  /** Text that cannot continue a decimal literal: nothing, or text that
      starts with neither a digit, a dot nor an exponent mark. */
  predicate Stops(w: string) {
    w == [] || (!IsDigit(w[0]) && w[0] != '.' && w[0] != 'e' && w[0] != 'E')
  }

  /** A digit run that stops inside `s`, or at its end before text that does
      not start with a digit, ends at the same index when that text is
      appended. */
  lemma {:induction false} RunEndAppend(s: string, w: string, i: nat)
    requires i <= |s|
    requires RunEnd(s, i) < |s| || w == [] || !IsDigit(w[0])
    ensures RunEnd(s + w, i) == RunEnd(s, i)
    decreases |s| - i
  {
    if i < |s| {
      assert (s + w)[i] == s[i];
      if IsDigit(s[i]) {
        RunEndAppend(s, w, i + 1);
      }
    } else if w != [] {
      assert (s + w)[i] == w[0];
    } else {
      assert s + w == s;
    }
  }

  /** Appending text does not change the value of digits already read. */
  lemma {:induction false} ValueOfAppend(s: string, w: string, lo: nat, hi: nat)
    requires lo <= hi <= |s|
    ensures ValueOf(s + w, lo, hi) == ValueOf(s, lo, hi)
    decreases hi - lo
  {
    if hi > lo {
      ValueOfAppend(s, w, lo, hi - 1);
      assert (s + w)[hi - 1] == s[hi - 1];
    }
  }

  /** An unsigned literal that runs to the end of `s` keeps its value and its
      end when text that cannot continue it is appended. */
  lemma UnsignedAtAppend(s: string, w: string, i: nat)
    requires i <= |s| && UnsignedAt(s, i).Some? && UnsignedAt(s, i).value.1 == |s|
    requires Stops(w)
    ensures UnsignedAt(s + w, i) == UnsignedAt(s, i)
  {
    var a := RunEnd(s, i);
    RunEndAppend(s, w, i);
    ValueOfAppend(s, w, i, a);
    if a < |s| {
      assert (s + w)[a] == s[a];
      if s[a] == '.' {
        RunEndAppend(s, w, a + 1);
        ValueOfAppend(s, w, a + 1, RunEnd(s, a + 1));
      }
    } else if w != [] {
      assert (s + w)[a] == w[0];
    }
  }

  /** The same for a literal that may carry a sign. */
  lemma DecimalAtAppend(s: string, w: string, i: nat)
    requires i <= |s| && DecimalAt(s, i).Some? && DecimalAt(s, i).value.1 == |s|
    requires Stops(w)
    ensures DecimalAt(s + w, i) == DecimalAt(s, i)
  {
    if s[i] == '+' || s[i] == '-' {
      assert (s + w)[i] == s[i];
      UnsignedAtAppend(s, w, i + 1);
    } else {
      assert (s + w)[i] == s[i];
      UnsignedAtAppend(s, w, i);
    }
  }

  /** `parseFloat` reads the decimal literal at the front, after leading white
      space, and ignores whatever text that cannot continue it follows. */
  lemma ParseFloatIgnoresTail(ws: string, t: string, w: string)
    requires forall i :: 0 <= i < |ws| ==> IsSpace(ws[i])
    requires DecimalAt(t, 0).Some? && DecimalAt(t, 0).value.1 == |t|
    requires Stops(w)
    ensures ParseFloat(ws + t + w) == Some(DecimalAt(t, 0).value.0)
  {
    var u := t + w;
    assert ws + t + w == ws + u;
    DecimalAtAppend(t, w, 0);
    LiteralStartsSolid(u);
    TrimSpacePrefix(ws, u);
  }

  /** The first character of a decimal literal is not white space. */
  lemma LiteralStartsSolid(t: string)
    requires DecimalAt(t, 0).Some?
    ensures t != [] && !IsSpace(t[0])
  {
    if t[0] != '+' && t[0] != '-' && !IsDigit(t[0]) {
      assert RunEnd(t, 0) == 0;
    }
  }

  /** Leading white space is what `TrimStart` removes, up to text that does
      not start with white space. */
  lemma {:induction false} TrimSpacePrefix(ws: string, t: string)
    requires forall i :: 0 <= i < |ws| ==> IsSpace(ws[i])
    requires t != [] && !IsSpace(t[0])
    ensures TrimStart(ws + t) == t
  {
    if |ws| == 0 {
      assert ws + t == t;
    } else {
      assert (ws + t)[1..] == ws[1..] + t;
      TrimSpacePrefix(ws[1..], t);
    }
  }

  /** On a non-blank string, `ToNumber` and `parseFloat` agree whenever
      `ToNumber` gives a number: a numeric id reads the same either way. */
  lemma NumericStringsAgree(s: string)
    requires Trim(s) != "" && StringToNumber(s).Some?
    ensures ParseFloat(s) == StringToNumber(s)
  {
    var ts := TrimStart(s);
    var t := TrimEnd(ts);
    assert Trim(s) == t;
    EndSplit(ts);
    DecimalAtAppend(t, ts[|t|..], 0);
  }

  /** What `TrimEnd` leaves of a string is followed, in that string, by text
      that is empty or starts with white space. */
  lemma EndSplit(ts: string)
    ensures ts == TrimEnd(ts) + ts[|TrimEnd(ts)|..]
    ensures Stops(ts[|TrimEnd(ts)|..])
  {
    var t := TrimEnd(ts);
    var w := ts[|t|..];
    if w != [] {
      assert w[0] == ts[|t|];
      SpaceStops(w[0]);
    }
  }

  /** White space cannot continue a decimal literal. */
  lemma SpaceStops(c: char)
    requires IsSpace(c)
    ensures !IsDigit(c) && c != '.' && c != 'e' && c != 'E'
  {
  }
}
