/** The string operations the editor applies: `trim`, `split(',')` and
    `toUpperCase`. Strings are sequences of Unicode scalar values. */
module Text {

  /** The code points JavaScript's `trim` removes: WhiteSpace and LineTerminator
      of sections 12.2 and 12.3 of ECMA-262 (TAB, VT, FF, ZWNBSP, the Zs space
      separators, LF, CR, LS and PS). */
  predicate IsSpace(c: char) {
    c == '\t' || c == '\n' || c == '\U{B}' || c == '\U{C}' || c == '\r'
    || c == ' ' || c == '\U{A0}' || c == '\U{1680}'
    || ('\U{2000}' <= c <= '\U{200A}')
    || c == '\U{2028}' || c == '\U{2029}' || c == '\U{202F}' || c == '\U{205F}'
    || c == '\U{3000}' || c == '\U{FEFF}'
  }

  /** Removes leading white space: the result is the longest suffix of `s` that
      does not start with white space. */
  function TrimStart(s: string): (r: string)
    ensures |r| <= |s| && r == s[|s| - |r|..]
    ensures r == [] || !IsSpace(r[0])
    ensures forall i :: 0 <= i < |s| - |r| ==> IsSpace(s[i])
  {
    if |s| > 0 && IsSpace(s[0]) then TrimStart(s[1..]) else s
  }

  /** Removes trailing white space: the result is the longest prefix of `s` that
      does not end with white space. */
  function TrimEnd(s: string): (r: string)
    ensures |r| <= |s| && r == s[..|r|]
    ensures r == [] || !IsSpace(r[|r| - 1])
    ensures forall i :: |r| <= i < |s| ==> IsSpace(s[i])
  {
    if |s| > 0 && IsSpace(s[|s| - 1]) then TrimEnd(s[..|s| - 1]) else s
  }

  /** `s.trim()`: a slice of `s` that neither starts nor ends with white
      space, and every character cut off on either side is white space. */
  function Trim(s: string): (r: string)
    ensures r == [] || (!IsSpace(r[0]) && !IsSpace(r[|r| - 1]))
    ensures exists i, j ::
      && 0 <= i <= j <= |s| && r == s[i..j]
      && (forall k :: 0 <= k < i ==> IsSpace(s[k])) && (forall k :: j <= k < |s| ==> IsSpace(s[k]))
  {
    var t := TrimStart(s);
    var r := TrimEnd(t);
    var i := |s| - |t|;
    assert r == s[i..i + |r|];
    assert forall k :: i + |r| <= k < |s| ==> IsSpace(s[k]) by {
      forall k | i + |r| <= k < |s| ensures IsSpace(s[k]) {
        assert s[k] == t[k - i];
      }
    }
    r
  }

  /** A non-empty sequence is its prefix followed by its last element. */
  lemma SplitLast<T>(s: seq<T>)
    requires |s| > 0
    ensures s == s[..|s| - 1] + [s[|s| - 1]]
  {
  }

  /** Dropping the last element of `a + b`, for a non-empty `b`, drops it
      from `b`. */
  lemma AppendInit<T>(a: seq<T>, b: seq<T>)
    requires |b| > 0
    ensures (a + b)[..|a + b| - 1] == a + b[..|b| - 1] && (a + b)[|a + b| - 1] == b[|b| - 1]
  {
  }


  /** The prefix of length `i` of the prefix of length `i + 1`. */
  lemma PrefixStep<T>(s: seq<T>, i: nat)
    requires i < |s|
    ensures s[..i + 1][..i] == s[..i] && s[..i + 1] == s[..i] + [s[i]]
  {
  }

  /** A sequence is what comes before entry `j`, that entry, and what follows. */
  lemma SplitAt<T>(s: seq<T>, j: nat)
    requires j < |s|
    ensures s == s[..j] + [s[j]] + s[j + 1..]
  {
  }

  /** Trimming twice is trimming once. */
  lemma TrimIdempotent(s: string)
    ensures Trim(Trim(s)) == Trim(s)
  {
    var r := Trim(s);
    assert TrimStart(r) == r;
    assert TrimEnd(r) == r;
  }

  /** Trimming only removes characters. */
  lemma TrimKeeps(s: string)
    ensures forall c :: c in Trim(s) ==> c in s
  {
    var t := TrimStart(s);
    assert t == s[|s| - |t|..];
    assert Trim(s) == t[..|Trim(s)|];
  }

  /** `s.split(sep)` for a one-character separator: the pieces between
      separators, empty pieces included; never an empty list. */
  function Split(s: string, sep: char): (parts: seq<string>)
    ensures |parts| >= 1
    ensures forall i :: 0 <= i < |parts| ==> sep !in parts[i]
    decreases |s|
  {
    if |s| == 0 then [""]
    else
      var rest := Split(s[1..], sep);
      if s[0] == sep then [""] + rest else [[s[0]] + rest[0]] + rest[1..]
  }

  /** `parts.join(sep)`. */
  function Join(parts: seq<string>, sep: char): string
    requires |parts| >= 1
  {
    if |parts| == 1 then parts[0] else parts[0] + [sep] + Join(parts[1..], sep)
  }

  /** Joining the pieces of a split gives the string back. */
  lemma {:induction false} JoinSplit(s: string, sep: char)
    ensures Join(Split(s, sep), sep) == s
    decreases |s|
  {
    if |s| > 0 {
      var rest := Split(s[1..], sep);
      JoinSplit(s[1..], sep);
      assert s == [s[0]] + s[1..];
      if s[0] != sep {
        if |rest| > 1 {
          assert rest == [rest[0]] + rest[1..];
          assert Join(rest, sep) == rest[0] + [sep] + Join(rest[1..], sep);
        }
      }
    }
  }

  /** Splitting pieces that contain no separator gives the same pieces back, so
      the pieces of a split are exactly determined by the string. */
  lemma {:induction false} SplitJoin(parts: seq<string>, sep: char)
    requires |parts| >= 1
    requires forall i :: 0 <= i < |parts| ==> sep !in parts[i]
    ensures Split(Join(parts, sep), sep) == parts
    decreases |parts|, |parts[0]|
  {
    if |parts[0]| > 0 {
      var tail := [parts[0][1..]] + parts[1..];
      forall i | 0 <= i < |tail| ensures sep !in tail[i] {
        if i == 0 { assert forall c :: c in parts[0][1..] ==> c in parts[0]; } else { assert tail[i] == parts[i]; }
      }
      SplitJoin(tail, sep);
      SplitFirstChar(parts, sep);
    } else if |parts| > 1 {
      SplitJoin(parts[1..], sep);
      var j := Join(parts, sep);
      assert j == [sep] + Join(parts[1..], sep);
      calc {
        Split(j, sep);
        [""] + Split(Join(parts[1..], sep), sep);
        [""] + parts[1..];
        parts;
      }
    }
  }

  /** The step of `SplitJoin` for a first piece that starts with a character
      other than the separator. */
  lemma SplitFirstChar(parts: seq<string>, sep: char)
    requires |parts| >= 1 && |parts[0]| > 0 && parts[0][0] != sep
    requires Split(Join([parts[0][1..]] + parts[1..], sep), sep) == [parts[0][1..]] + parts[1..]
    ensures Split(Join(parts, sep), sep) == parts
  {
    var p := parts[0];
    var tail := [p[1..]] + parts[1..];
    JoinFirstChar(parts, sep);
    calc {
      Split(Join(parts, sep), sep);
      [[p[0]] + Split(Join(tail, sep), sep)[0]] + Split(Join(tail, sep), sep)[1..];
      [[p[0]] + p[1..]] + parts[1..];
      { assert [p[0]] + p[1..] == p; }
      [p] + parts[1..];
      parts;
    }
  }

  /** The joined string starts with the first piece's first character, and
      the rest is the join with that character dropped. */
  lemma JoinFirstChar(parts: seq<string>, sep: char)
    requires |parts| >= 1 && |parts[0]| > 0
    ensures var j := Join(parts, sep);
      |j| > 0 && j[0] == parts[0][0] && j[1..] == Join([parts[0][1..]] + parts[1..], sep)
  {
    var p := parts[0];
    var tail := [p[1..]] + parts[1..];
    if |parts| == 1 {
      assert Join(tail, sep) == p[1..];
    } else {
      var rest := [sep] + Join(parts[1..], sep);
      assert tail[1..] == parts[1..];
      assert Join(tail, sep) == p[1..] + rest;
      assert Join(parts, sep) == p + rest;
      DropFirst(p, rest);
    }
  }

  lemma DropFirst<T>(a: seq<T>, b: seq<T>)
    requires |a| > 0
    ensures (a + b)[0] == a[0] && (a + b)[1..] == a[1..] + b
  {
  }

  /** The lower-case letters the model upper-cases: Basic Latin a-z and the
      Cyrillic lower-case block U+0430-U+045F. */
  predicate LowerCase(c: char) {
    ('a' <= c <= 'z') || ('\U{430}' <= c <= '\U{45F}')
  }

  /** `toUpperCase` on one character: Basic Latin and the Cyrillic block
      (U+0400-U+045F) are mapped, every other character is kept; no lower-case
      letter is left. */
  function UpperChar(c: char): (u: char)
    ensures !LowerCase(u)
    ensures LowerCase(c) <==> u != c
  {
    if 'a' <= c <= 'z' then (c as int - 32) as char
    else if '\U{430}' <= c <= '\U{44F}' then (c as int - 32) as char
    else if '\U{450}' <= c <= '\U{45F}' then (c as int - 80) as char
    else c
  }

  /** `s.toUpperCase()`, character by character: the same length, no
      lower-case letter left, every other character kept in place. */
  function Upper(s: string): (u: string)
    ensures |u| == |s|
    ensures forall i :: 0 <= i < |s| ==> !LowerCase(u[i]) && (!LowerCase(s[i]) ==> u[i] == s[i])
    ensures forall i :: 0 <= i < |s| ==> u[i] == UpperChar(s[i])
  {
    seq(|s|, i requires 0 <= i < |s| => UpperChar(s[i]))
  }

  /** Upper-casing is idempotent, and it maps only the empty string to "". */
  lemma UpperIdempotent(s: string)
    ensures Upper(Upper(s)) == Upper(s)
    ensures Upper(s) == "" <==> s == ""
  {
  }
}
