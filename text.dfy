/** The pieces of Python's string handling the relay relies on: `str.split(sep)`,
    `str.strip()` and `int()` on ASCII decimal digits. */
module Text {

  /** Python's `str.isspace()` for one character: the characters `str.strip()` removes. */
  predicate IsSpace(c: char) {
    || '\t' <= c <= '\r'
    || '\U{1C}' <= c <= '\U{1F}'
    || c == ' '
    || c == '\U{85}'
    || c == '\U{A0}'
    || c == '\U{1680}'
    || '\U{2000}' <= c <= '\U{200A}'
    || c == '\U{2028}'
    || c == '\U{2029}'
    || c == '\U{202F}'
    || c == '\U{205F}'
    || c == '\U{3000}'
  }

  predicate AllSpace(s: string) {
    forall i :: 0 <= i < |s| ==> IsSpace(s[i])
  }

  /** Neither begins nor ends with whitespace. */
  predicate Trimmed(s: string) {
    s == [] || (!IsSpace(s[0]) && !IsSpace(s[|s| - 1]))
  }

  // ---------------------------------------------------------------- split

  /** `s.split(sep)`: the pieces between separators, always at least one ("" gives [""]). */
  function Split(s: string, sep: char): (parts: seq<string>)
    ensures |parts| >= 1
    decreases |s|
  {
    if s == [] then [[]]
    else
      var rest := Split(s[1..], sep);
      if s[0] == sep then [[]] + rest else [[s[0]] + rest[0]] + rest[1..]
  }

  /** `sep.join(parts)`. */
  function Join(parts: seq<string>, sep: char): string
  {
    if parts == [] then []
    else if |parts| == 1 then parts[0]
    else parts[0] + [sep] + Join(parts[1..], sep)
  }

  /** No piece of a split contains the separator. */
  lemma {:induction false} SplitPiecesHaveNoSeparator(s: string, sep: char)
    ensures forall i :: 0 <= i < |Split(s, sep)| ==> sep !in Split(s, sep)[i]
    decreases |s|
  {
    if s != [] {
      SplitPiecesHaveNoSeparator(s[1..], sep);
    }
  }

  /** Joining the pieces again gives back the string. */
  lemma {:induction false} JoinSplit(s: string, sep: char)
    ensures Join(Split(s, sep), sep) == s
    decreases |s|
  {
    if s != [] {
      JoinSplit(s[1..], sep);
      var rest := Split(s[1..], sep);
      if s[0] == sep {
        assert Split(s, sep) == [[]] + rest;
        assert s == [] + [sep] + s[1..];
      } else {
        var parts := Split(s, sep);
        if |rest| == 1 {
          assert parts == [[s[0]] + rest[0]];
        } else {
          assert parts[1..] == rest[1..];
          assert Join(rest, sep) == rest[0] + [sep] + Join(rest[1..], sep);
        }
      }
    }
  }

  /** A string without the separator splits into itself alone. */
  lemma {:induction false} SplitWithoutSeparator(s: string, sep: char)
    requires sep !in s
    ensures Split(s, sep) == [s]
    decreases |s|
  {
    if s != [] {
      assert sep !in s[1..];
      SplitWithoutSeparator(s[1..], sep);
      assert [s[0]] + s[1..] == s;
    }
  }

  /** Splitting at one separator splits the two sides independently. */
  lemma {:induction false} SplitAtSeparator(a: string, b: string, sep: char)
    ensures Split(a + [sep] + b, sep) == Split(a, sep) + Split(b, sep)
    decreases |a|
  {
    if a == [] {
      assert a + [sep] + b == [sep] + b;
      SplitCons(sep, b, sep);
    } else {
      SplitAtSeparatorStep(a, b, sep);
    }
  }

  lemma {:induction false} SplitAtSeparatorStep(a: string, b: string, sep: char)
    requires a != []
    ensures Split(a + [sep] + b, sep) == Split(a, sep) + Split(b, sep)
    decreases |a|, 0
  {
    var t := a[1..] + [sep] + b;
    SplitAtSeparator(a[1..], b, sep);
    var left, right := Split(a[1..], sep), Split(b, sep);
    assert Split(t, sep) == left + right;
    calc {
      Split(a + [sep] + b, sep);
      { assert a + [sep] + b == [a[0]] + t; }
      Split([a[0]] + t, sep);
      { SplitCons(a[0], t, sep); }
      if a[0] == sep then [[]] + (left + right) else [[a[0]] + (left + right)[0]] + (left + right)[1..];
      { assert (left + right)[0] == left[0]; assert (left + right)[1..] == left[1..] + right; }
      (if a[0] == sep then [[]] + left else [[a[0]] + left[0]] + left[1..]) + right;
      { SplitCons(a[0], a[1..], sep); assert [a[0]] + a[1..] == a; }
      Split(a, sep) + right;
    }
  }

  /** One step of Split, on the first character. */
  lemma SplitCons(c: char, t: string, sep: char)
    ensures Split([c] + t, sep) ==
      if c == sep then [[]] + Split(t, sep) else [[c] + Split(t, sep)[0]] + Split(t, sep)[1..]
  {
    assert ([c] + t)[1..] == t;
  }

  /** Splitting a join of separator-free pieces gives the pieces back. */
  lemma {:induction false} SplitJoin(parts: seq<string>, sep: char)
    requires |parts| >= 1
    requires forall i :: 0 <= i < |parts| ==> sep !in parts[i]
    ensures Split(Join(parts, sep), sep) == parts
    decreases |parts|
  {
    if |parts| == 1 {
      SplitWithoutSeparator(parts[0], sep);
    } else {
      SplitJoin(parts[1..], sep);
      SplitWithoutSeparator(parts[0], sep);
      SplitAtSeparator(parts[0], Join(parts[1..], sep), sep);
      assert [parts[0]] + parts[1..] == parts;
    }
  }

  // ---------------------------------------------------------------- strip

  /** `s.lstrip()`: a suffix of `s`; what it drops is whitespace, what it keeps does not start with it. */
  function TrimLeft(s: string): (r: string)
    ensures |r| <= |s| && r == s[|s| - |r|..]
    ensures AllSpace(s[..|s| - |r|])
    ensures r == [] || !IsSpace(r[0])
    decreases |s|
  {
    if s != [] && IsSpace(s[0]) then TrimLeft(s[1..]) else s
  }

  /** `s.rstrip()`: a prefix of `s`; what it drops is whitespace, what it keeps does not end with it. */
  function TrimRight(s: string): (r: string)
    ensures |r| <= |s| && r == s[..|r|]
    ensures AllSpace(s[|r|..])
    ensures r == [] || !IsSpace(r[|r| - 1])
    decreases |s|
  {
    if s != [] && IsSpace(s[|s| - 1]) then TrimRight(s[..|s| - 1]) else s
  }

  /** `s.strip()`: `s` without its leading and trailing whitespace. */
  function Strip(s: string): (r: string)
    ensures Trimmed(r)
  {
    TrimRight(TrimLeft(s))
  }

  /** What strip keeps is an infix `s[i..i + |r|]` of `s` with only whitespace on either side. */
  lemma StripIsInfix(s: string) returns (i: nat)
    ensures i + |Strip(s)| <= |s| && Strip(s) == s[i..i + |Strip(s)|]
    ensures AllSpace(s[..i]) && AllSpace(s[i + |Strip(s)|..])
  {
    var l := TrimLeft(s);
    var r := TrimRight(l);
    i := |s| - |l|;
    assert l == s[i..];
    assert r == l[..|r|];
    assert r == s[i..i + |r|];
    assert AllSpace(l[|r|..]);
    assert s[i + |r|..] == l[|r|..];
  }

  /** Strip removes exactly the surrounding whitespace and nothing else. */
  lemma StripSurrounded(p: string, core: string, q: string)
    requires AllSpace(p) && AllSpace(q) && Trimmed(core)
    ensures Strip(p + core + q) == core
  {
    var s := p + core + q;
    if core == [] {
      assert AllSpace(s);
      TrimLeftAllSpace(s);
    } else {
      assert s == p + (core + q);
      TrimLeftOfSpaces(p, core + q);
      TrimRightOfSpaces(core, q);
    }
  }

  lemma {:induction false} TrimLeftAllSpace(s: string)
    requires AllSpace(s)
    ensures TrimLeft(s) == []
    decreases |s|
  {
    if s != [] {
      TrimLeftAllSpace(s[1..]);
    }
  }

  lemma {:induction false} TrimRightAllSpace(s: string)
    requires AllSpace(s)
    ensures TrimRight(s) == []
    decreases |s|
  {
    if s != [] {
      TrimRightAllSpace(s[..|s| - 1]);
    }
  }

  lemma {:induction false} TrimLeftOfSpaces(p: string, rest: string)
    requires AllSpace(p)
    requires rest == [] || !IsSpace(rest[0])
    ensures TrimLeft(p + rest) == rest
    decreases |p|
  {
    if p == [] {
      assert p + rest == rest;
    } else {
      assert (p + rest)[1..] == p[1..] + rest;
      TrimLeftOfSpaces(p[1..], rest);
    }
  }

  lemma {:induction false} TrimRightOfSpaces(core: string, q: string)
    requires AllSpace(q)
    requires core == [] || !IsSpace(core[|core| - 1])
    ensures TrimRight(core + q) == core
    decreases |q|
  {
    if q == [] {
      assert core + q == core;
    } else {
      assert (core + q)[..|core + q| - 1] == core + q[..|q| - 1];
      TrimRightOfSpaces(core, q[..|q| - 1]);
    }
  }

  /** Strip gives the empty string exactly on all-whitespace strings. */
  lemma StripEmptyIff(s: string)
    ensures Strip(s) == [] <==> AllSpace(s)
  {
    if AllSpace(s) {
      TrimLeftAllSpace(s);
    }
  }

  // ---------------------------------------------------------------- digits

  predicate IsDigit(c: char) {
    '0' <= c <= '9'
  }

  function DigitValue(c: char): (d: nat)
    requires IsDigit(c)
    ensures d <= 9
  {
    (c as int - '0' as int) as nat
  }

  function DigitChar(d: nat): (c: char)
    requires d <= 9
    ensures IsDigit(c) && DigitValue(c) == d
  {
    (d + '0' as int) as char
  }

  predicate AllDigits(s: string) {
    forall i :: 0 <= i < |s| ==> IsDigit(s[i])
  }

  /** `int(s)` on a string of ASCII decimal digits. */
  function DecimalValue(s: string): nat
    requires AllDigits(s)
    decreases |s|
  {
    if s == [] then 0 else 10 * DecimalValue(s[..|s| - 1]) + DigitValue(s[|s| - 1])
  }
}
