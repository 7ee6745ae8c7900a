/** The JavaScript string built-ins the controller relies on: `String.prototype.trim`,
    `String.prototype.split` with a one-character separator, and `Number.prototype.toString`
    on the non-negative integers `Date.now()` returns. */
module JsText {

  import opened Wrappers

  /** The WhiteSpace and LineTerminator code points of ECMAScript, which `trim` strips. */
  predicate IsJsSpace(c: char) {
    var k := c as int;
    k == 0x09 || k == 0x0A || k == 0x0B || k == 0x0C || k == 0x0D || k == 0x20 ||
    k == 0xA0 || k == 0x1680 || (0x2000 <= k <= 0x200A) || k == 0x2028 || k == 0x2029 ||
    k == 0x202F || k == 0x205F || k == 0x3000 || k == 0xFEFF
  }

  /** Drops the leading white space: what is left is a suffix that starts with a
      non-space, and everything dropped was white space. */
  function TrimStart(s: string): (r: string)
    ensures |r| <= |s| && r == s[|s| - |r|..]
    ensures r == [] || !IsJsSpace(r[0])
    ensures forall i | 0 <= i < |s| - |r| :: IsJsSpace(s[i])
  {
    if s != [] && IsJsSpace(s[0]) then TrimStart(s[1..]) else s
  }

  /** Drops the trailing white space: what is left is a prefix that ends with a
      non-space, and everything dropped was white space. */
  function TrimEnd(s: string): (r: string)
    ensures |r| <= |s| && r == s[..|r|]
    ensures r == [] || !IsJsSpace(r[|r| - 1])
    ensures forall i | |r| <= i < |s| :: IsJsSpace(s[i])
  {
    if s != [] && IsJsSpace(s[|s| - 1]) then TrimEnd(s[..|s| - 1]) else s
  }

  /** `s.trim()`: a slice of `s` that neither starts nor ends with white space, and
      everything cut from either end is white space. */
  function Trim(s: string): (r: string)
    ensures r == [] || (!IsJsSpace(r[0]) && !IsJsSpace(r[|r| - 1]))
    ensures exists k | 0 <= k <= |s| - |r| ::
      s[k..][..|r|] == r &&
      (forall i | 0 <= i < k :: IsJsSpace(s[i])) && (forall i | k + |r| <= i < |s| :: IsJsSpace(s[i]))
  {
    var t := TrimStart(s);
    var r := TrimEnd(t);
    var k := |s| - |t|;
    assert s[k..][..|r|] == r;
    r
  }

  /** `!s.trim()`: the trimmed string is the empty (falsy) string, which happens exactly
      when every character of `s` is white space. */
  predicate IsBlank(s: string): (b: bool)
    ensures b <==> forall i | 0 <= i < |s| :: IsJsSpace(s[i])
  {
    Trim(s) == []
  }

  /** `s.split([sep])`: the pieces between separators, at least one, none holding the separator. */
  function Split(s: string, sep: char): (r: seq<string>)
    ensures |r| >= 1
    ensures forall i | 0 <= i < |r| :: sep !in r[i]
  {
    if s == [] then [[]]
    else
      var rest := Split(s[1..], sep);
      if s[0] == sep then [[]] + rest
      else [[s[0]] + rest[0]] + rest[1..]
  }

  /** `parts.join([sep])`. */
  function Join(parts: seq<string>, sep: char): string
    requires |parts| >= 1
  {
    if |parts| == 1 then parts[0] else parts[0] + [sep] + Join(parts[1..], sep)
  }

  /** `s.split(sep)[1]`: the piece after the first separator, or `undefined` when there
      is none, that is, exactly when the separator does not occur in `s`. */
  function SecondPiece(s: string, sep: char): (r: Option<string>)
    ensures r.None? <==> sep !in s
    ensures r.Some? ==> sep !in r.value && |r.value| < |s|
  {
    var pieces := Split(s, sep);
    if sep !in s then
      SplitFree(s, sep);
      None
    else
      JoinSplit(s, sep);
      assert |pieces| >= 2;
      assert |Join(pieces, sep)| == |pieces[0]| + 1 + |Join(pieces[1..], sep)|;
      Some(pieces[1])
  }

  /** Joining the pieces again gives back the string that was split. */
  lemma {:induction false} JoinSplit(s: string, sep: char)
    ensures Join(Split(s, sep), sep) == s
  {
    if s != [] {
      var rest := Split(s[1..], sep);
      JoinSplit(s[1..], sep);
      if s[0] == sep {
        assert ([[]] + rest)[1..] == rest;
      } else {
        var r := [[s[0]] + rest[0]] + rest[1..];
        if |rest| > 1 {
          assert r[1..] == rest[1..];
          assert Join(r, sep) == [s[0]] + rest[0] + [sep] + Join(rest[1..], sep);
        }
        assert Join(r, sep) == [s[0]] + Join(rest, sep);
        assert s == [s[0]] + s[1..];
      }
    }
  }

  /** A separator-free string splits into itself alone. */
  lemma {:induction false} SplitFree(p: string, sep: char)
    requires sep !in p
    ensures Split(p, sep) == [p]
  {
    if p != [] {
      SplitFree(p[1..], sep);
      assert [p[0]] + p[1..] == p;
    }
  }

  /** A separator-free prefix followed by the separator becomes the first piece. */
  lemma {:induction false} SplitAfterPrefix(p: string, rest: string, sep: char)
    requires sep !in p
    ensures Split(p + [sep] + rest, sep) == [p] + Split(rest, sep)
  {
    var s := p + [sep] + rest;
    if p == [] {
      assert s[0] == sep && s[1..] == rest;
    } else {
      assert s[0] == p[0];
      assert s[1..] == p[1..] + [sep] + rest;
      SplitAfterPrefix(p[1..], rest, sep);
      assert [p[0]] + p[1..] == p;
    }
  }

  /** Splitting a join of separator-free pieces gives back the pieces. */
  lemma {:induction false} SplitJoin(parts: seq<string>, sep: char)
    requires |parts| >= 1
    requires forall i | 0 <= i < |parts| :: sep !in parts[i]
    ensures Split(Join(parts, sep), sep) == parts
  {
    if |parts| == 1 {
      SplitFree(parts[0], sep);
    } else {
      SplitJoin(parts[1..], sep);
      SplitAfterPrefix(parts[0], Join(parts[1..], sep), sep);
      assert [parts[0]] + parts[1..] == parts;
    }
  }

  /** The first piece is the longest separator-free prefix: it is followed by the
      separator or by the end of the string. */
  lemma {:induction false} FirstPieceIsPrefix(s: string, sep: char)
    ensures var h := Split(s, sep)[0]; |h| <= |s| && s[..|h|] == h && (|h| == |s| || s[|h|] == sep)
  {
    if s != [] && s[0] != sep {
      FirstPieceIsPrefix(s[1..], sep);
    }
  }

  /** After a separator-free prefix and the first separator, `split(sep)[1]` is the
      longest separator-free prefix of what follows. */
  lemma SecondPieceAfterFirstSeparator(prefix: string, rest: string, sep: char)
    requires sep !in prefix
    ensures SecondPiece(prefix + [sep] + rest, sep) == Some(Split(rest, sep)[0])
    ensures var b := Split(rest, sep)[0];
      sep !in b && |b| <= |rest| && rest[..|b|] == b && (|b| == |rest| || rest[|b|] == sep)
  {
    SplitAfterPrefix(prefix, rest, sep);
    FirstPieceIsPrefix(rest, sep);
  }

  /** For `prefix,body` with neither part holding the separator, `split(sep)[1]` is `body`. */
  lemma SecondPieceOfPair(prefix: string, body: string, sep: char)
    requires sep !in prefix && sep !in body
    ensures SecondPiece(prefix + [sep] + body, sep) == Some(body)
  {
    SplitJoin([prefix, body], sep);
    assert Join([prefix, body], sep) == prefix + [sep] + body;
  }

  /** The decimal digit characters. */
  const Digits: string := "0123456789"

  predicate IsDigit(c: char) {
    '0' <= c <= '9'
  }

  /** `n.toString()` for a non-negative integer below 10^21: its decimal digits, with no
      leading zero. */
  function NatToString(n: nat): (r: string)
    ensures |r| >= 1
    ensures forall i | 0 <= i < |r| :: IsDigit(r[i])
    ensures r[0] == '0' ==> n == 0
    ensures |r| > 1 ==> r[0] != '0'
  {
    if n < 10 then [Digits[n]] else NatToString(n / 10) + [Digits[n % 10]]
  }

  /** The value of a string of decimal digits. */
  function DigitsValue(s: string): nat {
    if s == [] then 0
    else
      var d := s[|s| - 1] as int - '0' as int;
      DigitsValue(s[..|s| - 1]) * 10 + (if 0 <= d < 10 then d else 0)
  }

  lemma DigitValue(d: nat)
    requires d < 10
    ensures Digits[d] as int - '0' as int == d
  {
  }

  /** Reading the decimal string back gives the number. */
  lemma {:induction false} NatToStringRoundTrip(n: nat)
    ensures DigitsValue(NatToString(n)) == n
  {
    var s := NatToString(n);
    if n < 10 {
      DigitValue(n);
      assert s[..0] == [];
    } else {
      NatToStringRoundTrip(n / 10);
      DigitValue(n % 10);
      assert s[..|s| - 1] == NatToString(n / 10);
    }
  }

  /** Distinct numbers have distinct decimal strings. */
  lemma NatToStringInjective(a: nat, b: nat)
    requires NatToString(a) == NatToString(b)
    ensures a == b
  {
    NatToStringRoundTrip(a);
    NatToStringRoundTrip(b);
  }
}
