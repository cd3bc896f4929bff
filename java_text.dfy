/**
 * The java.lang.String and java.lang.Integer operations the modelled code
 * relies on: decimal printing and parsing, String.split on a one-character
 * separator, trim, ASCII lower-casing, startsWith and literal replacement.
 */
module JavaText {
  import opened Wrappers
  import opened JavaData

  predicate IsDigit(c: char) {
    '0' <= c <= '9'
  }

  predicate AllDigits(s: string) {
    forall i :: 0 <= i < |s| ==> IsDigit(s[i])
  }

  function DigitChar(d: nat): (c: char)
    requires d < 10
    ensures IsDigit(c)
  {
    (('0' as int) + d) as char
  }

  function DigitValue(c: char): (d: nat)
    requires IsDigit(c)
    ensures d < 10 && DigitChar(d) == c
  {
    (c as int) - ('0' as int)
  }

  /** Decimal digits of `n`, without leading zeros. */
  function NatToString(n: nat): (s: string)
    ensures |s| >= 1 && AllDigits(s)
  {
    if n < 10 then [DigitChar(n)] else NatToString(n / 10) + [DigitChar(n % 10)]
  }

  /** The value of a run of decimal digits. */
  function DigitsValue(s: string): nat
    requires AllDigits(s)
  {
    if s == [] then 0 else DigitsValue(s[..|s| - 1]) * 10 + DigitValue(s[|s| - 1])
  }

  lemma {:induction false} DigitsValueOfNatToString(n: nat)
    ensures DigitsValue(NatToString(n)) == n
  {
    if n >= 10 {
      var s := NatToString(n);
      assert s[..|s| - 1] == NatToString(n / 10);
      DigitsValueOfNatToString(n / 10);
    }
  }

  /** Integer.toString / Long.toString / string concatenation of a number. */
  function IntToString(n: int): (s: string)
    ensures |s| >= 1
    ensures n >= 0 ==> s == NatToString(n)
    ensures n < 0 ==> s == "-" + NatToString(-n)
  {
    if n < 0 then "-" + NatToString(-n) else NatToString(n)
  }

  /**
   * Integer.parseInt over ASCII digits: an optional '+' or '-', then at
   * least one digit, with a value that fits a Java int.
   */
  function ParseInt(s: string): (r: Option<Int32>)
    ensures r.Some? ==> |s| >= 1
  {
    if s == [] then None
    else
      var signed := s[0] == '-' || s[0] == '+';
      var digits := if signed then s[1..] else s;
      if digits == [] || !AllDigits(digits) then None
      else
        var v: int := if s[0] == '-' then -(DigitsValue(digits) as int) else DigitsValue(digits);
        if -TWO_31 <= v < TWO_31 then Some(v) else None
  }

  lemma ParseIntOfIntToString(n: Int32)
    ensures ParseInt(IntToString(n)) == Some(n)
  {
    var s := IntToString(n);
    if n < 0 {
      var d := NatToString(-(n as int));
      assert s == "-" + d && s[0] == '-' && s[1..] == d;
      DigitsValueOfNatToString(-(n as int));
      assert ParseInt(s) == Some(-(DigitsValue(d) as int));
    } else {
      var d := NatToString(n);
      assert s == d && IsDigit(d[0]);
      DigitsValueOfNatToString(n);
      assert ParseInt(s) == Some(DigitsValue(d));
    }
  }

  /** All fields of `s` between occurrences of `c`, empty ones included. */
  function Fields(s: string, c: char): (r: seq<string>)
    ensures |r| >= 1
  {
    if s == [] then [[]]
    else
      var rest := Fields(s[1..], c);
      if s[0] == c then [[]] + rest else [[s[0]] + rest[0]] + rest[1..]
  }

  function DropTrailingEmpty(fs: seq<string>): (r: seq<string>)
    ensures |r| <= |fs| && r == fs[..|r|]
    ensures r == [] || r[|r| - 1] != []
  {
    if fs == [] then []
    else if fs[|fs| - 1] == [] then DropTrailingEmpty(fs[..|fs| - 1])
    else fs
  }

  /**
   * String.split(regex) for a regex that is one ordinary character: the
   * whole string when the separator does not occur, otherwise the fields
   * with trailing empty fields removed.
   */
  function Split(s: string, c: char): seq<string> {
    if c !in s then [s] else DropTrailingEmpty(Fields(s, c))
  }

  /** String.split(regex, 2): at most two parts, empty ones kept. */
  function Split2(s: string, c: char): (r: seq<string>)
    ensures 1 <= |r| <= 2
    ensures |r| == 2 <==> c in s
  {
    if s == [] then [s]
    else if s[0] == c then [[], s[1..]]
    else
      var rest := Split2(s[1..], c);
      if |rest| == 1 then [s] else [[s[0]] + rest[0], rest[1]]
  }

  lemma {:induction false} FieldsNoSeparator(s: string, c: char)
    requires c !in s
    ensures Fields(s, c) == [s]
  {
    if s != [] {
      assert s == [s[0]] + s[1..];
      assert c !in s[1..];
      FieldsNoSeparator(s[1..], c);
    }
  }

  lemma {:induction false} FieldsAppend(a: string, c: char, b: string)
    requires c !in a
    ensures Fields(a + [c] + b, c) == [a] + Fields(b, c)
  {
    if a != [] {
      var s := a + [c] + b;
      assert s[0] == a[0] && s[0] != c;
      assert s[1..] == a[1..] + [c] + b;
      assert c !in a[1..] by { assert forall i :: 0 <= i < |a| - 1 ==> a[1..][i] == a[i + 1]; }
      FieldsAppend(a[1..], c, b);
      assert [a[0]] + a[1..] == a;
    } else {
      assert (a + [c] + b)[1..] == b;
    }
  }

  /**
   * Splitting `a_b_d` on '_' gives back the three parts when none of them
   * contains '_' and the last one is not empty.
   */
  lemma SplitThree(a: string, b: string, d: string, c: char)
    requires c !in a && c !in b && c !in d && d != []
    ensures Split(a + [c] + b + [c] + d, c) == [a, b, d]
  {
    var s := a + [c] + b + [c] + d;
    assert s == a + [c] + (b + [c] + d);
    FieldsAppend(a, c, b + [c] + d);
    FieldsAppend(b, c, d);
    FieldsNoSeparator(d, c);
    assert s[|a|] == c;
  }

  /** Splitting `a_b_d_e` gives back the four parts under the same conditions. */
  lemma SplitFour(a: string, b: string, d: string, e: string, c: char)
    requires c !in a && c !in b && c !in d && c !in e && e != []
    ensures Split(a + [c] + b + [c] + d + [c] + e, c) == [a, b, d, e]
  {
    var r2 := d + [c] + e;
    var r1 := b + [c] + r2;
    var s := a + [c] + b + [c] + d + [c] + e;
    assert s == a + [c] + r1;
    FieldsNoSeparator(e, c);
    FieldsAppend(d, c, e);
    FieldsAppend(b, c, r2);
    FieldsAppend(a, c, r1);
    assert Fields(s, c) == [a, b, d, e];
    assert s[|a|] == c;
  }

  /** No field contains the separator. */
  lemma {:induction false} FieldsLackSeparator(s: string, c: char)
    ensures forall i :: 0 <= i < |Fields(s, c)| ==> c !in Fields(s, c)[i]
  {
    if s != [] {
      FieldsLackSeparator(s[1..], c);
    }
  }

  lemma SplitLacksSeparator(s: string, c: char)
    ensures forall i :: 0 <= i < |Split(s, c)| ==> c !in Split(s, c)[i]
  {
    FieldsLackSeparator(s, c);
  }

  /** A printed number holds only digits and possibly a leading '-'. */
  lemma NumberLacks(n: int, c: char)
    requires c != '-' && !IsDigit(c)
    ensures c !in IntToString(n)
  {
    var s := IntToString(n);
    if n < 0 {
      assert s == "-" + NatToString(-n);
      assert forall i :: 1 <= i < |s| ==> s[i] == NatToString(-n)[i - 1];
    }
  }

  /** The fields joined back with the separator between them. */
  function Join(parts: seq<string>, c: char): string
    requires |parts| >= 1
  {
    if |parts| == 1 then parts[0] else parts[0] + [c] + Join(parts[1..], c)
  }

  lemma {:induction false} FieldsOfJoin(parts: seq<string>, c: char)
    requires |parts| >= 1 && forall i :: 0 <= i < |parts| ==> c !in parts[i]
    ensures Fields(Join(parts, c), c) == parts
  {
    if |parts| == 1 {
      FieldsNoSeparator(parts[0], c);
    } else {
      FieldsOfJoin(parts[1..], c);
      FieldsAppend(parts[0], c, Join(parts[1..], c));
      assert [parts[0]] + parts[1..] == parts;
    }
  }

  lemma JoinTwo(a: string, b: string, c: char)
    ensures Join([a, b], c) == a + [c] + b
  {
    assert [a, b][1..] == [b];
  }

  lemma JoinThree(a: string, b: string, d: string, c: char)
    ensures Join([a, b, d], c) == a + [c] + b + [c] + d
  {
    assert [a, b, d][1..] == [b, d];
    JoinTwo(b, d, c);
  }

  /**
   * Splitting a join of two or more separator-free parts gives the parts
   * back when the last is not empty; an empty last part is dropped.
   */
  lemma SplitOfJoin(parts: seq<string>, c: char)
    requires |parts| >= 2 && forall i :: 0 <= i < |parts| ==> c !in parts[i]
    requires parts[|parts| - 1] != [] || parts[|parts| - 2] != []
    ensures parts[|parts| - 1] != [] ==> Split(Join(parts, c), c) == parts
    ensures parts[|parts| - 1] == [] ==> Split(Join(parts, c), c) == parts[..|parts| - 1]
  {
    FieldsOfJoin(parts, c);
    assert Join(parts, c)[|parts[0]|] == c;
    if parts[|parts| - 1] == [] {
      var init := parts[..|parts| - 1];
      assert init[|init| - 1] != [];
      assert DropTrailingEmpty(parts) == DropTrailingEmpty(init) == init;
    }
  }

  /** A non-empty field survives the removal of trailing empty fields. */
  lemma {:induction false} DropTrailingEmptyKeeps(fs: seq<string>, i: nat)
    requires i < |fs| && fs[i] != []
    ensures i < |DropTrailingEmpty(fs)| && DropTrailingEmpty(fs)[i] == fs[i]
  {
    if fs[|fs| - 1] == [] {
      DropTrailingEmptyKeeps(fs[..|fs| - 1], i);
    }
  }

  /** split(":", 2) of a separator-free head, the separator and a tail: the head and the whole tail. */
  lemma {:induction false} Split2OfPrefix(a: string, c: char, rest: string)
    requires c !in a
    ensures Split2(a + [c] + rest, c) == [a, rest]
  {
    var s := a + [c] + rest;
    if a == [] {
      assert s[0] == c && s[1..] == rest;
    } else {
      assert s[0] == a[0] && s[1..] == a[1..] + [c] + rest;
      assert c !in a[1..] by { assert forall i :: 0 <= i < |a| - 1 ==> a[1..][i] == a[i + 1]; }
      Split2OfPrefix(a[1..], c, rest);
      assert [a[0]] + a[1..] == a;
    }
  }

  /** String.trim: drops every leading and trailing character up to ' '. */
  function Trim(s: string): (r: string)
    ensures |r| <= |s|
  {
    TrimEnd(TrimStart(s))
  }

  function TrimStart(s: string): (r: string)
    ensures |r| <= |s|
  {
    if s != [] && s[0] <= ' ' then TrimStart(s[1..]) else s
  }

  function TrimEnd(s: string): (r: string)
    ensures |r| <= |s|
  {
    if s != [] && s[|s| - 1] <= ' ' then TrimEnd(s[..|s| - 1]) else s
  }

  function ToLowerChar(c: char): char {
    if 'A' <= c <= 'Z' then (c as int + 32) as char else c
  }

  /** String.toLowerCase restricted to ASCII letters. */
  function ToLower(s: string): (r: string)
    ensures |r| == |s|
    ensures forall i :: 0 <= i < |s| ==> r[i] == ToLowerChar(s[i])
  {
    if s == [] then [] else [ToLowerChar(s[0])] + ToLower(s[1..])
  }

  predicate StartsWith(s: string, p: string) {
    |p| <= |s| && s[..|p|] == p
  }

  predicate OccursAt(s: string, p: string, i: int) {
    0 <= i <= |s| - |p| && s[i..i + |p|] == p
  }

  /** `p` occurs somewhere in `s`. */
  predicate Occurs(s: string, p: string) {
    exists i | 0 <= i <= |s| :: OccursAt(s, p, i)
  }

  /** String.replace(target, replacement): every occurrence, left to right. */
  function Replace(s: string, target: string, repl: string): string
    requires |target| > 0
  {
    if |s| < |target| then s
    else if s[..|target|] == target then repl + Replace(s[|target|..], target, repl)
    else [s[0]] + Replace(s[1..], target, repl)
  }

  lemma {:induction false} ReplaceAbsent(s: string, target: string, repl: string)
    requires |target| > 0 && !Occurs(s, target)
    ensures Replace(s, target, repl) == s
  {
    if |s| >= |target| {
      assert !OccursAt(s, target, 0);
      assert s[0..|target|] == s[..|target|];
      assert !Occurs(s[1..], target) by {
        forall i | 0 <= i <= |s| - 1 - |target|
          ensures !OccursAt(s[1..], target, i)
        {
          assert s[1..][i..i + |target|] == s[i + 1..i + 1 + |target|];
          assert !OccursAt(s, target, i + 1);
        }
      }
      ReplaceAbsent(s[1..], target, repl);
      assert [s[0]] + s[1..] == s;
    }
  }

  /** String.replaceFirst with a literal pattern: the first occurrence only. */
  function ReplaceFirst(s: string, target: string, repl: string): string
    requires |target| > 0
  {
    if |s| < |target| then s
    else if s[..|target|] == target then repl + s[|target|..]
    else [s[0]] + ReplaceFirst(s[1..], target, repl)
  }

  lemma ReplaceFirstPrefix(s: string, p: string)
    requires |p| > 0 && StartsWith(s, p)
    ensures ReplaceFirst(s, p, "") == s[|p|..]
  {
  }
}
