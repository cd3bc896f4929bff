/**
 * DurationValue: a millisecond count together with the text it was made
 * from. Parsing sums every run of digits with its optional unit suffix,
 * the way a regex matcher for `(\d+)(ms|s|m|h|d|w|mo|y|t)?` finds them.
 */
module Duration {
  import opened Wrappers
  import opened JavaData
  import opened JavaText

  /** The units the suffix alternation captures. */
  datatype Unit = Ticks | Millis | Seconds | Minutes | Hours | Days | Weeks | Months | Years

  const DAY: nat := 86_400_000

  /** Milliseconds per unit; a month is thirty days, a year 365. */
  function Multiplier(u: Unit): (m: nat)
    ensures m >= 1
  {
    match u
    case Ticks => 50
    case Millis => 1
    case Seconds => 1_000
    case Minutes => 60_000
    case Hours => 3_600_000
    case Days => DAY
    case Weeks => 7 * DAY
    case Months => 30 * DAY
    case Years => 365 * DAY
  }

  /** The character at i, or NUL past the end. */
  function CharAt(s: string, i: nat): char {
    if i < |s| then s[i] else 0 as char
  }

  /**
   * The unit suffix at position i and its length, tried in the order of the
   * alternation; no suffix counts as minutes. The `mo` alternative comes
   * after `m`, which matches first, so it has no case here.
   */
  function UnitAt(s: string, i: nat): (r: (Unit, nat))
    requires i <= |s|
    ensures i + r.1 <= |s|
    ensures r.1 == 0 ==> r.0 == Minutes
  {
    var c := CharAt(s, i);
    var next := CharAt(s, i + 1);
    if c == 'm' && next == 's' then (Millis, 2)
    else if c == 's' then (Seconds, 1)
    else if c == 'm' then (Minutes, 1)
    else if c == 'h' then (Hours, 1)
    else if c == 'd' then (Days, 1)
    else if c == 'w' then (Weeks, 1)
    else if c == 'y' then (Years, 1)
    else if c == 't' then (Ticks, 1)
    else (Minutes, 0)
  }

  /** `mo` reads as one minute followed by a skipped `o`: months are unreachable. */
  lemma MonthsUnreachable(s: string, i: nat)
    requires i <= |s|
    ensures UnitAt(s, i).0 != Months
    ensures i + 1 < |s| && s[i] == 'm' && s[i + 1] == 'o' ==> UnitAt(s, i) == (Minutes, 1)
  {
  }

  /**
   * The milliseconds of every match from position i on. A character that
   * cannot start a match is skipped; a digit starts a greedy digit run.
   */
  function Total(s: string, i: nat): (r: int)
    requires i <= |s|
    ensures r >= 0
    ensures (forall j :: i <= j < |s| ==> !IsDigit(s[j])) ==> r == 0
    decreases |s| - i, 1
  {
    if i == |s| then 0
    else if !IsDigit(s[i]) then Total(s, i + 1)
    else Number(s, i, 0)
  }

  /**
   * Inside a digit run: `amount` is the value of the digits read so far.
   * When the run ends its suffix is read and the count resumes after it;
   * with no suffix the character after the run cannot start a match and
   * is skipped as well.
   */
  function Number(s: string, i: nat, amount: nat): (r: int)
    requires i <= |s|
    ensures r >= amount
    decreases |s| - i, 0
  {
    if i < |s| && IsDigit(s[i]) then Number(s, i + 1, amount * 10 + DigitValue(s[i]))
    else
      var u := UnitAt(s, i);
      amount * Multiplier(u.0) + (if u.1 > 0 then Total(s, i + u.1) else if i == |s| then 0 else Total(s, i + 1))
  }

  /** The value of digits appended, left to right, to `amount`. */
  function Accumulate(amount: nat, d: string): nat
    requires AllDigits(d)
    decreases |d|
  {
    if d == [] then amount else Accumulate(amount * 10 + DigitValue(d[0]), d[1..])
  }

  lemma {:induction false} AccumulateSnoc(amount: nat, d: string, c: char)
    requires AllDigits(d) && IsDigit(c)
    ensures AllDigits(d + [c])
    ensures Accumulate(amount, d + [c]) == Accumulate(amount, d) * 10 + DigitValue(c)
    decreases |d|
  {
    if d != [] {
      assert (d + [c])[1..] == d[1..] + [c];
      AccumulateSnoc(amount * 10 + DigitValue(d[0]), d[1..], c);
    }
  }

  /** Reading the printed digits of n yields n. */
  lemma {:induction false} AccumulateOfNatToString(n: nat)
    ensures Accumulate(0, NatToString(n)) == n
  {
    if n >= 10 {
      AccumulateOfNatToString(n / 10);
      AccumulateSnoc(0, NatToString(n / 10), DigitChar(n % 10));
    }
  }

  /** A run of digits d at position i is read whole before anything else. */
  lemma {:induction false} NumberOfDigits(s: string, i: nat, d: string, amount: nat)
    requires i + |d| <= |s| && s[i..i + |d|] == d && AllDigits(d)
    ensures Number(s, i, amount) == Number(s, i + |d|, Accumulate(amount, d))
    decreases |d|
  {
    if d != [] {
      assert s[i] == d[0];
      assert s[i + 1..i + 1 + |d[1..]|] == d[1..];
      NumberOfDigits(s, i + 1, d[1..], amount * 10 + DigitValue(d[0]));
    }
  }

  datatype DurationValue = DurationValue(millis: int, original: string)

  /** The default instance: no time, shown as `0ms`. */
  const INSTANCE: DurationValue := DurationValue(0, "0ms")

  /** The text parse works on: trimmed, then lower-cased. */
  function Normal(value: string): (r: string)
    ensures |r| <= |value|
  {
    ToLower(Trim(value))
  }

  /** parse: the sum over the normalised text, keeping the text as given. */
  function ParseValue(value: string): (d: DurationValue)
    ensures d.original == value
  {
    DurationValue(Total(Normal(value), 0), value)
  }

  /** The default instance is ofMillis(0), and its text parses back to it. */
  lemma InstanceIsZero()
    ensures INSTANCE == OfMillis(0)
    ensures ParseValue(ToString(INSTANCE)) == INSTANCE
  {
    ParseOfMillisText(0);
  }

  /** ofMillis: the count, shown as the number followed by `ms`. */
  function OfMillis(millis: Long): (d: DurationValue)
    ensures d.millis == millis
  {
    DurationValue(millis, IntToString(millis) + "ms")
  }

  function ToMillis(d: DurationValue): (m: int)
    ensures m == d.millis
  {
    d.millis
  }

  /** TimeUnit.MILLISECONDS.toSeconds: division by 1000, truncated toward zero. */
  function ToSeconds(d: DurationValue): (s: int)
    ensures d.millis >= 0 ==> 1000 * s <= d.millis < 1000 * s + 1000
    ensures d.millis < 0 ==> 1000 * s - 1000 < d.millis <= 1000 * s
  {
    JavaDiv(d.millis, 1000)
  }

  function ToString(d: DurationValue): (s: string)
    ensures s == d.original
  {
    d.original
  }

  /**
   * The parse loop: each step either skips a character that cannot start
   * a match or consumes one digit run and its suffix, adding its
   * milliseconds.
   */
  method Parse(value: string) returns (d: DurationValue)
    ensures d == ParseValue(value)
  {
    var total := SumMatches(ToLower(Trim(value)));
    d := DurationValue(total, value);
  }

  /** The matcher loop over the normalised text. */
  method SumMatches(val: string) returns (total: int)
    ensures total == Total(val, 0)
  {
    total := 0;
    var pos: nat := 0;
    while pos < |val|
      invariant pos <= |val|
      invariant total + Total(val, pos) == Total(val, 0)
      decreases |val| - pos
    {
      if !IsDigit(val[pos]) {
        pos := pos + 1;
      } else {
        var amount: nat := 0;
        while pos < |val| && IsDigit(val[pos])
          invariant pos <= |val|
          invariant total + Number(val, pos, amount) == Total(val, 0)
          decreases |val| - pos
        {
          amount := amount * 10 + DigitValue(val[pos]);
          pos := pos + 1;
        }
        var u := UnitAt(val, pos);
        total := total + amount * Multiplier(u.0);
        pos := pos + u.1;
      }
    }
  }

  /** A digit run ended by the given suffix character, at the end of the text. */
  lemma NumberText(s: string, i: nat, n: nat, suffix: string)
    requires i <= |s| && s[i..] == NatToString(n) + suffix
    ensures suffix == "" ==> Total(s, i) == n * 60_000
    ensures suffix == "m" ==> Total(s, i) == n * 60_000
    ensures suffix == "ms" ==> Total(s, i) == n
  {
    var d := NatToString(n);
    assert s[i..i + |d|] == d;
    assert s[i + |d|..] == suffix;
    NumberOfDigits(s, i, d, 0);
    AccumulateOfNatToString(n);
    assert IsDigit(d[0]) && s[i] == d[0];
  }

  /** No upper-case ASCII letter. */
  predicate NoCapitals(s: string) {
    forall i :: 0 <= i < |s| ==> !('A' <= s[i] <= 'Z')
  }

  lemma ToLowerOfLower(s: string)
    requires NoCapitals(s)
    ensures ToLower(s) == s
  {
    assert forall i :: 0 <= i < |s| ==> ToLower(s)[i] == s[i];
  }

  /**
   * Text that neither starts nor ends with a blank and has no capitals is
   * already in normal form, so parse sums it as it stands.
   */
  lemma NormalOfPlain(s: string)
    requires s == [] || (s[0] > ' ' && s[|s| - 1] > ' ')
    requires NoCapitals(s)
    ensures Normal(s) == s
    ensures ParseValue(s).millis == Total(s, 0)
  {
    assert TrimStart(s) == s;
    assert TrimEnd(s) == s;
    ToLowerOfLower(s);
  }

  lemma NoCapitalsOfConcat(a: string, b: string)
    requires NoCapitals(a) && NoCapitals(b)
    ensures NoCapitals(a + b)
  {
    forall i | 0 <= i < |a + b|
      ensures !('A' <= (a + b)[i] <= 'Z')
    {
      if i >= |a| {
        assert (a + b)[i] == b[i - |a|];
      }
    }
  }

  /** A printed number followed by a plain suffix is plain text. */
  lemma NumberTextIsPlain(n: int, suffix: string)
    requires NoCapitals(suffix) && (suffix == [] || suffix[|suffix| - 1] > ' ')
    ensures ParseValue(IntToString(n) + suffix).millis == Total(IntToString(n) + suffix, 0)
  {
    var s := IntToString(n) + suffix;
    var p := IntToString(n);
    assert NoCapitals(p) && p[0] > ' ' && p[|p| - 1] > ' ' by {
      var d := NatToString(if n < 0 then -n else n);
      assert IsDigit(d[0]) && IsDigit(d[|d| - 1]);
      assert NoCapitals(d);
      if n < 0 {
        NoCapitalsOfConcat("-", d);
      }
    }
    NoCapitalsOfConcat(p, suffix);
    NormalOfPlain(s);
  }

  /**
   * Round trip through the text of ofMillis: a count that is not negative
   * parses back to itself. For a negative count the sign is skipped, so the
   * text parses to the absolute value.
   */
  lemma ParseOfMillisText(n: Long)
    ensures ParseValue(ToString(OfMillis(n))).millis == if n >= 0 then n as int else -(n as int)
  {
    NumberTextIsPlain(n, "ms");
    TotalOfMillisText(n);
  }

  /** The sum over `n` followed by `ms`: the sign is not part of any match. */
  lemma TotalOfMillisText(n: int)
    ensures Total(IntToString(n) + "ms", 0) == if n >= 0 then n else -n
  {
    var s := IntToString(n) + "ms";
    var m: nat := if n >= 0 then n else -n;
    var i := if n >= 0 then 0 else 1;
    assert s[i..] == NatToString(m) + "ms";
    NumberText(s, i, m, "ms");
  }

  /** With no suffix a number counts as minutes. */
  lemma ParseOfBareNumber(n: nat)
    ensures ParseValue(NatToString(n)).millis == n * 60_000
  {
    var s := NatToString(n);
    NumberTextIsPlain(n, "");
    assert s == IntToString(n) + "";
    assert Total(s, 0) == n * 60_000 by {
      NumberText(s, 0, n, "");
    }
  }

  /** Hours and minutes add up; the blank between them is skipped. */
  lemma ParseHoursAndMinutes()
    ensures ParseValue("1h 30m").millis == 5_400_000
  {
    NormalOfPlain("1h 30m");
    TotalHoursAndMinutes();
  }

  lemma TotalHoursAndMinutes()
    ensures Total("1h 30m", 0) == 5_400_000
  {
    var a := "1h 30m";
    assert Total(a, 3) == 1_800_000 by {
      assert Number(a, 4, 3) == Number(a, 5, 30) == 1_800_000;
    }
    assert Total(a, 2) == Total(a, 3);
    assert Total(a, 0) == Number(a, 1, 1) == 3_600_000 + Total(a, 2);
  }

  /** Text without digits is no time at all. */
  lemma ParseNoDigits()
    ensures ParseValue("abc").millis == 0
  {
    var b := "abc";
    NormalOfPlain(b);
    assert Total(b, 0) == Total(b, 1) == Total(b, 2) == 0;
  }

  /** `2mo` is two minutes: the `o` after the minute suffix is skipped. */
  lemma ParseMonthSuffix()
    ensures ParseValue("2mo").millis == 120_000
  {
    var c := "2mo";
    NormalOfPlain(c);
    assert Number(c, 1, 2) == 120_000 + Total(c, 2);
  }

  /** A JSON element as the deserializer sees it. */
  datatype Json =
    | JsonNumber(asLong: int)
    | JsonString(text: string)
    | JsonBool(b: bool)
    | JsonNull
    | JsonArray(items: seq<Json>)
    | JsonObject(members: seq<(string, Json)>)

  /** serialize: the original text, or `60m` when there is no value. */
  function Serialize(src: Option<DurationValue>): (j: Json)
    ensures j.JsonString?
    ensures src.Some? ==> j.text == src.value.original
    ensures src.None? ==> j.text == "60m"
  {
    JsonString(if src.Some? then src.value.original else "60m")
  }

  /** deserialize: a number is minutes, a string is parsed, anything else is refused. */
  function Deserialize(json: Json): (r: Result<DurationValue>)
    ensures r.Err? <==> !(json.JsonNumber? || json.JsonString?)
    ensures r.Err? ==> r.error.JsonParse?
    ensures json.JsonString? ==> r == Ok(ParseValue(json.text))
  {
    match json
    case JsonNumber(n) => Ok(ParseValue(IntToString(n) + "m"))
    case JsonString(s) => Ok(ParseValue(s))
    case _ => Err(JsonParse("Invalid JSON for DurationValue"))
  }

  /** A JSON number n that is not negative is n minutes. */
  lemma DeserializeNumber(n: nat)
    ensures Deserialize(JsonNumber(n)).Ok?
    ensures Deserialize(JsonNumber(n)).value.millis == n * 60_000
  {
    var s := IntToString(n) + "m";
    NumberTextIsPlain(n, "m");
    assert Total(s, 0) == n * 60_000 by {
      NumberText(s, 0, n, "m");
    }
  }

  /** Serializing a parsed value and reading it back gives the same value. */
  lemma SerializeRoundTrip(value: string)
    ensures Deserialize(Serialize(Some(ParseValue(value)))) == Ok(ParseValue(value))
  {
  }

  /** The text of ofMillis survives serialization, so the count does when it is not negative. */
  lemma SerializeOfMillis(n: Long)
    requires n >= 0
    ensures Deserialize(Serialize(Some(OfMillis(n)))) == Ok(OfMillis(n))
  {
    ParseOfMillisText(n);
  }

  /** A missing value serializes as an hour. */
  lemma SerializeNone()
    ensures Deserialize(Serialize(None)) == Ok(DurationValue(3_600_000, "60m"))
  {
    var s := "60m";
    NormalOfPlain(s);
    NumberText(s, 0, 60, "m");
  }
}
