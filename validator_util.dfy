/**
 * ValidatorUtil.match: a value passes an id set directly (an empty set, the
 * wildcard `*`, or the value itself) or through an entry `regex:<pattern>`
 * whose pattern matches the whole value. The regex engine is a parameter:
 * which patterns compile and which values they match in full.
 */
module ValidatorUtil {
  import opened Wrappers
  import opened JavaData
  import opened JavaText

  datatype RegexEngine = RegexEngine(compiles: string -> bool, fullMatch: (string, string) -> bool)

  const REGEX_PREFIX: string := "regex:"

  predicate IsRegexEntry(entry: string) {
    StartsWith(entry, REGEX_PREFIX)
  }

  /** The pattern of a regex entry: everything after the six-character prefix. */
  function PatternOf(entry: string): (p: string)
    requires IsRegexEntry(entry)
    ensures REGEX_PREFIX + p == entry
  {
    entry[6..]
  }

  /** The match that needs no regex. */
  predicate DirectMatch(value: string, values: set<string>) {
    values == {} || "*" in values || value in values
  }

  /**
   * The regex loop over the entries in iteration order: the first regex
   * entry whose pattern matches ends it with true; a pattern that does not
   * compile throws PatternSyntaxException out of match.
   */
  function RegexScan(value: string, entries: seq<string>, re: RegexEngine): (r: Result<bool>)
    ensures r.Err? ==> r.error.PatternSyntax?
  {
    if entries == [] then Ok(false)
    else if !IsRegexEntry(entries[0]) then RegexScan(value, entries[1..], re)
    else
      var p := PatternOf(entries[0]);
      if !re.compiles(p) then Err(PatternSyntax(p))
      else if re.fullMatch(p, value) then Ok(true)
      else RegexScan(value, entries[1..], re)
  }

  /** match: a direct match first, then the regex loop. */
  function MatchValue(value: string, values: set<string>, order: seq<string>, re: RegexEngine): (r: Result<bool>)
    ensures DirectMatch(value, values) ==> r == Ok(true)
    ensures r.Err? ==> r.error.PatternSyntax?
    ensures r == Ok(true) ==> DirectMatch(value, values) || exists i :: 0 <= i < |order| && RegexAdmits(order[i], value, re)
  {
    if DirectMatch(value, values) then Ok(true)
    else
      var scan := RegexScan(value, order, re);
      if scan == Ok(true) then RegexScanSound(value, order, re); scan else scan
  }

  /** An entry that admits the value through its pattern. */
  predicate RegexAdmits(entry: string, value: string, re: RegexEngine) {
    IsRegexEntry(entry) && re.compiles(PatternOf(entry)) && re.fullMatch(PatternOf(entry), value)
  }

  /**
   * match(value, values), with the set walked in `order`, its iteration
   * order. The debug logging is left out.
   */
  method Match(value: string, values: set<string>, order: seq<string>, re: RegexEngine) returns (r: Result<bool>)
    requires Enumerates(order, values)
    ensures r == MatchValue(value, values, order, re)
  {
    var matched := false;
    matched := matched || values == {} || "*" in values || value in values;
    if matched {
      return Ok(true);
    }
    var i := 0;
    while i < |order|
      invariant 0 <= i <= |order| && !matched
      invariant RegexScan(value, order, re) == RegexScan(value, order[i..], re)
    {
      var s := order[i];
      assert order[i..][1..] == order[i + 1..];
      if StartsWith(s, REGEX_PREFIX) {
        var patternStr := s[6..];
        if !re.compiles(patternStr) {
          return Err(PatternSyntax(patternStr));
        }
        if re.fullMatch(patternStr, value) {
          matched := true;
          break;
        }
      }
      i := i + 1;
    }
    r := Ok(matched);
  }

  /** A true regex scan names an entry that admits the value. */
  lemma {:induction false} RegexScanSound(value: string, entries: seq<string>, re: RegexEngine)
    requires RegexScan(value, entries, re) == Ok(true)
    ensures exists i :: 0 <= i < |entries| && RegexAdmits(entries[i], value, re)
  {
    if !RegexAdmits(entries[0], value, re) {
      RegexScanSound(value, entries[1..], re);
      var i :| 0 <= i < |entries[1..]| && RegexAdmits(entries[1..][i], value, re);
      assert entries[i + 1] == entries[1..][i];
    }
  }

  /**
   * When every pattern compiles the order does not matter: the scan is true
   * exactly when some entry admits the value.
   */
  lemma {:induction false} RegexScanComplete(value: string, entries: seq<string>, re: RegexEngine)
    requires forall i :: 0 <= i < |entries| && IsRegexEntry(entries[i]) ==> re.compiles(PatternOf(entries[i]))
    ensures RegexScan(value, entries, re) == Ok(exists i :: 0 <= i < |entries| && RegexAdmits(entries[i], value, re))
  {
    if entries != [] {
      assert forall i :: 0 <= i < |entries[1..]| ==> entries[1..][i] == entries[i + 1];
      RegexScanComplete(value, entries[1..], re);
      if RegexAdmits(entries[0], value, re) {
        assert RegexScan(value, entries, re) == Ok(true);
      } else {
        var later := exists i :: 0 <= i < |entries[1..]| && RegexAdmits(entries[1..][i], value, re);
        var all := exists i :: 0 <= i < |entries| && RegexAdmits(entries[i], value, re);
        assert later == all by {
          if all {
            var i :| 0 <= i < |entries| && RegexAdmits(entries[i], value, re);
            assert i > 0 && RegexAdmits(entries[1..][i - 1], value, re);
          }
        }
      }
    }
  }

  /** Entries that are not regex entries never admit a value that is absent from the set. */
  lemma {:induction false} PlainEntriesNeverMatch(value: string, entries: seq<string>, re: RegexEngine)
    requires forall i :: 0 <= i < |entries| ==> !IsRegexEntry(entries[i])
    ensures RegexScan(value, entries, re) == Ok(false)
  {
    if entries != [] {
      assert forall i :: 0 <= i < |entries[1..]| ==> entries[1..][i] == entries[i + 1];
      PlainEntriesNeverMatch(value, entries[1..], re);
    }
  }

  /** An id set with no regex entry admits exactly the direct matches, whatever its order. */
  lemma MatchWithoutRegex(value: string, values: set<string>, order: seq<string>, re: RegexEngine)
    requires Enumerates(order, values)
    requires forall e :: e in values ==> !IsRegexEntry(e)
    ensures MatchValue(value, values, order, re) == Ok(DirectMatch(value, values))
  {
    PlainEntriesNeverMatch(value, order, re);
  }

  /** A regex entry that compiles and matches admits a value the set does not name. */
  lemma RegexEntryAdmits(value: string, pattern: string, re: RegexEngine)
    requires re.compiles(pattern) && re.fullMatch(pattern, value)
    ensures MatchValue(value, {REGEX_PREFIX + pattern}, [REGEX_PREFIX + pattern], re) == Ok(true)
  {
    var e := REGEX_PREFIX + pattern;
    assert e[..6] == REGEX_PREFIX;
    assert e[6..] == pattern;
  }
}
