/**
 * The fragment of `java.util.regex` the client-ID check relies on: a bracket
 * expression of character ranges such as `[a-zA-Z0-9]`, optionally followed by `+`,
 * matched against a WHOLE input as `Matcher.matches` does.
 */
module Regex {

  /** One range `lo-hi` inside a bracket expression. */
  datatype CharRange = CharRange(lo: char, hi: char)

  /** `[ranges]` matches exactly one character; `[ranges]+` matches one or more. */
  datatype Pattern = Pattern(ranges: seq<CharRange>, oneOrMore: bool)

  predicate InClass(ranges: seq<CharRange>, c: char) {
    exists k :: 0 <= k < |ranges| && ranges[k].lo <= c <= ranges[k].hi
  }

  /** `pattern.matcher(s).matches()`: the pattern consumes all of `s`, not just a prefix. */
  predicate FullMatch(p: Pattern, s: string) {
    if p.oneOrMore then 1 <= |s| && forall i :: 0 <= i < |s| ==> InClass(p.ranges, s[i])
    else |s| == 1 && InClass(p.ranges, s[0])
  }

  function RangesText(ranges: seq<CharRange>): string {
    if |ranges| == 0 then "" else [ranges[0].lo, '-', ranges[0].hi] + RangesText(ranges[1..])
  }

  /** `Pattern.toString()`: the source text the pattern was compiled from. */
  function Text(p: Pattern): string {
    "[" + RangesText(p.ranges) + "]" + (if p.oneOrMore then "+" else "")
  }

  /** Scans the ranges of a bracket expression for one containing `c`. */
  method ClassContains(ranges: seq<CharRange>, c: char) returns (found: bool)
    ensures found <==> InClass(ranges, c)
  {
    found := false;
    var k := 0;
    while k < |ranges|
      invariant 0 <= k <= |ranges|
      invariant !found ==> forall j :: 0 <= j < k ==> !(ranges[j].lo <= c <= ranges[j].hi)
      invariant found ==> InClass(ranges, c)
    {
      if ranges[k].lo <= c <= ranges[k].hi {
        found := true;
      }
      k := k + 1;
    }
  }

  /** Whole-input matching, one character at a time. */
  method Matches(p: Pattern, s: string) returns (m: bool)
    ensures m <==> FullMatch(p, s)
  {
    if |s| == 0 || (!p.oneOrMore && |s| != 1) {
      return false;
    }
    m := true;
    var i := 0;
    while i < |s|
      invariant 0 <= i <= |s|
      invariant m <==> forall j :: 0 <= j < i ==> InClass(p.ranges, s[j])
    {
      var inClass := ClassContains(p.ranges, s[i]);
      m := m && inClass;
      i := i + 1;
    }
  }
}
