/**
 * The search `re.search("([0-9]{4}-[0-9]{2}-[0-9]{2}).*([0-9]{4}-[0-9]{2}-[0-9]{2})", s)`
 * that pulls the start and end dates of a billing period out of its
 * description. The meaning of the pattern is stated as predicates over
 * positions in the string (MatchAt, IsSearchResult); the search functions
 * are proved to compute exactly the match Python's engine reports.
 */
module Period {
  import opened Wrappers

  /** `[0-9]` in a str pattern: the ASCII digits only. */
  predicate IsDigit(c: char) {
    '0' <= c <= '9'
  }

  /** A date-shaped substring `DDDD-DD-DD` starts at position i of s. */
  predicate DateAt(s: string, i: nat) {
    && i + 10 <= |s|
    && IsDigit(s[i]) && IsDigit(s[i + 1]) && IsDigit(s[i + 2]) && IsDigit(s[i + 3])
    && s[i + 4] == '-'
    && IsDigit(s[i + 5]) && IsDigit(s[i + 6])
    && s[i + 7] == '-'
    && IsDigit(s[i + 8]) && IsDigit(s[i + 9])
  }

  /** A whole string of the form `DDDD-DD-DD`. */
  predicate DateShaped(d: string) {
    |d| == 10 && DateAt(d, 0)
  }

  /** `.` matches any character but a newline, so `.*` spans only newline-free text. */
  predicate NoNewline(s: string, lo: nat, hi: nat)
    requires lo <= hi <= |s|
  {
    forall k :: lo <= k < hi ==> s[k] != '\n'
  }

  /** The pattern matches s with group 1 starting at i and group 2 starting at j. */
  predicate MatchAt(s: string, i: nat, j: nat) {
    DateAt(s, i) && i + 10 <= j && DateAt(s, j) && NoNewline(s, i + 10, j)
  }

  /**
   * The match `re.search` reports: the leftmost start, and from that start
   * the longest `.*`, hence the rightmost second date.
   */
  ghost predicate IsSearchResult(s: string, i: nat, j: nat) {
    && MatchAt(s, i, j)
    && (forall i': nat, j': nat :: i' < i ==> !MatchAt(s, i', j'))
    && (forall j': nat :: j < j' ==> !MatchAt(s, i, j'))
  }

  /** The positions of the two groups of a match. */
  datatype Span = Span(start: nat, end: nat)

  /** The first newline at or after k, or the end of s. */
  function LineEnd(s: string, k: nat): (e: nat)
    requires k <= |s|
    ensures k <= e <= |s|
    decreases |s| - k
  {
    if k == |s| || s[k] == '\n' then k else LineEnd(s, k + 1)
  }

  /** LineEnd stops at the first newline: none lies before it. */
  lemma {:induction false} LineEndIsFirstNewline(s: string, k: nat)
    requires k <= |s|
    ensures NoNewline(s, k, LineEnd(s, k))
    ensures LineEnd(s, k) < |s| ==> s[LineEnd(s, k)] == '\n'
    decreases |s| - k
  {
    if k < |s| && s[k] != '\n' {
      LineEndIsFirstNewline(s, k + 1);
    }
  }

  /** The last date-shaped substring that starts at or after lo and ends by hi. */
  function LastDateBetween(s: string, lo: nat, hi: nat): (r: Option<nat>)
    requires hi <= |s|
    ensures r.Some? ==> lo <= r.value && r.value + 10 <= hi && DateAt(s, r.value)
    decreases hi
  {
    if hi < lo + 10 then None
    else if DateAt(s, hi - 10) then Some(hi - 10)
    else LastDateBetween(s, lo, hi - 1)
  }

  /** No date-shaped substring between lo and hi comes after the one LastDateBetween finds. */
  lemma {:induction false} LastDateBetweenIsLast(s: string, lo: nat, hi: nat)
    requires hi <= |s|
    ensures LastDateBetween(s, lo, hi).Some? ==>
      forall j :: LastDateBetween(s, lo, hi).value < j && j + 10 <= hi ==> !DateAt(s, j)
    ensures LastDateBetween(s, lo, hi).None? ==> forall j :: lo <= j && j + 10 <= hi ==> !DateAt(s, j)
    decreases hi
  {
    if lo + 10 <= hi && !DateAt(s, hi - 10) {
      LastDateBetweenIsLast(s, lo, hi - 1);
    }
  }

  /** A date after position i + 10 can serve as group 2 exactly when it ends on i's line. */
  lemma SameLine(s: string, i: nat, j: nat)
    requires DateAt(s, i) && i + 10 <= j
    ensures MatchAt(s, i, j) <==> DateAt(s, j) && j + 10 <= LineEnd(s, i + 10)
  {
    LineEndIsFirstNewline(s, i + 10);
  }

  /** Where group 2 starts, given a date at i: the last date on the rest of i's line. */
  function GroupTwo(s: string, i: nat): (r: Option<nat>)
    requires DateAt(s, i)
    ensures r.Some? ==> MatchAt(s, i, r.value)
  {
    var r := LastDateBetween(s, i + 10, LineEnd(s, i + 10));
    if r.Some? then SameLine(s, i, r.value); r else r
  }

  /** The greedy `.*`: no match from i has its second date further right, and None means none at all. */
  lemma GroupTwoIsGreedy(s: string, i: nat)
    requires DateAt(s, i)
    ensures GroupTwo(s, i).Some? ==> forall j :: GroupTwo(s, i).value < j ==> !MatchAt(s, i, j)
    ensures GroupTwo(s, i).None? ==> forall j :: !MatchAt(s, i, j)
  {
    var e := LineEnd(s, i + 10);
    LastDateBetweenIsLast(s, i + 10, e);
    forall j: nat | i + 10 <= j
      ensures MatchAt(s, i, j) <==> DateAt(s, j) && j + 10 <= e
    {
      SameLine(s, i, j);
    }
  }

  /** The leftmost match that starts at or after i. */
  function SearchFrom(s: string, i: nat): (r: Option<Span>)
    requires i <= |s|
    ensures r.Some? ==> i <= r.value.start && MatchAt(s, r.value.start, r.value.end)
    decreases |s| - i
  {
    if i == |s| then None
    else if DateAt(s, i) && GroupTwo(s, i).Some? then Some(Span(i, GroupTwo(s, i).value))
    else SearchFrom(s, i + 1)
  }

  /** SearchFrom skips no match: none starts before the one it reports, and None means none at all. */
  lemma {:induction false} SearchFromIsLeftmost(s: string, i: nat)
    requires i <= |s|
    ensures SearchFrom(s, i).Some? ==>
      forall i', j :: i <= i' < SearchFrom(s, i).value.start ==> !MatchAt(s, i', j)
    ensures SearchFrom(s, i).Some? ==>
      forall j :: SearchFrom(s, i).value.end < j ==> !MatchAt(s, SearchFrom(s, i).value.start, j)
    ensures SearchFrom(s, i).None? ==> forall i', j :: i <= i' ==> !MatchAt(s, i', j)
    decreases |s| - i
  {
    if i < |s| {
      if DateAt(s, i) {
        GroupTwoIsGreedy(s, i);
      }
      if !(DateAt(s, i) && GroupTwo(s, i).Some?) {
        SearchFromIsLeftmost(s, i + 1);
      }
    }
  }

  /** `re.search` with the period pattern. */
  function Search(s: string): (r: Option<Span>)
    ensures r.Some? ==> MatchAt(s, r.value.start, r.value.end)
  {
    SearchFrom(s, 0)
  }

  /** Search reports the match Python's engine reports, and None only when the pattern cannot match. */
  lemma SearchIsLeftmostGreedy(s: string)
    ensures Search(s).Some? ==> IsSearchResult(s, Search(s).value.start, Search(s).value.end)
    ensures Search(s).None? <==> forall i, j :: !MatchAt(s, i, j)
  {
    SearchFromIsLeftmost(s, 0);
  }

  /**
   * `(search_obj.group(1), search_obj.group(2))`, or None where the search
   * finds nothing (and `group` is then called on None).
   */
  function ExtractPeriod(s: string): (r: Option<(string, string)>)
    ensures r.Some? ==> DateShaped(r.value.0) && DateShaped(r.value.1)
  {
    match Search(s)
    case None => None
    case Some(sp) =>
      var start, end := s[sp.start..sp.start + 10], s[sp.end..sp.end + 10];
      assert DateShaped(start) && DateShaped(end);
      Some((start, end))
  }

  /**
   * The two dates are those of the match `re.search` reports, and there is
   * one exactly when the pattern matches somewhere.
   */
  lemma ExtractPeriodIsSearch(s: string)
    ensures ExtractPeriod(s).Some? <==> exists i, j :: MatchAt(s, i, j)
    ensures ExtractPeriod(s).Some? ==> exists i: nat, j: nat ::
      IsSearchResult(s, i, j) && ExtractPeriod(s).value == (s[i..i + 10], s[j..j + 10])
  {
    SearchIsLeftmostGreedy(s);
    if Search(s).Some? {
      var sp := Search(s).value;
      assert IsSearchResult(s, sp.start, sp.end);
    }
  }

  /**
   * With fewer than two non-overlapping date-shaped substrings there is no
   * match, so the row cannot be decoded.
   */
  lemma FewerThanTwoDates(s: string)
    requires forall i, j :: DateAt(s, i) && DateAt(s, j) ==> j < i + 10
    ensures ExtractPeriod(s).None?
  {
    ExtractPeriodIsSearch(s);
  }

  /** Two dates on different lines do not match: `.` does not cross a newline. */
  lemma DatesOnTwoLines(a: string, b: string)
    requires DateShaped(a) && DateShaped(b)
    ensures ExtractPeriod(a + "\n" + b).None?
  {
    var s := a + "\n" + b;
    assert s[10] == '\n';
    ExtractPeriodIsSearch(s);
  }

  /** A period written "start au end" yields its two dates. */
  lemma TwoDatesOneLine(a: string, b: string)
    requires DateShaped(a) && DateShaped(b)
    ensures ExtractPeriod(a + " au " + b) == Some((a, b))
  {
    var s := a + " au " + b;
    assert MatchAt(s, 0, 14) by {
      assert s[0..10] == a && s[14..24] == b;
      assert NoNewline(s, 10, 14);
    }
    SearchIsLeftmostGreedy(s);
    var sp := Search(s).value;
    assert sp.start == 0;
    assert s[0..10] == a && s[14..24] == b;
  }
}
