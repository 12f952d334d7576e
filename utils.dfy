/** The small helpers the domain rules are written with. */
module Utils {

  /** `exists(s)` on a string: JavaScript truthiness, i.e. the string is not empty. */
  function Exists(s: string): (r: bool)
    ensures r <==> |s| > 0
  {
    s != ""
  }

  /**
   * `s.search(pattern)` for a pattern that matches one character of a class:
   * the index of the first matching character, or -1 when there is none.
   */
  function Search(s: string, pattern: char -> bool): (r: int)
    ensures -1 <= r < |s|
    ensures r >= 0 ==> pattern(s[r]) && forall j :: 0 <= j < r ==> !pattern(s[j])
    ensures r == -1 ==> forall j :: 0 <= j < |s| ==> !pattern(s[j])
  {
    if |s| == 0 then -1
    else if pattern(s[0]) then 0
    else
      var rest := Search(s[1..], pattern);
      if rest < 0 then -1 else rest + 1
  }

  /** `contains(s, pattern)`, i.e. `s.search(pattern) >= 0`: some character of `s` matches. */
  function Contains(s: string, pattern: char -> bool): (r: bool)
    ensures r <==> exists i :: 0 <= i < |s| && pattern(s[i])
  {
    Search(s, pattern) >= 0
  }

  /** `inRange(value, min, max)`: both bounds inclusive, so an inverted range holds nothing. */
  function InRange(value: int, min: int, max: int): (r: bool)
    ensures r <==> min <= value && value <= max
    ensures max < min ==> !r
  {
    value >= min && value <= max
  }

  /**
   * `yearsOf(date)` with the clock passed in: the difference of the calendar
   * years of "now" and of the date, ignoring month and day.
   */
  function YearsOf(birthYear: int, currentYear: int): (years: int)
    ensures birthYear + years == currentYear
    ensures years == 0 <==> birthYear == currentYear
  {
    currentYear - birthYear
  }
}
