/**
 * The shape of an MGRS string as the validator's pattern reads it: an optional
 * zone (up to two digits and a letter), a two-letter grid square, then one or
 * two blocks of 1..10 digits, every part optionally followed by one space.
 *
 * `Tokenize` reads the whole string against that grammar, with the same
 * choices the pattern's greedy matching makes: a digit block takes as many
 * digits as it can (up to 10), a second block is taken whenever one follows,
 * and a zone is taken whenever the rest still reads as grid and digits.
 */
module MgrsSyntax {
  import opened Wrappers
  import opened Text

  /** The coordinate captures: one block to be split in half, or two blocks. */
  datatype DigitBlocks =
    | One(block: string)
    | Two(first: string, second: string)

  /** The groups of a successful match; `zone` is empty when no zone was captured. */
  datatype Match = Match(zone: string, grid: string, digits: DigitBlocks)

  /** The length of the run of ASCII digits that starts `s`, at most `max`. */
  function DigitRun(s: string, max: nat): (n: nat)
    ensures n <= max && n <= |s|
    ensures forall i :: 0 <= i < n ==> IsDigit(s[i])
    ensures n < max && n < |s| ==> !IsDigit(s[n])
  {
    if max == 0 || s == [] || !IsDigit(s[0]) then 0 else 1 + DigitRun(s[1..], max - 1)
  }

  /** `s` without one optional leading space. */
  function SkipSpace(s: string): (r: string)
    ensures r == s || (s != [] && s[0] == ' ' && r == s[1..])
  {
    if s != [] && s[0] == ' ' then s[1..] else s
  }

  /** The grid square and the digit blocks, to the end of the string. */
  function GridAndDigits(s: string, zone: string): Option<Match>
  {
    if |s| < 2 || !IsLetter(s[0]) || !IsLetter(s[1]) then None
    else
      var rest := SkipSpace(s[2..]);
      var n1 := DigitRun(rest, 10);
      if n1 == 0 then None
      else
        var after := SkipSpace(rest[n1..]);
        var n2 := DigitRun(after, 10);
        if n2 == 0 then
          if after == [] then Some(Match(zone, s[..2], One(rest[..n1]))) else None
        else if SkipSpace(after[n2..]) == [] then
          Some(Match(zone, s[..2], Two(rest[..n1], after[..n2])))
        else None
  }

  /** The whole string read as an MGRS coordinate: with a zone if that reads, otherwise without. */
  function Tokenize(s: string): Option<Match>
  {
    var zoned := ZonedReading(s);
    if zoned.Some? then zoned else GridAndDigits(SkipSpace(s), "")
  }

  /** The reading with a zone: up to two digits and a letter, then grid and digits. */
  function ZonedReading(s: string): Option<Match>
  {
    var k := DigitRun(s, 2);
    if k < |s| && IsLetter(s[k]) then GridAndDigits(SkipSpace(s[k + 1..]), s[..k + 1]) else None
  }

  /** A zone as the pattern captures it: up to two digits and a letter. */
  predicate IsZone(z: string)
  {
    1 <= |z| <= 3 && IsDigits(z[..|z| - 1]) && IsLetter(z[|z| - 1])
  }
}
