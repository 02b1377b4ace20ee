/**
 * An MGRS coordinate: optional UTM zone, 100 km grid square, easting and
 * northing in metres within the square, and the number of digits per axis it
 * is written with. Covers the precision setter, the constructor, precision
 * inference, zero padding, `TryParse` after the match, `Equals` and `ToString`.
 */
module Mgrs {
  import opened Wrappers
  import opened Text
  import opened MgrsSyntax

  /** Digits per axis: 1 is 10 km, 5 is 1 m. */
  type Precision = p: int | 1 <= p <= 5 witness 1

  /** What the `Precision` setter stores. */
  function ClampPrecision(value: int): (p: Precision)
    ensures 1 <= value <= 5 ==> p == value
    ensures value > 5 ==> p == 5
    ensures value < 1 ==> p == 1
  {
    if value > 5 then 5 else if value < 1 then 1 else value
  }

  /** The state of an `MGRSCoord` as a value. */
  datatype Coord = Coord(zone: string, grid: string, precision: Precision, easting: int, northing: int)

  // ------------------------------------------------------ precision, padding

  /** An axis value written with `p` digits ends in 5 - p zeros. */
  predicate FitsPrecision(v: int, p: Precision)
  {
    v % Pow10(5 - p) == 0
  }

  /**
   * `AssumePrecision`: from `place` leftwards, the first digit position at
   * which easting or northing has a non-zero digit; 1 if there is none.
   * `place` above 6 would make the source divide by zero.
   */
  function AssumePrecision(east: int, north: int, place: int := 5): (p: int)
    requires place <= 6
    ensures 1 <= p && (place >= 1 ==> p <= place)
    ensures 1 <= place <= 5 && east % Pow10(5 - place) == 0 && north % Pow10(5 - place) == 0 ==>
      east % Pow10(5 - p) == 0 && north % Pow10(5 - p) == 0
      && (p > 1 ==> !(east % Pow10(6 - p) == 0 && north % Pow10(6 - p) == 0))
    decreases place
  {
    if place <= 1 then 1
    else
      var step := Pow10(6 - place);
      if east % step == 0 && north % step == 0 then AssumePrecision(east, north, place - 1)
      else place
  }

  /**
   * `PadZeros`: the decimal rendering right-padded with '0' to five characters
   * and read back, so a value of fewer than five characters gains trailing zeros.
   */
  function PadZeros(raw: int): (r: int)
    ensures raw >= 0 ==> r == raw * Pow10(if |Digits(raw)| < 5 then 5 - |Digits(raw)| else 0)
    ensures raw < 0 ==> r == raw * Pow10(if |Digits(-raw)| < 4 then 4 - |Digits(-raw)| else 0)
  {
    var padded := PadRight(FormatD(raw, 0), 5, '0');
    if raw >= 0 then PadZerosNatural(raw); ParseSigned(padded).value
    else PadZerosNegative(raw); ParseSigned(padded).value
  }

  /** A non-negative value: its digits gain zeros up to five characters. */
  lemma PadZerosNatural(raw: nat)
    ensures ParseSigned(PadRight(FormatD(raw, 0), 5, '0'))
         == Some(raw * Pow10(if |Digits(raw)| < 5 then 5 - |Digits(raw)| else 0))
  {
    var digits := Digits(raw);
    assert FormatD(raw, 0) == digits by {
      assert PadLeft(digits, 0, '0') == digits;
    }
    ValueOfDigits(raw);
    ValueOfPadRight(digits, 5);
  }

  /** A negative value: the sign takes one of the five characters. */
  lemma PadZerosNegative(raw: int)
    requires raw < 0
    ensures ParseSigned(PadRight(FormatD(raw, 0), 5, '0'))
         == Some(raw * Pow10(if |Digits(-raw)| < 4 then 4 - |Digits(-raw)| else 0))
  {
    var m: nat := -raw;
    var digits := Digits(m);
    var tail := PadRight(digits, 4, '0');
    var scale := Pow10(if |digits| < 4 then 4 - |digits| else 0);
    assert FormatD(raw, 0) == "-" + digits by {
      assert PadLeft(digits, 0, '0') == digits;
    }
    PadRightAfter('-', digits, 4, '0');
    assert PadRight(FormatD(raw, 0), 5, '0') == "-" + tail;
    ValueOfDigits(m);
    ValueOfPadRight(digits, 4);
    assert ValueOf(tail) == m * scale;
    ParseNegative(tail);
    NegateProduct(m, scale);
  }

  lemma NegateProduct(m: int, scale: int)
    ensures -(m * scale) == (-m) * scale
  {
  }

  // ------------------------------------------------------------- the class

  /** `MGRSCoord`: the fields the setter, the constructor and `TryParse` assign. */
  class MgrsCoord {
    var utmZone: string
    var gridSquare: string
    var prec: Precision
    var easting: int
    var northing: int

    /** The current state as a value. */
    function Value(): Coord
      reads this
    {
      Coord(utmZone, gridSquare, prec, easting, northing)
    }

    /** The `Precision` setter: the value clamped to 1..5. */
    method SetPrecision(value: int)
      modifies this
      ensures prec == ClampPrecision(value)
      ensures utmZone == old(utmZone) && gridSquare == old(gridSquare)
      ensures easting == old(easting) && northing == old(northing)
    {
      prec := if value > 5 then 5 else if value < 1 then 1 else value;
    }

    /**
     * The constructor: upper-cases the grid, and the zone when one is given;
     * takes the values as metres, or pads them first when `padded` is false;
     * then infers the precision from the trailing zeros.
     */
    constructor (grid: string, east: int, north: int, zone: string := "", padded: bool := true)
      ensures Value() == Construct(grid, east, north, zone, padded)
    {
      utmZone := "";
      prec := 1;
      if zone != "" {
        utmZone := Upper(zone);
      }
      gridSquare := Upper(grid);
      if padded {
        easting := east;
        northing := north;
      } else {
        easting := PadZeros(east);
        northing := PadZeros(north);
      }
      new;
      SetPrecision(AssumePrecision(easting, northing));
    }

    /** `TryParse`: reads `value` and, on a match, assigns its groups to `coord` as `ApplyMatch` does. */
    static method TryParse(value: string, coord: MgrsCoord) returns (ok: bool)
      modifies coord
      ensures (ok, coord.Value()) == Parse(value, old(coord.Value()))
    {
      var m := Tokenize(value);
      if m.None? {
        return false;
      }
      ok := ApplyMatch(m.value, coord);
    }

    /**
     * The processing of the captures: split or compare the digit blocks, set
     * the precision, pad and parse both axes, then assign zone and grid. A
     * failure after the precision was set leaves that assignment in place.
     */
    static method ApplyMatch(m: Match, coord: MgrsCoord) returns (ok: bool)
      modifies coord
      ensures (ok, coord.Value()) == Decode(m, old(coord.Value()))
    {
      var c1: string, c2: string;
      match m.digits {
        case One(raw) =>
          if |raw| < 2 || |raw| % 2 != 0 {
            return false;
          }
          var splitPos := |raw| / 2;
          c1 := raw[..splitPos];
          c2 := raw[splitPos..splitPos + splitPos];
        case Two(first, second) =>
          c1, c2 := first, second;
          if |c1| != |c2| {
            return false;
          }
          if |c1| > 5 {
            c1 := c1[..5];
            c2 := c2[..5];
          }
      }
      assert SplitBlocks(m.digits) == Some((c1, c2));
      coord.SetPrecision(|c1|);
      c1 := PadRight(c1, 5, '0');
      c2 := PadRight(c2, 5, '0');
      var east := ParseDigits(c1);
      var north := ParseDigits(c2);
      if east.Some? && north.Some? {
        coord.easting := east.value;
        coord.northing := north.value;
      } else {
        return false;
      }
      if m.zone != "" {
        coord.utmZone := Upper(m.zone);
      }
      coord.gridSquare := Upper(m.grid);
      return true;
    }
  }

  /** The state the constructor leaves. */
  function Construct(grid: string, east: int, north: int, zone: string, padded: bool): (c: Coord)
    ensures c.zone == (if zone != "" then Upper(zone) else "")
    ensures c.grid == Upper(grid)
    ensures padded ==> c.easting == east && c.northing == north
    ensures !padded ==> c.easting == PadZeros(east) && c.northing == PadZeros(north)
    ensures c.precision == AssumePrecision(c.easting, c.northing)
  {
    var e := if padded then east else PadZeros(east);
    var n := if padded then north else PadZeros(north);
    Coord(if zone != "" then Upper(zone) else "", Upper(grid), ClampPrecision(AssumePrecision(e, n)), e, n)
  }

  // ------------------------------------------------------------- decoding

  /** The two axis strings of the digit captures, or None where `TryParse` gives up. */
  function SplitBlocks(d: DigitBlocks): (r: Option<(string, string)>)
    ensures d.One? ==> (r.Some? <==> |d.block| >= 2 && |d.block| % 2 == 0)
    ensures d.One? && r.Some? ==> r.value.0 + r.value.1 == d.block && |r.value.0| == |r.value.1|
    ensures d.Two? ==> (r.Some? <==> |d.first| == |d.second|)
    ensures d.Two? && r.Some? ==>
      var keep := if |d.first| > 5 then 5 else |d.first|;
      r.value == (d.first[..keep], d.second[..keep])
  {
    match d
    case One(raw) =>
      if |raw| < 2 || |raw| % 2 != 0 then None
      else
        var splitPos := |raw| / 2;
        assert raw == raw[..splitPos] + raw[splitPos..splitPos + splitPos];
        Some((raw[..splitPos], raw[splitPos..splitPos + splitPos]))
    case Two(c1, c2) =>
      if |c1| != |c2| then None
      else if |c1| > 5 then Some((c1[..5], c2[..5]))
      else
        assert c1[..|c1|] == c1 && c2[..|c2|] == c2;
        Some((c1, c2))
  }

  /**
   * What processing a match does to a coordinate: whether it succeeds, and
   * the resulting state, including the precision already assigned when a
   * later step fails.
   */
  function Decode(m: Match, prior: Coord): (bool, Coord)
  {
    match SplitBlocks(m.digits)
    case None => (false, prior)
    case Some((c1, c2)) =>
      var withPrecision := prior.(precision := ClampPrecision(|c1|));
      var east := ParseDigits(PadRight(c1, 5, '0'));
      var north := ParseDigits(PadRight(c2, 5, '0'));
      if east.None? || north.None? then (false, withPrecision)
      else
        var zone := if m.zone != "" then Upper(m.zone) else prior.zone;
        (true, Coord(zone, Upper(m.grid), withPrecision.precision, east.value, north.value))
  }

  /** `TryParse` as a function of the string and the coordinate's prior state. */
  function Parse(value: string, prior: Coord): (bool, Coord)
  {
    match Tokenize(value)
    case None => (false, prior)
    case Some(m) => Decode(m, prior)
  }

  // ------------------------------------------------------ equality, format

  /** `Equals`: zone, grid, easting and northing agree; precision is not compared. */
  predicate Equals(a: Coord, other: Option<Coord>)
  {
    match other
    case None => false
    case Some(b) => a.zone == b.zone && a.grid == b.grid && a.easting == b.easting && a.northing == b.northing
  }

  /** One axis as `ToString` writes it: "D<precision>" and then its first `precision` characters. */
  function AxisAsWritten(v: int, p: Precision): string
  {
    FormatD(v, p)[..p]
  }

  /** One axis as MGRS writes it: the five-digit metre value cut to its first `precision` digits. */
  function Axis(v: int, p: Precision): string
  {
    FormatD(v, 5)[..p]
  }

  /** "[zone ]grid easting northing". */
  function Layout(zone: string, grid: string, c1: string, c2: string): string
  {
    zone + (if zone != "" then " " else "") + grid + " " + c1 + " " + c2
  }

  /** `ToString` as the source writes it. */
  function ToStringAsWritten(c: Coord): string
  {
    Layout(c.zone, c.grid, AxisAsWritten(c.easting, c.precision), AxisAsWritten(c.northing, c.precision))
  }

  /** `ToString` with each axis padded to five digits before it is cut. */
  function ToString(c: Coord): string
  {
    Layout(c.zone, c.grid, Axis(c.easting, c.precision), Axis(c.northing, c.precision))
  }
}
