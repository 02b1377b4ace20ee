/**
 * `ToString` as the source writes it against the padded rendering: where the
 * two agree, and how, at precisions below 5, the source's version misreads a
 * northing below 10^precision (one whose five-digit form starts with at least
 * 5 - precision zeros).
 */
module MgrsToString {
  import opened Text
  import opened MgrsSyntax
  import opened Mgrs
  import opened MgrsLaws

  /** A five-digit value renders the same in either form. */
  lemma AxisFiveDigits(v: int, p: Precision)
    requires 10000 <= v <= 99999
    ensures AxisAsWritten(v, p) == Axis(v, p)
  {
    SmallPowers();
    DigitsLength(v, 5);
    DigitsLength(v, 4);
  }

  /** Where both axes have five digits, the source's `ToString` agrees with the padded one. */
  lemma AsWrittenAgreesOnFiveDigits(c: Coord)
    requires 10000 <= c.easting <= 99999 && 10000 <= c.northing <= 99999
    ensures ToStringAsWritten(c) == ToString(c)
  {
    AxisFiveDigits(c.easting, c.precision);
    AxisFiveDigits(c.northing, c.precision);
  }

  /**
   * The source's axis string always has `p` digits; for a value below 10^p
   * it is the value itself, written without the leading zeros of its
   * five-digit form.
   */
  lemma AxisAsWrittenShape(v: int, p: Precision)
    requires v >= 0
    ensures IsDigits(AxisAsWritten(v, p)) && |AxisAsWritten(v, p)| == p
    ensures v < Pow10(p) ==> ValueOf(AxisAsWritten(v, p)) == v
  {
    FormatDNatural(v, p);
    DigitsLength(v, p);
    var f := FormatD(v, p);
    if v < Pow10(p) {
      assert f[..p] == f;
    }
  }

  /** Scaling a positive value by 10^k, k >= 1, changes it. */
  lemma ScaledDiffers(v: int, k: nat)
    requires 1 <= k <= 4 && v > 0
    ensures v * Pow10(k) > v
  {
    SmallPowers();
  }

  /** The two axis strings of the source's `ToString` for such a coordinate, and what they read as. */
  lemma AsWrittenAxes(c: Coord)
    requires Writable(c)
    requires 10000 <= c.easting && c.northing < Pow10(c.precision)
    ensures var w1 := AxisAsWritten(c.easting, c.precision);
      |w1| == c.precision && IsDigits(w1) && ValueOf(w1) * Pow10(5 - c.precision) == c.easting
    ensures var w2 := AxisAsWritten(c.northing, c.precision);
      |w2| == c.precision && IsDigits(w2) && ValueOf(w2) == c.northing
  {
    var w1 := AxisAsWritten(c.easting, c.precision);
    AxisFiveDigits(c.easting, c.precision);
    AxisReads(c.easting, c.precision);
    ReadsPadded(w1);
    AxisAsWrittenShape(c.northing, c.precision);
  }

  /**
   * `TryParse` of the source's `ToString` output: for a coordinate whose
   * easting has five digits and whose northing is below 10^precision, the
   * northing comes back multiplied by 10^(5 - precision), while everything
   * else comes back as it was.
   */
  lemma AsWrittenReads(c: Coord, prior: Coord)
    requires Writable(c)
    requires 10000 <= c.easting && c.northing < Pow10(c.precision)
    ensures Parse(ToStringAsWritten(c), prior)
         == (true, Coord(if c.zone == "" then prior.zone else c.zone, c.grid, c.precision,
                         c.easting, c.northing * Pow10(5 - c.precision)))
  {
    var p := c.precision;
    var w1 := AxisAsWritten(c.easting, p);
    var w2 := AxisAsWritten(c.northing, p);
    AsWrittenAxes(c);
    UpperKeeps(c.grid);
    assert ToStringAsWritten(c) == Layout(c.zone, c.grid, w1, w2);
    ParseTwoBlocks(c.zone, c.grid, w1, w2, prior);
  }

  /**
   * The discrepancy: for such a coordinate with a positive northing and a
   * precision below 5, reading back the source's `ToString` output gives a
   * different northing.
   */
  lemma AsWrittenMisreads(c: Coord, prior: Coord)
    requires Writable(c)
    requires 10000 <= c.easting && 0 < c.northing < Pow10(c.precision) && c.precision < 5
    ensures Parse(ToStringAsWritten(c), prior).0
    ensures Parse(ToStringAsWritten(c), prior).1.northing != c.northing
  {
    AsWrittenReads(c, prior);
    ScaledDiffers(c.northing, 5 - c.precision);
  }

  /** The decimal renderings the example below needs. */
  lemma ExampleDigits()
    ensures Digits(45270) == "45270" && Digits(7450) == "7450"
  {
    assert Digits(4) == "4" && Digits(7) == "7";
    assert Digits(45) == "45" && Digits(74) == "74";
    assert Digits(452) == "452" && Digits(745) == "745";
    assert Digits(4527) == "4527";
  }

  /** The axis strings of the example below, as written and padded. */
  lemma ExampleAxes()
    ensures AxisAsWritten(45270, 4) == "4527" && AxisAsWritten(7450, 4) == "7450"
    ensures Axis(45270, 4) == "4527" && Axis(7450, 4) == "0745"
  {
    ExampleDigits();
    assert Repeat('0', 1) == "0";
  }

  /** The two layouts of the example. */
  lemma ExampleLayouts()
    ensures Layout("", "QK", "4527", "7450") == "QK 4527 7450"
    ensures Layout("", "QK", "4527", "0745") == "QK 4527 0745"
  {
  }

  /** The string the source's `ToString` writes for the source's example "QK 4527 0745". */
  lemma ExampleAsWritten(c: Coord)
    requires c == Coord("", "QK", 4, 45270, 7450)
    ensures ToStringAsWritten(c) == "QK 4527 7450"
  {
    ExampleAxes();
    assert AxisAsWritten(c.easting, c.precision) == "4527" && AxisAsWritten(c.northing, c.precision) == "7450";
    assert ToStringAsWritten(c) == Layout("", "QK", "4527", "7450");
    ExampleLayouts();
  }

  /** The string the padded rendering writes for the same coordinate: the example itself. */
  lemma ExamplePadded(c: Coord)
    requires c == Coord("", "QK", 4, 45270, 7450)
    ensures ToString(c) == "QK 4527 0745"
  {
    ExampleAxes();
    assert Axis(c.easting, c.precision) == "4527" && Axis(c.northing, c.precision) == "0745";
    assert ToString(c) == Layout("", "QK", "4527", "0745");
    ExampleLayouts();
  }

  /**
   * The source's own example "QK 4527 0745" (northing 7450 at precision 4):
   * what `ToString` as written produces reads back with northing 74500; what
   * the padded rendering produces reads back as the coordinate itself.
   */
  lemma ExampleMisread(c: Coord)
    requires c == Coord("", "QK", 4, 45270, 7450)
    ensures Parse(ToStringAsWritten(c), c) == (true, c.(northing := 74500))
    ensures Parse(ToString(c), c) == (true, c)
  {
    SmallPowers();
    assert Writable(c);
    AsWrittenReads(c, c);
    RoundTrip(c, c);
  }
}
