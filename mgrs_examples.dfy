/**
 * The parsing and formatting cases the library's tests exercise, each stated
 * the way the tests check it: the string is parsed into a coordinate whose
 * zone was cleared first, and the result is compared with `Equals` against a
 * coordinate built by the constructor (precision is not compared).
 */
module MgrsExamples {
  import opened Wrappers
  import opened Text
  import opened MgrsSyntax
  import opened Mgrs
  import opened MgrsLaws
  import opened MgrsToString

  // ------------------------------------------------ readings with premises

  /** `ParseTwoBlocks` for a zone and grid already in upper case and known axis values. */
  lemma ReadTwo(zone: string, grid: string, c1: string, c2: string, prior: Coord, e: int, n: int)
    requires zone == "" || (IsZone(zone) && Upper(zone) == zone)
    requires |grid| == 2 && IsLetter(grid[0]) && IsLetter(grid[1])
    requires 1 <= |c1| <= 5 && IsDigits(c1) && |c2| == |c1| && IsDigits(c2)
    requires ValueOf(c1) * Pow10(5 - |c1|) == e && ValueOf(c2) * Pow10(5 - |c2|) == n
    ensures Parse(Layout(zone, grid, c1, c2), prior)
         == (true, Coord(if zone == "" then prior.zone else zone, Upper(grid), |c1|, e, n))
  {
    ParseTwoBlocks(zone, grid, c1, c2, prior);
  }

  /** `ParseOneBlock` for a zone already in upper case and known half values. */
  lemma ReadOne(zone: string, grid: string, sep: string, b: string, prior: Coord, e: int, n: int)
    requires zone == "" || (IsZone(zone) && Upper(zone) == zone)
    requires |grid| == 2 && IsLetter(grid[0]) && IsLetter(grid[1])
    requires sep == "" || sep == " "
    requires 2 <= |b| <= 10 && |b| % 2 == 0 && IsDigits(b)
    requires ValueOf(b[..|b| / 2]) * Pow10(5 - |b| / 2) == e && ValueOf(b[|b| / 2..]) * Pow10(5 - |b| / 2) == n
    ensures Parse((if zone == "" then "" else zone + " ") + (grid + sep + b), prior)
         == (true, Coord(if zone == "" then prior.zone else zone, Upper(grid), |b| / 2, e, n))
  {
    ParseOneBlock(zone, grid, sep, b, prior);
  }

  // ------------------------------------------------------- literal facts

  /** The zones of the cases are already in upper case. */
  lemma UpperZones()
    ensures Upper("48T") == "48T" && Upper("01P") == "01P" && Upper("60X") == "60X"
  {
    UpperKeeps("48T");
    UpperKeeps("01P");
    UpperKeeps("60X");
  }

  /** A lower-case grid reads as the upper-case one the tests compare it with. */
  lemma UpperGrids()
    ensures Upper("aa") == Upper("AA") && Upper("ab") == Upper("Ab")
  {
    assert Upper("aa") == "AA";
    UpperKeeps("AA");
    assert Upper("ab") == "AB" && Upper("Ab") == "AB";
  }

  /** A digit string read at its own length: the value of its rendering. */
  lemma ValueOfRendering(s: string, v: nat)
    requires s == FormatD(v, |s|)
    ensures IsDigits(s) && ValueOf(s) == v
  {
    FormatDNatural(v, |s|);
  }

  lemma ShortValues()
    ensures IsDigits("12") && ValueOf("12") == 12
    ensures IsDigits("1234") && ValueOf("1234") == 1234
    ensures IsDigits("4527") && ValueOf("4527") == 4527
  {
    ValueOfRendering("12", 12);
    ValueOfRendering("1234", 1234);
    ValueOfRendering("4527", 4527);
  }

  lemma LeadingZeroValue()
    ensures IsDigits("0745") && ValueOf("0745") == 745
  {
    assert Digits(745) == "745";
    assert Repeat('0', 1) == "0";
    ValueOfRendering("0745", 745);
  }

  lemma Value12345()
    ensures IsDigits("12345") && ValueOf("12345") == 12345
  {
    FiveDigitValue("12345", 1234, 5);
  }

  lemma Value18749()
    ensures IsDigits("18749") && ValueOf("18749") == 18749
  {
    FiveDigitValue("18749", 1874, 9);
  }

  lemma Value17382()
    ensures IsDigits("17382") && ValueOf("17382") == 17382
  {
    FiveDigitValue("17382", 1738, 2);
  }

  /** A five-digit string read as its first four digits and its last one. */
  lemma FiveDigitValue(s: string, head: nat, last: nat)
    requires |s| == 5 && last <= 9 && s[..4] == FormatD(head, 4) && s[4] == DigitChar(last)
    ensures IsDigits(s) && ValueOf(s) == head * 10 + last
  {
    ValueOfRendering(s[..4], head);
    assert s[..|s| - 1] == s[..4];
  }

  /** The precisions the constructor infers for the cases. */
  lemma PrecisionQK()
    ensures AssumePrecision(45270, 7450) == 4
  {
    SmallPowers();
  }

  lemma Precision48T()
    ensures AssumePrecision(18749, 17382) == 5
  {
    SmallPowers();
  }

  lemma Precision01P()
    ensures AssumePrecision(12345, 12345) == 5
  {
    SmallPowers();
  }

  lemma Precision60X()
    ensures AssumePrecision(12340, 12340) == 4
  {
    SmallPowers();
  }

  lemma PrecisionLower()
    ensures AssumePrecision(12000, 12000) == 2
  {
    SmallPowers();
  }

  // ------------------------------------------------------------- the cases

  /** "QK 4527 0745": two blocks of four digits; the leading zero of the northing is kept. */
  lemma ParsesQK(prior: Coord)
    requires prior.zone == ""
    ensures Parse(Layout("", "QK", "4527", "0745"), prior) == (true, Construct("QK", 45270, 7450, "", true))
  {
    ShortValues();
    LeadingZeroValue();
    SmallPowers();
    PrecisionQK();
    ReadTwo("", "QK", "4527", "0745", prior, 45270, 7450);
  }

  /** "48T CQ 18749 17382": a zone and two five-digit blocks. */
  lemma Parses48T(prior: Coord)
    ensures Parse(Layout("48T", "CQ", "18749", "17382"), prior) == (true, Construct("CQ", 18749, 17382, "48T", true))
  {
    UpperZones();
    Value18749();
    Value17382();
    SmallPowers();
    Precision48T();
    assert IsZone("48T");
    ReadTwo("48T", "CQ", "18749", "17382", prior, 18749, 17382);
  }

  /** "01P FF 1234512345": a zone and one block of ten digits, split in half. */
  lemma Parses01P(prior: Coord)
    ensures Parse("01P" + " " + ("FF" + " " + "1234512345"), prior) == (true, Construct("FF", 12345, 12345, "01P", true))
  {
    UpperZones();
    Value12345();
    SmallPowers();
    Precision01P();
    assert IsZone("01P");
    assert "1234512345"[..5] == "12345" && "1234512345"[5..] == "12345";
    ReadOne("01P", "FF", " ", "1234512345", prior, 12345, 12345);
  }

  /** "60X FF 12341234": one block of eight digits, read at precision 4 as 12340 12340. */
  lemma Parses60X(prior: Coord)
    ensures Parse("60X" + " " + ("FF" + " " + "12341234"), prior) == (true, Construct("FF", 12340, 12340, "60X", true))
  {
    UpperZones();
    ShortValues();
    SmallPowers();
    Precision60X();
    assert IsZone("60X");
    assert "12341234"[..4] == "1234" && "12341234"[4..] == "1234";
    ReadOne("60X", "FF", " ", "12341234", prior, 12340, 12340);
  }

  /** "aa 1212": a lower-case grid square is upper-cased; one block of four digits. */
  lemma ParsesLowerCase(prior: Coord)
    requires prior.zone == ""
    ensures Parse("" + ("aa" + " " + "1212"), prior) == (true, Construct("AA", 12000, 12000, "", true))
  {
    UpperGrids();
    ShortValues();
    SmallPowers();
    PrecisionLower();
    assert "1212"[..2] == "12" && "1212"[2..] == "12";
    ReadOne("", "aa", " ", "1212", prior, 12000, 12000);
  }

  /** "ab1212": no space between grid square and digits. */
  lemma ParsesWithoutSpace(prior: Coord)
    requires prior.zone == ""
    ensures Parse("" + ("ab" + "" + "1212"), prior) == (true, Construct("Ab", 12000, 12000, "", true))
  {
    UpperGrids();
    ShortValues();
    SmallPowers();
    PrecisionLower();
    assert "1212"[..2] == "12" && "1212"[2..] == "12";
    ReadOne("", "ab", "", "1212", prior, 12000, 12000);
  }

  /** "q" is not an MGRS coordinate, and the coordinate is left as it was. */
  lemma RejectsSingleLetter(prior: Coord)
    ensures Parse("q", prior) == (false, prior)
  {
    assert DigitRun("q", 2) == 0;
    assert SkipSpace("q"[1..]) == [];
    assert SkipSpace("q") == "q";
  }

  /** "af121": a single block of odd length does not split, and the coordinate is left as it was. */
  lemma RejectsOddBlock(prior: Coord)
    ensures Parse("af121", prior) == (false, prior)
  {
    assert ZonedReading("af121") == None by {
      assert DigitRun("af121", 2) == 0;
      assert SkipSpace("af121"[1..]) == "f121";
    }
    assert GridAndDigits("af121", "") == Some(Match("", "af", One("121"))) by {
      ReadsGridAndBlock("af", "", "121", "");
      assert "af" + "" + "121" == "af121";
    }
    assert SkipSpace("af121") == "af121";
  }

  /** A value given without padding gains zeros up to five digits: 12 becomes 12000. */
  lemma PadsTwelve()
    ensures PadZeros(12) == 12000
  {
    assert Digits(1) == "1" && Digits(12) == "12";
    SmallPowers();
  }

  /** 12340 written at precision 4. */
  lemma AxisTwelveP()
    ensures Axis(12340, 4) == "1234"
  {
    assert Digits(1) == "1" && Digits(12) == "12" && Digits(123) == "123";
    assert Digits(1234) == "1234" && Digits(12340) == "12340";
    assert FormatD(12340, 5) == "12340";
  }

  /** The constructor infers precision 4 from 12340 and 12340. */
  lemma ConstructsTwelveP()
    ensures Construct("AF", 12340, 12340, "12P", true) == Coord("12P", "AF", 4, 12340, 12340)
  {
    UpperKeeps("12P");
    UpperKeeps("AF");
    Precision60X();
  }

  /** `ToString` of that coordinate writes "12P AF 1234 1234", as written and padded alike. */
  lemma FormatsTwelveP(c: Coord)
    requires c == Coord("12P", "AF", 4, 12340, 12340)
    ensures ToString(c) == "12P AF 1234 1234"
    ensures ToStringAsWritten(c) == "12P AF 1234 1234"
  {
    AxisTwelveP();
    assert ToString(c) == "12P" + " " + "AF" + " " + "1234" + " " + "1234";
    AsWrittenAgreesOnFiveDigits(c);
  }
}
