/**
 * What the MGRS operations promise together: the precision `AssumePrecision`
 * infers is the only one that fits, what a successful `TryParse` stores, the
 * round trip from `ToString` back through `TryParse`, and where the source's
 * `ToString` breaks it.
 */
module MgrsLaws {
  import opened Wrappers
  import opened Text
  import opened MgrsSyntax
  import opened Mgrs

  // ------------------------------------------------------------ arithmetic

  /** The powers of ten a precision can ask for, written out. */
  lemma SmallPowers()
    ensures Pow10(0) == 1 && Pow10(1) == 10 && Pow10(2) == 100
    ensures Pow10(3) == 1000 && Pow10(4) == 10000 && Pow10(5) == 100000
  {
  }

  /** A multiple of the power of ten leaves no remainder. */
  lemma MultipleMod(x: int, k: nat)
    requires k <= 4
    ensures (x * Pow10(k)) % Pow10(k) == 0
  {
    SmallPowers();
    if k == 0 {
      assert (x * 1) % 1 == 0;
    } else if k == 1 {
      assert (x * 10) % 10 == 0;
    } else if k == 2 {
      assert (x * 100) % 100 == 0;
    } else if k == 3 {
      assert (x * 1000) % 1000 == 0;
    } else {
      assert (x * 10000) % 10000 == 0;
    }
  }

  /** A multiple of 10^k plus a remainder below 10^k is a multiple only when the remainder is 0. */
  lemma RemainderZero(q: int, r: int, k: nat)
    requires k <= 4 && 0 <= r < Pow10(k) && (q * Pow10(k) + r) % Pow10(k) == 0
    ensures r == 0
  {
    SmallPowers();
    if k == 1 {
      RemainderBelow(q, r, 10);
    } else if k == 2 {
      RemainderBelow(q, r, 100);
    } else if k == 3 {
      RemainderBelow(q, r, 1000);
    } else if k == 4 {
      RemainderBelow(q, r, 10000);
    }
  }

  /** The same for one literal power of ten. */
  lemma RemainderBelow(q: int, r: int, m: int)
    requires m == 10 || m == 100 || m == 1000 || m == 10000
    requires 0 <= r < m && (q * m + r) % m == 0
    ensures r == 0
  {
    var x := q * m + r;
    var d := x / m;
    assert x == d * m;
    assert r == (d - q) * m;
    if m == 10 {
      assert r == (d - q) * 10;
    } else if m == 100 {
      assert r == (d - q) * 100;
    } else if m == 1000 {
      assert r == (d - q) * 1000;
    } else {
      assert r == (d - q) * 10000;
    }
  }

  /** Ending in 5 - p zeros implies ending in one zero fewer. */
  lemma FitsStep(v: int, p: Precision)
    requires p < 5 && FitsPrecision(v, p)
    ensures FitsPrecision(v, p + 1)
  {
    SmallPowers();
    var t := v / Pow10(5 - p);
    if p == 1 {
      assert v == (t * 10) * 1000;
      MultipleMod(t * 10, 3);
    } else if p == 2 {
      assert v == (t * 10) * 100;
      MultipleMod(t * 10, 2);
    } else if p == 3 {
      assert v == (t * 10) * 10;
      MultipleMod(t * 10, 1);
    } else {
      assert v == (t * 10) * 1;
    }
  }

  /** Fitting a coarse precision implies fitting every finer one. */
  lemma {:induction false} FitsFiner(v: int, q: Precision, p: Precision)
    requires q <= p && FitsPrecision(v, q)
    ensures FitsPrecision(v, p)
    decreases p - q
  {
    if q < p {
      FitsStep(v, q);
      FitsFiner(v, q + 1, p);
    }
  }

  // ------------------------------------------------------------- precision

  /**
   * `AssumePrecision` picks the one precision at which both axes end in zeros
   * and below which one of them does not.
   */
  lemma AssumePrecisionExact(east: int, north: int, p: Precision)
    ensures AssumePrecision(east, north) == p <==>
      FitsPrecision(east, p) && FitsPrecision(north, p)
      && (p > 1 ==> !(FitsPrecision(east, p - 1) && FitsPrecision(north, p - 1)))
  {
    var q := AssumePrecision(east, north);
    assert Pow10(0) == 1;
    assert FitsPrecision(east, q) && FitsPrecision(north, q);
    assert q > 1 ==> !(FitsPrecision(east, q - 1) && FitsPrecision(north, q - 1)) by {
      if q > 1 {
        assert 5 - (q - 1) == 6 - q;
      }
    }
    if FitsPrecision(east, p) && FitsPrecision(north, p)
       && (p > 1 ==> !(FitsPrecision(east, p - 1) && FitsPrecision(north, p - 1)))
    {
      if q < p {
        FitsFiner(east, q, p - 1);
        FitsFiner(north, q, p - 1);
        assert false;
      } else if q > p {
        FitsFiner(east, p, q - 1);
        FitsFiner(north, p, q - 1);
        assert false;
      }
    }
  }

  /** The examples of the source's comment, and the two extremes. */
  lemma AssumePrecisionExamples()
    ensures AssumePrecision(12340, 12300) == 4
    ensures AssumePrecision(0, 0) == 1
    ensures AssumePrecision(12345, 0) == 5
    ensures AssumePrecision(10000, 20000) == 1
    ensures AssumePrecision(1, 1) == 5
  {
    assert Pow10(1) == 10 && Pow10(2) == 100 && Pow10(3) == 1000 && Pow10(4) == 10000;
  }

  // -------------------------------------------------------- the tokenizer

  /** A digit run stops at the end of the digits it is given. */
  lemma {:induction false} DigitRunAll(a: string, b: string, max: nat)
    requires IsDigits(a) && |a| <= max
    requires b == [] || !IsDigit(b[0])
    ensures DigitRun(a + b, max) == |a|
  {
    if a == [] {
      assert a + b == b;
    } else {
      assert (a + b)[1..] == a[1..] + b;
      DigitRunAll(a[1..], b, max - 1);
    }
  }

  /** The first block is read up to the space, the second after it. */
  lemma ReadsFirstBlock(c1: string, c2: string)
    requires 1 <= |c1| <= 10 && IsDigits(c1)
    ensures DigitRun(c1 + " " + c2, 10) == |c1|
    ensures (c1 + " " + c2)[..|c1|] == c1
    ensures SkipSpace((c1 + " " + c2)[|c1|..]) == c2
  {
    var rest := c1 + " " + c2;
    assert rest == c1 + (" " + c2);
    DigitRunAll(c1, " " + c2, 10);
    assert rest[|c1|..] == " " + c2;
  }

  /** The last block is read to the end of the string. */
  lemma ReadsLastBlock(c2: string)
    requires 1 <= |c2| <= 10 && IsDigits(c2)
    ensures DigitRun(c2, 10) == |c2| && c2[..|c2|] == c2 && SkipSpace(c2[|c2|..]) == []
  {
    assert c2 + [] == c2;
    DigitRunAll(c2, [], 10);
  }

  /** A well-formed grid square, two digit blocks and the spaces between them read back as they were. */
  lemma ReadsGridAndDigits(grid: string, c1: string, c2: string, zone: string)
    requires |grid| == 2 && IsLetter(grid[0]) && IsLetter(grid[1])
    requires 1 <= |c1| <= 10 && IsDigits(c1) && 1 <= |c2| <= 10 && IsDigits(c2)
    ensures GridAndDigits(grid + " " + c1 + " " + c2, zone) == Some(Match(zone, grid, Two(c1, c2)))
  {
    var s := grid + " " + c1 + " " + c2;
    var rest := c1 + " " + c2;
    assert s[..2] == grid;
    assert SkipSpace(s[2..]) == rest by {
      assert s[2..] == " " + rest;
    }
    ReadsFirstBlock(c1, c2);
    ReadsLastBlock(c2);
  }

  /** A single block, directly after the grid or after one space, reads as one block. */
  lemma ReadsGridAndBlock(grid: string, sep: string, b: string, zone: string)
    requires |grid| == 2 && IsLetter(grid[0]) && IsLetter(grid[1])
    requires sep == "" || sep == " "
    requires 1 <= |b| <= 10 && IsDigits(b)
    ensures GridAndDigits(grid + sep + b, zone) == Some(Match(zone, grid, One(b)))
  {
    var s := grid + sep + b;
    assert s[..2] == grid;
    assert SkipSpace(s[2..]) == b by {
      assert s[2..] == sep + b;
    }
    ReadsLastBlock(b);
  }

  /**
   * Text that starts with a grid square followed by something other than a
   * letter cannot also be read with a one-letter zone: it reads without one.
   */
  lemma TokenizeUnzoned(body: string)
    requires |body| >= 3 && IsLetter(body[0]) && IsLetter(body[1]) && !IsLetter(body[2])
    ensures Tokenize(body) == GridAndDigits(body, "")
  {
    assert body == [] + body;
    DigitRunAll([], body, 2);
    assert body[1..][1] == body[2];
    assert SkipSpace(body[1..]) == body[1..];
    assert SkipSpace(body) == body;
  }

  /** A zone and a space in front of text that reads as grid and digits is captured as the zone. */
  lemma TokenizeZoned(zone: string, body: string, m: Match)
    requires IsZone(zone) && GridAndDigits(body, zone) == Some(m)
    ensures Tokenize(zone + " " + body) == Some(m)
  {
    ZonedReadingOf(zone, body);
  }

  lemma ZonedReadingOf(zone: string, body: string)
    requires IsZone(zone)
    ensures ZonedReading(zone + " " + body) == GridAndDigits(body, zone)
  {
    var s := zone + " " + body;
    var k := |zone| - 1;
    assert s[k] == zone[k];
    assert DigitRun(s, 2) == k by {
      assert s == zone[..k] + s[k..];
      DigitRunAll(zone[..k], s[k..], 2);
    }
    assert k < |s| && IsLetter(s[k]);
    assert s[..k + 1] == zone;
    assert SkipSpace(s[k + 1..]) == body by {
      assert s[k + 1..] == " " + body;
    }
  }

  /** The shape every match of the tokenizer has. */
  predicate WellFormed(m: Match)
  {
    |m.grid| == 2 && IsLetter(m.grid[0]) && IsLetter(m.grid[1])
    && (m.zone == "" || IsZone(m.zone))
    && match m.digits
       case One(b) => 1 <= |b| <= 10 && IsDigits(b)
       case Two(a, b) => 1 <= |a| <= 10 && IsDigits(a) && 1 <= |b| <= 10 && IsDigits(b)
  }

  lemma GridAndDigitsShape(s: string, zone: string)
    requires GridAndDigits(s, zone).Some?
    requires zone == "" || IsZone(zone)
    ensures WellFormed(GridAndDigits(s, zone).value) && GridAndDigits(s, zone).value.zone == zone
  {
    var rest := SkipSpace(s[2..]);
    var n1 := DigitRun(rest, 10);
    var after := SkipSpace(rest[n1..]);
    var n2 := DigitRun(after, 10);
    RunIsDigits(rest, n1);
    if n2 > 0 {
      RunIsDigits(after, n2);
    }
  }

  /** The run `DigitRun` measures is a digit string. */
  lemma RunIsDigits(s: string, n: nat)
    requires n <= |s| && forall i :: 0 <= i < n ==> IsDigit(s[i])
    ensures IsDigits(s[..n])
  {
  }

  /** Whatever the tokenizer accepts, it returns a well-formed match. */
  lemma TokenizeShape(s: string)
    requires Tokenize(s).Some?
    ensures WellFormed(Tokenize(s).value)
  {
    if ZonedReading(s).Some? {
      ZonedShape(s);
    } else {
      GridAndDigitsShape(SkipSpace(s), "");
    }
  }

  /** A zoned reading captures a well-formed zone. */
  lemma ZonedShape(s: string)
    requires ZonedReading(s).Some?
    ensures WellFormed(ZonedReading(s).value)
  {
    var k := DigitRun(s, 2);
    ZoneCaptured(s, k);
    GridAndDigitsShape(SkipSpace(s[k + 1..]), s[..k + 1]);
  }

  /** Up to two digits and then a letter form a zone. */
  lemma ZoneCaptured(s: string, k: nat)
    requires k == DigitRun(s, 2) && k < |s| && IsLetter(s[k])
    ensures IsZone(s[..k + 1])
  {
    var zone := s[..k + 1];
    RunIsDigits(s, k);
    assert zone[..k] == s[..k];
  }

  // -------------------------------------------------------------- decoding

  /** A block of digits padded to five places reads as its value shifted left. */
  lemma ReadsPadded(c: string)
    requires 1 <= |c| <= 5 && IsDigits(c)
    ensures ParseDigits(PadRight(c, 5, '0')) == Some(ValueOf(c) * Pow10(5 - |c|))
    ensures ValueOf(c) * Pow10(5 - |c|) < 100000
    ensures FitsPrecision(ValueOf(c) * Pow10(5 - |c|), |c|)
  {
    ValueOfPadRight(c, 5);
    ValueOfBound(PadRight(c, 5, '0'));
    assert Pow10(5) == 100000;
    MultipleMod(ValueOf(c), 5 - |c|);
  }

  /** The halves `SplitBlocks` yields from a well-formed match: equal-length digit strings of 1..5. */
  lemma SplitShape(m: Match)
    requires WellFormed(m) && SplitBlocks(m.digits).Some?
    ensures var (c1, c2) := SplitBlocks(m.digits).value;
      1 <= |c1| <= 5 && |c1| == |c2| && IsDigits(c1) && IsDigits(c2)
  {
    var (c1, c2) := SplitBlocks(m.digits).value;
    if m.digits.One? {
      var b := m.digits.block;
      assert b == c1 + c2;
      assert forall i :: 0 <= i < |c1| ==> c1[i] == b[i];
      assert forall i :: 0 <= i < |c2| ==> c2[i] == b[|c1| + i];
    }
  }

  /**
   * Processing a well-formed match: it succeeds exactly when the digit blocks
   * split; a failure leaves the coordinate as it was; a success stores the
   * digit count as precision, both axes as the typed digits followed by zeros
   * up to metres, the upper-cased grid, and the upper-cased zone when one was
   * captured.
   */
  lemma DecodeMeaning(m: Match, prior: Coord)
    requires WellFormed(m)
    ensures Decode(m, prior).0 <==> SplitBlocks(m.digits).Some?
    ensures !Decode(m, prior).0 ==> Decode(m, prior).1 == prior
    ensures Decode(m, prior).0 ==>
      var (c1, c2) := SplitBlocks(m.digits).value;
      var c := Decode(m, prior).1;
      IsDigits(c1) && IsDigits(c2)
      && c.precision == |c1| == |c2|
      && c.easting == ValueOf(c1) * Pow10(5 - |c1|) && c.northing == ValueOf(c2) * Pow10(5 - |c2|)
      && 0 <= c.easting < 100000 && 0 <= c.northing < 100000
      && FitsPrecision(c.easting, c.precision) && FitsPrecision(c.northing, c.precision)
      && c.grid == Upper(m.grid)
      && c.zone == (if m.zone != "" then Upper(m.zone) else prior.zone)
  {
    if SplitBlocks(m.digits).Some? {
      SplitShape(m);
      var (c1, c2) := SplitBlocks(m.digits).value;
      ReadsPadded(c1);
      ReadsPadded(c2);
    }
  }

  /**
   * What `TryParse` does with a string: it succeeds exactly when the string
   * reads as an MGRS coordinate whose digit blocks split, and then stores
   * what `DecodeMeaning` describes (the metre values in range and ending in
   * the zeros the precision implies); a failure leaves the coordinate as it was.
   */
  lemma ParseMeaning(s: string, prior: Coord)
    ensures Parse(s, prior).0 <==> Tokenize(s).Some? && SplitBlocks(Tokenize(s).value.digits).Some?
    ensures !Parse(s, prior).0 ==> Parse(s, prior).1 == prior
    ensures Parse(s, prior).0 ==>
      var m := Tokenize(s).value;
      var (c1, c2) := SplitBlocks(m.digits).value;
      var c := Parse(s, prior).1;
      IsDigits(c1) && IsDigits(c2)
      && c.precision == |c1| == |c2|
      && c.easting == ValueOf(c1) * Pow10(5 - |c1|) && c.northing == ValueOf(c2) * Pow10(5 - |c2|)
      && 0 <= c.easting < 100000 && 0 <= c.northing < 100000
      && FitsPrecision(c.easting, c.precision) && FitsPrecision(c.northing, c.precision)
      && c.grid == Upper(m.grid)
      && c.zone == (if m.zone != "" then Upper(m.zone) else prior.zone)
  {
    if Tokenize(s).Some? {
      TokenizeShape(s);
      DecodeMeaning(Tokenize(s).value, prior);
    }
  }

  /** Two blocks of equal length are read as the digits followed by zeros up to metres. */
  lemma ParseTwoBlocks(zone: string, grid: string, c1: string, c2: string, prior: Coord)
    requires zone == "" || IsZone(zone)
    requires |grid| == 2 && IsLetter(grid[0]) && IsLetter(grid[1])
    requires 1 <= |c1| <= 5 && IsDigits(c1) && |c2| == |c1| && IsDigits(c2)
    ensures Parse(Layout(zone, grid, c1, c2), prior)
         == (true, Coord(if zone == "" then prior.zone else Upper(zone), Upper(grid), |c1|,
                         ValueOf(c1) * Pow10(5 - |c1|), ValueOf(c2) * Pow10(5 - |c2|)))
  {
    TokenizeLayout(zone, grid, c1, c2);
    DecodeTwoBlocks(zone, grid, c1, c2, prior);
  }

  /** Two blocks of equal length up to five digits: each read as digits followed by zeros. */
  lemma DecodeTwoBlocks(zone: string, grid: string, c1: string, c2: string, prior: Coord)
    requires 1 <= |c1| <= 5 && IsDigits(c1) && |c2| == |c1| && IsDigits(c2)
    ensures Decode(Match(zone, grid, Two(c1, c2)), prior)
         == (true, Coord(if zone == "" then prior.zone else Upper(zone), Upper(grid), |c1|,
                         ValueOf(c1) * Pow10(5 - |c1|), ValueOf(c2) * Pow10(5 - |c2|)))
  {
    assert SplitBlocks(Two(c1, c2)) == Some((c1, c2));
    ReadsPadded(c1);
    ReadsPadded(c2);
  }

  /** A single block after the grid, with or without a space, and with or without a zone. */
  lemma TokenizeOneBlock(zone: string, grid: string, sep: string, b: string)
    requires zone == "" || IsZone(zone)
    requires |grid| == 2 && IsLetter(grid[0]) && IsLetter(grid[1])
    requires sep == "" || sep == " "
    requires 1 <= |b| <= 10 && IsDigits(b)
    ensures Tokenize((if zone == "" then "" else zone + " ") + (grid + sep + b)) == Some(Match(zone, grid, One(b)))
  {
    var body := grid + sep + b;
    ReadsGridAndBlock(grid, sep, b, zone);
    if zone == "" {
      assert body[2] == (if sep == "" then b[0] else ' ');
      TokenizeUnzoned(body);
      assert "" + body == body;
    } else {
      TokenizeZoned(zone, body, Match(zone, grid, One(b)));
    }
  }

  /** A single block of even length is split in half, each half read as digits followed by zeros. */
  lemma DecodeOneBlock(zone: string, grid: string, b: string, prior: Coord)
    requires 2 <= |b| <= 10 && |b| % 2 == 0 && IsDigits(b)
    ensures var h := |b| / 2;
      Decode(Match(zone, grid, One(b)), prior)
      == (true, Coord(if zone == "" then prior.zone else Upper(zone), Upper(grid), h,
                      ValueOf(b[..h]) * Pow10(5 - h), ValueOf(b[h..]) * Pow10(5 - h)))
  {
    var h := |b| / 2;
    assert b[h..] == b[h..h + h];
    ReadsPadded(b[..h]);
    ReadsPadded(b[h..]);
  }

  /**
   * A single block of even length, after the grid with or without a space, is
   * split in half, each half read as digits followed by zeros up to metres.
   */
  lemma ParseOneBlock(zone: string, grid: string, sep: string, b: string, prior: Coord)
    requires zone == "" || IsZone(zone)
    requires |grid| == 2 && IsLetter(grid[0]) && IsLetter(grid[1])
    requires sep == "" || sep == " "
    requires 2 <= |b| <= 10 && |b| % 2 == 0 && IsDigits(b)
    ensures var h := |b| / 2;
      Parse((if zone == "" then "" else zone + " ") + (grid + sep + b), prior)
      == (true, Coord(if zone == "" then prior.zone else Upper(zone), Upper(grid), h,
                      ValueOf(b[..h]) * Pow10(5 - h), ValueOf(b[h..]) * Pow10(5 - h)))
  {
    TokenizeOneBlock(zone, grid, sep, b);
    DecodeOneBlock(zone, grid, b, prior);
  }

  // ------------------------------------------------------------ round trip

  /** A coordinate `ToString` writes in a form `TryParse` reads. */
  predicate Writable(c: Coord)
  {
    |c.grid| == 2 && IsUpperLetter(c.grid[0]) && IsUpperLetter(c.grid[1])
    && (c.zone == "" || (IsZone(c.zone) && Upper(c.zone) == c.zone))
    && 0 <= c.easting < 100000 && 0 <= c.northing < 100000
    && FitsPrecision(c.easting, c.precision) && FitsPrecision(c.northing, c.precision)
  }

  /** An axis written at a precision it fits reads back as the same metres. */
  lemma AxisReads(v: int, p: Precision)
    requires 0 <= v < 100000 && FitsPrecision(v, p)
    ensures IsDigits(Axis(v, p)) && |Axis(v, p)| == p
    ensures ParseDigits(PadRight(Axis(v, p), 5, '0')) == Some(v)
  {
    DigitsLength(v, 5);
    assert Pow10(5) == 100000;
    var f := FormatD(v, 5);
    FormatDNatural(v, 5);
    ValueOfSplit(f, p);
    RemainderZero(ValueOf(f[..p]), ValueOf(f[p..]), 5 - p);
    assert Axis(v, p) == f[..p];
    ReadsPadded(f[..p]);
  }

  /** Decoding the two axes `ToString` writes gives back the coordinate. */
  lemma DecodeWritten(c: Coord, prior: Coord)
    requires Writable(c)
    ensures Decode(Match(c.zone, c.grid, Two(Axis(c.easting, c.precision), Axis(c.northing, c.precision))), prior)
         == (true, if c.zone == "" then c.(zone := prior.zone) else c)
  {
    AxisReads(c.easting, c.precision);
    AxisReads(c.northing, c.precision);
    UpperKeeps(c.grid);
  }

  /** The layout of a coordinate string, without and with a zone. */
  lemma LayoutParts(zone: string, grid: string, c1: string, c2: string)
    ensures zone == "" ==> Layout(zone, grid, c1, c2) == grid + " " + c1 + " " + c2
    ensures zone != "" ==> Layout(zone, grid, c1, c2) == zone + " " + (grid + " " + c1 + " " + c2)
  {
  }

  /** The tokenizer reads a laid-out grid and two blocks back, with or without a zone. */
  lemma TokenizeLayout(zone: string, grid: string, c1: string, c2: string)
    requires zone == "" || IsZone(zone)
    requires |grid| == 2 && IsLetter(grid[0]) && IsLetter(grid[1])
    requires 1 <= |c1| <= 10 && IsDigits(c1) && 1 <= |c2| <= 10 && IsDigits(c2)
    ensures Tokenize(Layout(zone, grid, c1, c2)) == Some(Match(zone, grid, Two(c1, c2)))
  {
    var body := grid + " " + c1 + " " + c2;
    LayoutParts(zone, grid, c1, c2);
    ReadsGridAndDigits(grid, c1, c2, zone);
    if zone == "" {
      assert body[2] == ' ';
      TokenizeUnzoned(body);
    } else {
      TokenizeZoned(zone, body, Match(zone, grid, Two(c1, c2)));
    }
  }

  /** The tokenizer finds in `ToString`'s output the zone, the grid and the two axis strings. */
  lemma WrittenTokens(c: Coord)
    requires Writable(c)
    ensures Tokenize(ToString(c))
         == Some(Match(c.zone, c.grid, Two(Axis(c.easting, c.precision), Axis(c.northing, c.precision))))
  {
    AxisReads(c.easting, c.precision);
    AxisReads(c.northing, c.precision);
    TokenizeLayout(c.zone, c.grid, Axis(c.easting, c.precision), Axis(c.northing, c.precision));
  }

  /**
   * `TryParse` reads back what `ToString` writes: the same coordinate, with
   * the prior zone kept when none was written.
   */
  lemma RoundTrip(c: Coord, prior: Coord)
    requires Writable(c)
    ensures Parse(ToString(c), prior) == (true, if c.zone == "" then c.(zone := prior.zone) else c)
  {
    WrittenTokens(c);
    DecodeWritten(c, prior);
  }

  /** Upper-casing a zone keeps it a zone, and the result is already upper case. */
  lemma UpperZone(zone: string)
    requires IsZone(zone)
    ensures IsZone(Upper(zone)) && Upper(Upper(zone)) == Upper(zone)
  {
    var u := Upper(zone);
    assert u[..|u| - 1] == Upper(zone[..|zone| - 1]);
    UpperKeeps(zone[..|zone| - 1]);
    UpperIdempotent(zone);
  }

  /**
   * A coordinate built from metres in range writes a string that parses back
   * to the same state (with the prior zone when it was built without one).
   */
  lemma ConstructRoundTrip(grid: string, east: int, north: int, zone: string, prior: Coord)
    requires |grid| == 2 && IsLetter(grid[0]) && IsLetter(grid[1])
    requires zone == "" || IsZone(zone)
    requires 0 <= east < 100000 && 0 <= north < 100000
    ensures var c := Construct(grid, east, north, zone, true);
      Parse(ToString(c), prior) == (true, if zone == "" then c.(zone := prior.zone) else c)
  {
    var c := Construct(grid, east, north, zone, true);
    assert Pow10(0) == 1;
    if zone != "" {
      UpperZone(zone);
    }
    RoundTrip(c, prior);
  }

  // ---------------------------------------------------------------- Equals

  /** `Equals` is equality of everything but the precision. */
  lemma EqualsIgnoresPrecision(a: Coord, b: Coord)
    ensures Equals(a, Some(b)) <==> a.(precision := 1) == b.(precision := 1)
    ensures !Equals(a, None)
  {
  }

  /** `Equals` is an equivalence relation on coordinates. */
  lemma EqualsEquivalence(a: Coord, b: Coord, c: Coord)
    ensures Equals(a, Some(a))
    ensures Equals(a, Some(b)) ==> Equals(b, Some(a))
    ensures Equals(a, Some(b)) && Equals(b, Some(c)) ==> Equals(a, Some(c))
  {
  }
}
