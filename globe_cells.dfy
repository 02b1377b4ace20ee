/**
 * What the generator builds, cell by cell: the names it gives, the extents of
 * the regular, Norwegian (31V/32V) and Svalbard (31X..37X) cells, and where a
 * point of each cell leads the designator.
 */
module GlobeCells {
  import opened Wrappers
  import opened Text
  import opened UtmZone
  import opened UtmGlobe

  // ------------------------------------------------------------------ names

  /** A non-polar name is three characters: two digits and the band letter. */
  lemma CellNameChars(n: int, c: char)
    requires 0 <= n < 100
    ensures CellName(n, c) == [DigitChar(n / 10), DigitChar(n % 10), c]
  {
    FormatDTwoDigits(n);
  }

  /** Two cell names agree exactly when their numbers and letters do. */
  lemma CellNameInjective(n1: int, c1: char, n2: int, c2: char)
    requires 0 <= n1 < 100 && 0 <= n2 < 100
    ensures CellName(n1, c1) == CellName(n2, c2) <==> n1 == n2 && c1 == c2
  {
    CellNameChars(n1, c1);
    CellNameChars(n2, c2);
    if CellName(n1, c1) == CellName(n2, c2) {
      assert DigitChar(n1 / 10) == DigitChar(n2 / 10);
      assert DigitChar(n1 % 10) == DigitChar(n2 % 10);
      assert n1 == 10 * (n1 / 10) + n1 % 10;
    }
  }

  /** Upper-casing leaves a cell name with a capital band letter as it is. */
  lemma UpperCellName(n: int, c: char)
    requires 0 <= n < 100 && IsUpperLetter(c)
    ensures Upper(CellName(n, c)) == CellName(n, c)
  {
    CellNameChars(n, c);
    UpperKeeps(CellName(n, c));
  }

  /** The band letters are capitals and pairwise different. */
  lemma BandLettersDistinct()
    ensures forall i :: 0 <= i < |BandLetters| ==> IsUpperLetter(BandLetters[i])
    ensures forall i, j :: 0 <= i < j < |BandLetters| ==> BandLetters[i] < BandLetters[j]
  {
  }

  /** The band letter of a generator row: row `k` of the regular loops starts at 80S + 8k. */
  lemma LatCharOfRow(row: int)
    requires 0 <= row < 19
    ensures GetLatChar(-80 + 8 * row) == BandLetters[row]
  {
    assert (-80 + 8 * row + 80) / 8 == row;
  }

  // ----------------------------------------------------------- cell shapes

  /**
   * The regular cell in band `row`, column `x`: 8 degrees tall from 80S + 8 * row,
   * named after column x + 1 and the band letter; 6 degrees wide from
   * 180W + 6 * x, except 31V (0 to 3E) and 32V (3E to 12E).
   */
  lemma RegularCellShape(row: int, x: int)
    requires 0 <= row < 19 && 0 <= x < 60
    ensures RegularCell(row, x).bottom == -80 + 8 * row
    ensures RegularCell(row, x).top == RegularCell(row, x).bottom + 8
    ensures RegularCell(row, x).name == CellName(x + 1, BandLetters[row])
    ensures row == 17 && x == 30 ==>
      RegularCell(row, x).left == 0 && RegularCell(row, x).right == 3 && RegularCell(row, x).meridian == 3.0
    ensures row == 17 && x == 31 ==>
      RegularCell(row, x).left == 3 && RegularCell(row, x).right == 12 && RegularCell(row, x).meridian == 9.0
    ensures !(row == 17 && (x == 30 || x == 31)) ==>
      RegularCell(row, x).left == (x - 30) * 6 && RegularCell(row, x).right == RegularCell(row, x).left + 6
      && RegularCell(row, x).meridian == (RegularCell(row, x).left + 3) as real
  {
    BandLettersDistinct();
    LatCharOfRow(row);
    UpperCellName(x + 1, BandLetters[row]);
    CellNameChars(31, 'V');
    CellNameChars(32, 'V');
    CellNameInjective(x + 1, BandLetters[row], 31, 'V');
    CellNameInjective(x + 1, BandLetters[row], 32, 'V');
    assert BandLetters[17] == 'V';
  }

  /** The generator's key for column `w` of band X, and which exceptional names it matches. */
  lemma HighCellKey(w: int)
    requires 0 <= w < 60
    ensures Upper(CellName(w + 1, 'X')) == CellName(w + 1, 'X')
    ensures CellName(w + 1, 'X') == [DigitChar((w + 1) / 10), DigitChar((w + 1) % 10), 'X']
    ensures 30 <= w <= 36 ==> CellName(w + 1, 'X') == ['3', DigitChar(w - 29), 'X']
    ensures !(30 <= w <= 36) ==> CellName(w + 1, 'X')[0] != '3' || CellName(w + 1, 'X')[1] == '0' || CellName(w + 1, 'X')[1] >= '8'
  {
    UpperCellName(w + 1, 'X');
    CellNameChars(w + 1, 'X');
  }

  /** Band X has no cells 32X, 34X and 36X: the merged cells 31X, 33X and 35X cover them. */
  lemma HighCellGaps(w: int)
    requires 0 <= w < 60
    ensures HighCell(w).None? <==> w == 31 || w == 33 || w == 35
  {
    HighCellKey(w);
  }

  /**
   * The band-X cell in column `w`, when it exists: 72N to 84N, named after
   * column w + 1, 6 degrees wide from 180W + 6 * w except the merged cells 31X
   * (0 to 9E), 33X (9E to 21E), 35X (21E to 33E) and 37X (33E to 42E).
   */
  lemma HighCellShape(w: int)
    requires 0 <= w < 60 && HighCell(w).Some?
    ensures var z := HighCell(w).value;
      z.bottom == 72 && z.top == 84 && z.name == CellName(w + 1, 'X')
      && (w == 30 ==> z.left == 0 && z.right == 9 && z.meridian == 3.0)
      && (w == 32 ==> z.left == 9 && z.right == 21 && z.meridian == 15.0)
      && (w == 34 ==> z.left == 21 && z.right == 33 && z.meridian == 27.0)
      && (w == 36 ==> z.left == 33 && z.right == 42 && z.meridian == 39.0)
      && (w < 30 || w > 36 ==> z.left == (w - 30) * 6 && z.right == z.left + 6 && z.meridian == (z.left + 3) as real)
  {
    HighCellKey(w);
  }

  // ------------------------------------------------- designator within a cell

  /** Inside [6k, 6k + 6) the six-degree column index is k. */
  lemma FloorSixth(lon: real, k: int)
    requires (6 * k) as real <= lon < (6 * k + 6) as real
    ensures (lon / 6.0).Floor == k
  {
    assert k as real <= lon / 6.0 < (k + 1) as real;
  }

  /** Points of the map proper are left alone by the wrap and the clamps. */
  lemma NormalizeInside(lat: real, lon: real)
    requires -90.0 <= lat <= 90.0 && -180.0 <= lon < 180.0
    ensures ClampLat(lat) == lat && WrapLon(lon) == lon
  {
  }

  /** Every point of the regular cell (row, x) is designated by that cell's name. */
  lemma DesignatorInRegularCell(row: int, x: int, lat: real, lon: real)
    requires 0 <= row < 19 && 0 <= x < 60
    requires RegularCell(row, x).Contains(lat, lon)
    ensures ZoneDesignatorForPoint(lat, lon) == RegularCell(row, x).name
  {
    RegularCellShape(row, x);
    NormalizeInside(lat, lon);
    var y := -80 + 8 * row;
    assert y <= lat.Floor < y + 8;
    assert (lat.Floor + 80) / 8 == row;
    var latChar := GetLatChar(lat.Floor);
    assert latChar == BandLetters[row];
    BandLettersDistinct();
    if !(row == 17 && (x == 30 || x == 31)) {
      FloorSixth(lon, x - 30);
    }
    assert LonIndex(latChar, lon) == x + 1;
  }

  /** Every point of an existing band-X cell is designated by that cell's name. */
  lemma DesignatorInHighCell(w: int, lat: real, lon: real)
    requires 0 <= w < 60 && HighCell(w).Some?
    requires HighCell(w).value.Contains(lat, lon)
    ensures ZoneDesignatorForPoint(lat, lon) == HighCell(w).value.name
  {
    HighCellShape(w);
    HighCellGaps(w);
    NormalizeInside(lat, lon);
    assert 72 <= lat.Floor < 84;
    var z := HighCell(w).value;
    if w < 30 || w > 36 {
      assert lon < 0.0 || lon >= 42.0;
      FloorSixth(lon, w - 30);
      assert LonIndex('X', lon) == w + 1;
    } else {
      assert LonIndex('X', lon) == w + 1;
    }
    assert GetLatChar(ClampLat(lat).Floor) == 'X';
  }

  /** Every point of a polar cap is designated by the cap's letter. */
  lemma DesignatorInPolarCap(z: Zone, lat: real, lon: real)
    requires z in [PolarZoneA, PolarZoneB, PolarZoneY, PolarZoneZ]
    requires z.Contains(lat, lon)
    ensures ZoneDesignatorForPoint(lat, lon) == z.name
  {
    NormalizeInside(lat, lon);
  }

  // ------------------------------------------------------ designator facts

  /** The six-degree column of a longitude brackets it. */
  lemma FloorSixthBounds(lon: real)
    ensures (6 * (lon / 6.0).Floor) as real <= lon < (6 * (lon / 6.0).Floor + 6) as real
  {
    var k := (lon / 6.0).Floor;
    assert k as real <= lon / 6.0 < (k + 1) as real;
  }

  /** Below 72N the band letter is the same throughout each 8-degree band. */
  lemma LatCharConstantOnBand(k: int, lat: int)
    requires 0 <= k < 19 && -80 + 8 * k <= lat < -80 + 8 * k + 8
    ensures GetLatChar(lat) == GetLatChar(-80 + 8 * k) == BandLetters[k]
  {
    LatCharOfRow(k);
    assert (lat + 80) / 8 == k;
  }

  /** South of 80S the cap is A west of the prime meridian and B east of it; from 84N it is Y or Z. */
  lemma PolarNaming(lat: real, lon: real)
    ensures lat < -80.0 ==> ZoneDesignatorForPoint(lat, lon) == if WrapLon(lon) < 0.0 then "A" else "B"
    ensures lat >= 84.0 ==> ZoneDesignatorForPoint(lat, lon) == if WrapLon(lon) < 0.0 then "Y" else "Z"
  {
    assert lat < -80.0 ==> ClampLat(lat).Floor < -80;
    assert lat >= 84.0 ==> ClampLat(lat).Floor >= 84;
  }

  /** 180E is folded onto 180W, and the poles fall in caps B and Z. */
  lemma EdgePoints()
    ensures ZoneDesignatorForPoint(0.0, -180.0) == "01N"
    ensures ZoneDesignatorForPoint(0.0, 180.0) == "01N"
    ensures ZoneDesignatorForPoint(-90.0, 0.0) == "B"
    ensures ZoneDesignatorForPoint(90.0, 0.0) == "Z"
  {
    LatCharOfRow(10);
    assert BandLetters[10] == 'N';
    FloorSixth(-180.0, -30);
    CellNameChars(1, 'N');
    PolarNaming(-90.0, 0.0);
    PolarNaming(90.0, 0.0);
  }

  /** The longitude index of a point on the map proper is a zone number 1..61. */
  lemma LonIndexRange(latChar: char, lon: real)
    requires -180.0 <= lon <= 180.0
    ensures 1 <= LonIndex(latChar, lon) <= 61
  {
    FloorSixthBounds(lon);
  }

  /** No point is ever designated 32X, 34X or 36X. */
  lemma DesignatorNeverGap(lat: real, lon: real)
    ensures ZoneDesignatorForPoint(lat, lon) != "32X"
    ensures ZoneDesignatorForPoint(lat, lon) != "34X"
    ensures ZoneDesignatorForPoint(lat, lon) != "36X"
  {
    var lon' := WrapLon(lon);
    var latChar := GetLatChar(ClampLat(lat).Floor);
    var n := LonIndex(latChar, lon');
    LonIndexRange(latChar, lon');
    if latChar == 'X' {
      FloorSixthBounds(lon');
      assert n != 32 && n != 34 && n != 36;
    }
    CellNameChars(32, 'X');
    CellNameChars(34, 'X');
    CellNameChars(36, 'X');
    CellNameInjective(n, latChar, 32, 'X');
    CellNameInjective(n, latChar, 34, 'X');
    CellNameInjective(n, latChar, 36, 'X');
  }
}
