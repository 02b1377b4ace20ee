/**
 * The registry as a whole: how many zones `GenerateZones` lists, that their
 * names are pairwise different, and what the dictionary the constructor fills
 * from them holds.
 */
module GlobeRegistry {
  import opened Wrappers
  import opened Text
  import opened UtmZone
  import opened UtmGlobe
  import opened GlobeCells
  import opened Seqs

  // ------------------------------------------------------------ membership

  /** A zone the regular loops produce. */
  ghost predicate IsRegularCell(z: Zone)
  {
    exists row, x :: 0 <= row < 19 && 0 <= x < 60 && z == RegularCell(row, x)
  }

  /** A zone the band-X loop keeps. */
  ghost predicate IsHighCell(z: Zone)
  {
    exists w :: 0 <= w < 60 && HighCell(w) == Some(z)
  }

  predicate IsPolarCap(z: Zone)
  {
    z == PolarZoneA || z == PolarZoneB || z == PolarZoneY || z == PolarZoneZ
  }

  /** Band `row`, column `x` sits at position 60 * row + x of the first `n` bands. */
  lemma {:induction false} BandAt(n: nat, row: int)
    requires n <= 19 && 0 <= row < n
    ensures 60 * row + 60 <= |RegularBandsUpTo(n)|
    ensures RegularBandsUpTo(n)[60 * row .. 60 * row + 60] == RegularBand(row)
  {
    if row < n - 1 {
      BandAt(n - 1, row);
      BandStep(n, row);
    } else {
      LastBand(n, row);
    }
  }

  /** A band found within the first `n - 1` bands is still there within the first `n`. */
  lemma BandStep(n: nat, row: int)
    requires 1 <= n <= 19 && 0 <= row < n - 1
    requires RegularBandsUpTo(n - 1)[60 * row .. 60 * row + 60] == RegularBand(row)
    ensures RegularBandsUpTo(n)[60 * row .. 60 * row + 60] == RegularBand(row)
  {
    BandKept(n, 60 * row, 60 * row + 60);
  }

  /** The last of the first `n` bands is the band itself. */
  lemma LastBand(n: nat, row: int)
    requires 1 <= n && row == n - 1
    ensures RegularBandsUpTo(n)[60 * row .. 60 * row + 60] == RegularBand(row)
  {
    SliceOfConcat(RegularBandsUpTo(row), RegularBand(row), 60 * row, 60 * row + 60);
  }

  /** A slice within the first `n - 1` bands is unchanged by appending band `n - 1`. */
  lemma BandKept(n: nat, i: int, j: int)
    requires 1 <= n && 0 <= i <= j <= 60 * (n - 1)
    ensures RegularBandsUpTo(n)[i..j] == RegularBandsUpTo(n - 1)[i..j]
  {
    SliceOfConcat(RegularBandsUpTo(n - 1), RegularBand(n - 1), i, j);
  }

  /** Band `row`, column `x` sits at position 60 * row + x of the regular part. */
  lemma RegularAt(row: int, x: int)
    requires 0 <= row < 19 && 0 <= x < 60
    ensures 60 * row + x < |RegularBandsUpTo(19)|
    ensures RegularBandsUpTo(19)[60 * row + x] == RegularCell(row, x)
  {
    BandAt(19, row);
    assert RegularBandsUpTo(19)[60 * row + x] == RegularBandsUpTo(19)[60 * row .. 60 * row + 60][x];
  }

  /** Every zone of the band-X part is the cell of some column. */
  lemma {:induction false} HighMember(n: nat, z: Zone)
    requires n <= 60 && z in HighCellsUpTo(n)
    ensures exists w :: 0 <= w < n && HighCell(w) == Some(z)
  {
    if z !in HighCellsUpTo(n - 1) {
      assert HighCell(n - 1) == Some(z);
    } else {
      HighMember(n - 1, z);
    }
  }

  /** Every existing band-X cell of the first `n` columns is kept. */
  lemma {:induction false} HighKept(n: nat, w: int)
    requires 0 <= w < n <= 60 && HighCell(w).Some?
    ensures HighCell(w).value in HighCellsUpTo(n)
  {
    if w < n - 1 {
      HighKept(n - 1, w);
      HighGrows(n, HighCell(w).value);
    } else {
      HighLast(n);
    }
  }

  /** Appending a column keeps the cells already there. */
  lemma HighGrows(n: nat, u: Zone)
    requires 1 <= n <= 60 && u in HighCellsUpTo(n - 1)
    ensures u in HighCellsUpTo(n)
  {
    var tail := if HighCell(n - 1).Some? then [HighCell(n - 1).value] else [];
    InPrefix(u, HighCellsUpTo(n - 1), tail);
  }

  /** The cell of the last column, when it exists, is kept. */
  lemma HighLast(n: nat)
    requires 1 <= n <= 60 && HighCell(n - 1).Some?
    ensures HighCell(n - 1).value in HighCellsUpTo(n)
  {
    assert HighCellsUpTo(n) == HighCellsUpTo(n - 1) + [HighCell(n - 1).value];
  }

  /** The registry lists the four caps, the regular cells and the kept band-X cells, and nothing else. */
  lemma AllZonesMember(z: Zone)
    requires z in AllZones()
    ensures IsPolarCap(z) || IsRegularCell(z) || IsHighCell(z)
  {
    var regular := RegularBandsUpTo(19);
    var high := HighCellsUpTo(60);
    InFourParts(z, [PolarZoneA, PolarZoneB], regular, high, [PolarZoneY, PolarZoneZ]);
    if z in regular {
      RegularMember(z);
    } else if z in high {
      HighMember(60, z);
    }
  }

  /** A zone of the regular part is the cell of some band and column. */
  lemma RegularMember(z: Zone)
    requires z in RegularBandsUpTo(19)
    ensures IsRegularCell(z)
  {
    var regular := RegularBandsUpTo(19);
    var i :| 0 <= i < |regular| && regular[i] == z;
    var row, x := i / 60, i % 60;
    assert i == 60 * row + x;
    RegularAt(row, x);
  }

  /** Conversely every regular cell and every kept band-X cell is in the registry. */
  lemma AllZonesContains(row: int, x: int, w: int)
    requires 0 <= row < 19 && 0 <= x < 60 && 0 <= w < 60
    ensures RegularCell(row, x) in AllZones()
    ensures HighCell(w).Some? ==> HighCell(w).value in AllZones()
  {
    var caps: seq<Zone> := [PolarZoneA, PolarZoneB];
    assert AllZones() == caps + RegularBandsUpTo(19) + HighCellsUpTo(60) + [PolarZoneY, PolarZoneZ];
    RegularAt(row, x);
    if HighCell(w).Some? {
      HighKept(60, w);
    }
  }

  // ------------------------------------------------------ self-consistency

  /** The key theorem: every point inside a registered zone is designated by that zone's name. */
  lemma DesignatorMatchesZone(z: Zone, lat: real, lon: real)
    requires z in AllZones() && z.Contains(lat, lon)
    ensures ZoneDesignatorForPoint(lat, lon) == z.name
  {
    AllZonesMember(z);
    if IsPolarCap(z) {
      DesignatorInPolarCap(z, lat, lon);
    } else if IsRegularCell(z) {
      var row, x :| 0 <= row < 19 && 0 <= x < 60 && z == RegularCell(row, x);
      DesignatorInRegularCell(row, x, lat, lon);
    } else {
      var w :| 0 <= w < 60 && HighCell(w) == Some(z);
      DesignatorInHighCell(w, lat, lon);
    }
  }

  // ----------------------------------------------------------------- count

  /** The band-X loop keeps every column but 32X, 34X and 36X. */
  lemma {:induction false} HighCount(n: nat)
    requires n <= 60
    ensures |HighCellsUpTo(n)|
         == n - (if n > 31 then 1 else 0) - (if n > 33 then 1 else 0) - (if n > 35 then 1 else 0)
  {
    if n > 0 {
      HighCount(n - 1);
      HighCellGaps(n - 1);
    }
  }

  /** 4 caps, 19 x 60 regular cells and 57 band-X cells: 1201 zones. */
  lemma AllZonesCount()
    ensures |AllZones()| == 1201
  {
    HighCount(60);
  }

  // ---------------------------------------------------------- unique names

  /** No two positions of `zs` carry the same name. */
  ghost predicate DistinctNames(zs: seq<Zone>)
  {
    forall i, j :: 0 <= i < j < |zs| ==> zs[i].name != zs[j].name
  }

  lemma DistinctConcat(a: seq<Zone>, b: seq<Zone>)
    requires DistinctNames(a) && DistinctNames(b)
    requires forall u, v :: u in a && v in b ==> u.name != v.name
    ensures DistinctNames(a + b)
  {
    forall i, j | 0 <= i < j < |a + b|
      ensures (a + b)[i].name != (a + b)[j].name
    {
      if j < |a| {
        assert (a + b)[i] == a[i] && (a + b)[j] == a[j];
      } else if i >= |a| {
        assert (a + b)[i] == b[i - |a|] && (a + b)[j] == b[j - |a|];
      } else {
        assert (a + b)[i] in a && (a + b)[j] in b;
      }
    }
  }

  /** Regular names end in a band letter below X; band-X names end in X; cap names are one letter. */
  lemma NameShapes(z: Zone)
    ensures IsPolarCap(z) ==> |z.name| == 1
    ensures IsRegularCell(z) ==> |z.name| == 3 && z.name[2] < 'X'
    ensures IsHighCell(z) ==> |z.name| == 3 && z.name[2] == 'X'
  {
    if IsRegularCell(z) {
      var row, x :| 0 <= row < 19 && 0 <= x < 60 && z == RegularCell(row, x);
      RegularCellShape(row, x);
      CellNameChars(x + 1, BandLetters[row]);
      BandLettersDistinct();
      assert BandLetters[19] == 'X';
    }
    if IsHighCell(z) {
      var w :| 0 <= w < 60 && HighCell(w) == Some(z);
      HighCellShape(w);
      CellNameChars(w + 1, 'X');
    }
  }

  lemma RegularDistinct()
    ensures DistinctNames(RegularBandsUpTo(19))
  {
    var regular := RegularBandsUpTo(19);
    forall i, j | 0 <= i < j < |regular|
      ensures regular[i].name != regular[j].name
    {
      RegularPositionsDiffer(i, j);
    }
  }

  lemma RegularPositionsDiffer(i: int, j: int)
    requires 0 <= i < j < 1140
    ensures RegularBandsUpTo(19)[i].name != RegularBandsUpTo(19)[j].name
  {
    RegularNameAt(i);
    RegularNameAt(j);
    BandLettersDistinct();
    CellNameInjective(i % 60 + 1, BandLetters[i / 60], j % 60 + 1, BandLetters[j / 60]);
  }

  /** The name at position `i` of the regular part: column i % 60, band i / 60. */
  lemma RegularNameAt(i: int)
    requires 0 <= i < 1140
    ensures 0 <= i / 60 < 19 && i < |RegularBandsUpTo(19)|
    ensures RegularBandsUpTo(19)[i].name == CellName(i % 60 + 1, BandLetters[i / 60])
  {
    var row, x := i / 60, i % 60;
    assert i == 60 * row + x;
    RegularAt(row, x);
    RegularCellShape(row, x);
  }

  lemma {:induction false} HighDistinct(n: nat)
    requires n <= 60
    ensures DistinctNames(HighCellsUpTo(n))
  {
    if n > 0 {
      HighDistinct(n - 1);
      var next := HighCell(n - 1);
      if next.Some? {
        forall u | u in HighCellsUpTo(n - 1)
          ensures u.name != next.value.name
        {
          HighMember(n - 1, u);
          var w :| 0 <= w < n - 1 && HighCell(w) == Some(u);
          HighCellShape(w);
          HighCellShape(n - 1);
          CellNameInjective(w + 1, 'X', n, 'X');
        }
        DistinctConcat(HighCellsUpTo(n - 1), [next.value]);
      }
    }
  }

  /** The names in the regular part end in a band letter below X. */
  lemma RegularNames()
    ensures forall u :: u in RegularBandsUpTo(19) ==> |u.name| == 3 && u.name[2] < 'X'
  {
    var regular := RegularBandsUpTo(19);
    forall u | u in regular
      ensures |u.name| == 3 && u.name[2] < 'X'
    {
      var i :| 0 <= i < |regular| && regular[i] == u;
      var row, x := i / 60, i % 60;
      assert i == 60 * row + x;
      RegularAt(row, x);
      NameShapes(u);
    }
  }

  /** The names in the band-X part end in X. */
  lemma HighNames()
    ensures forall u :: u in HighCellsUpTo(60) ==> |u.name| == 3 && u.name[2] == 'X'
  {
    forall u | u in HighCellsUpTo(60)
      ensures |u.name| == 3 && u.name[2] == 'X'
    {
      HighMember(60, u);
      NameShapes(u);
    }
  }

  /** The regular and band-X parts together: pairwise different three-character names. */
  lemma MiddleDistinct()
    ensures DistinctNames(RegularBandsUpTo(19) + HighCellsUpTo(60))
    ensures forall u :: u in RegularBandsUpTo(19) + HighCellsUpTo(60) ==> |u.name| == 3
  {
    RegularDistinct();
    HighDistinct(60);
    RegularNames();
    HighNames();
    DistinctConcat(RegularBandsUpTo(19), HighCellsUpTo(60));
  }

  /** Two one-letter caps on either side of three-character names keep the names distinct. */
  lemma CapsAround(south: seq<Zone>, middle: seq<Zone>, north: seq<Zone>)
    requires DistinctNames(middle) && forall u :: u in middle ==> |u.name| == 3
    requires south == [PolarZoneA, PolarZoneB] && north == [PolarZoneY, PolarZoneZ]
    ensures DistinctNames(south + middle + north)
  {
    DistinctConcat(south, middle);
    DistinctConcat(south + middle, north);
  }

  /** The 1201 zone names are pairwise different, so the dictionary loses none of them. */
  lemma AllZonesDistinct()
    ensures DistinctNames(AllZones())
  {
    var middle := RegularBandsUpTo(19) + HighCellsUpTo(60);
    MiddleDistinct();
    CapsAround([PolarZoneA, PolarZoneB], middle, [PolarZoneY, PolarZoneZ]);
    Assoc([PolarZoneA, PolarZoneB], RegularBandsUpTo(19), HighCellsUpTo(60));
  }

  // ---------------------------------------------------------------- extent

  /** Every registered zone lies within 90S..90N and 180W..180E. */
  lemma ZoneWithinMap(z: Zone)
    requires z in AllZones()
    ensures WithinMap(z)
  {
    AllZonesMember(z);
    if IsRegularCell(z) {
      var row, x :| 0 <= row < 19 && 0 <= x < 60 && z == RegularCell(row, x);
      RegularCellWithinMap(row, x);
    } else if IsHighCell(z) {
      var w :| 0 <= w < 60 && HighCell(w) == Some(z);
      HighCellWithinMap(w);
    }
  }

  predicate WithinMap(z: Zone)
  {
    -90 <= z.bottom && z.top <= 90 && -180 <= z.left && z.right <= 180
  }

  lemma RegularCellWithinMap(row: int, x: int)
    requires 0 <= row < 19 && 0 <= x < 60
    ensures WithinMap(RegularCell(row, x))
  {
    RegularCellShape(row, x);
  }

  lemma HighCellWithinMap(w: int)
    requires 0 <= w < 60 && HighCell(w).Some?
    ensures WithinMap(HighCell(w).value)
  {
    HighCellShape(w);
  }

  /** No registered zone is named 32X, 34X or 36X. */
  lemma NoGapZones(z: Zone)
    requires z in AllZones()
    ensures z.name != "32X" && z.name != "34X" && z.name != "36X"
  {
    AllZonesMember(z);
    NameShapes(z);
    if IsHighCell(z) {
      var w :| 0 <= w < 60 && HighCell(w) == Some(z);
      HighCellShape(w);
      HighCellGaps(w);
      CellNameChars(32, 'X');
      CellNameChars(34, 'X');
      CellNameChars(36, 'X');
      CellNameInjective(w + 1, 'X', 32, 'X');
      CellNameInjective(w + 1, 'X', 34, 'X');
      CellNameInjective(w + 1, 'X', 36, 'X');
    }
  }
}
