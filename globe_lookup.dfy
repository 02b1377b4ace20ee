/**
 * The dictionary the `UTMGlobe` constructor fills and what `ZoneForPoint`
 * does with it: which names it holds, that every point of a zone finds that
 * zone, and exactly which points the lookup accepts.
 */
module GlobeLookup {
  import opened Wrappers
  import opened Text
  import opened UtmZone
  import opened UtmGlobe
  import opened GlobeCells
  import opened GlobeRegistry

  // ------------------------------------------------------------ dictionary

  /** A name is a key exactly when some listed zone carries it. */
  lemma {:induction false} ZoneMapKeys(zs: seq<Zone>, n: string)
    ensures n in ZoneMap(zs) <==> exists i :: 0 <= i < |zs| && zs[i].name == n
  {
    if zs != [] {
      var prefix := zs[..|zs| - 1];
      ZoneMapKeys(prefix, n);
      if n in ZoneMap(prefix) {
        var i :| 0 <= i < |prefix| && prefix[i].name == n;
        assert zs[i] == prefix[i];
      }
      if exists i :: 0 <= i < |zs| && zs[i].name == n {
        var i :| 0 <= i < |zs| && zs[i].name == n;
        if i < |prefix| {
          assert prefix[i] == zs[i];
        }
      }
    }
  }

  /** Every value of the dictionary is one of the listed zones, filed under its own name. */
  lemma {:induction false} ZoneMapValues(zs: seq<Zone>, n: string)
    requires n in ZoneMap(zs)
    ensures ZoneMap(zs)[n] in zs && ZoneMap(zs)[n].name == n
  {
    var prefix := zs[..|zs| - 1];
    if n != zs[|zs| - 1].name {
      ZoneMapValues(prefix, n);
      assert ZoneMap(prefix)[n] in zs;
    }
  }

  /** With pairwise different names, every listed zone is found under its name. */
  lemma {:induction false} ZoneMapLookup(zs: seq<Zone>, i: int)
    requires DistinctNames(zs) && 0 <= i < |zs|
    ensures zs[i].name in ZoneMap(zs) && ZoneMap(zs)[zs[i].name] == zs[i]
  {
    var prefix := zs[..|zs| - 1];
    if i < |zs| - 1 {
      assert DistinctNames(prefix);
      ZoneMapLookup(prefix, i);
      assert prefix[i] == zs[i];
    }
  }

  /** With pairwise different names, the dictionary has one entry per listed zone. */
  lemma {:induction false} ZoneMapSize(zs: seq<Zone>)
    requires DistinctNames(zs)
    ensures |ZoneMap(zs)| == |zs|
  {
    if zs != [] {
      var prefix := zs[..|zs| - 1];
      assert DistinctNames(prefix);
      ZoneMapSize(prefix);
      ZoneMapKeys(prefix, zs[|zs| - 1].name);
      assert zs[|zs| - 1].name !in ZoneMap(prefix);
    }
  }

  /** What the constructor builds. */
  ghost predicate Built(g: Globe)
  {
    g.zones == ZoneMap(AllZones())
  }

  /** The built dictionary finds every registered zone under its name. */
  lemma RegistryLookup(g: Globe, z: Zone)
    requires Built(g) && z in AllZones()
    ensures z.name in g.zones && g.zones[z.name] == z
  {
    AllZonesDistinct();
    var i :| 0 <= i < |AllZones()| && AllZones()[i] == z;
    ZoneMapLookup(AllZones(), i);
  }

  /** The built dictionary holds 1201 zones. */
  lemma RegistrySize(g: Globe)
    requires Built(g)
    ensures |g.zones| == 1201
  {
    AllZonesDistinct();
    ZoneMapSize(AllZones());
    AllZonesCount();
  }

  // ---------------------------------------------------------------- lookup

  /** Every point of a registered zone is looked up to that very zone. */
  lemma LookupInsideZone(g: Globe, z: Zone, lat: real, lon: real)
    requires Built(g) && z in AllZones() && z.Contains(lat, lon)
    ensures g.ZoneForPoint(lat, lon) == Ok(z)
  {
    DesignatorMatchesZone(z, lat, lon);
    RegistryLookup(g, z);
  }

  /** Two different registered zones never share a point. */
  lemma ZonesDisjoint(z1: Zone, z2: Zone, lat: real, lon: real)
    requires z1 in AllZones() && z2 in AllZones()
    requires z1.Contains(lat, lon) && z2.Contains(lat, lon)
    ensures z1 == z2
  {
    DesignatorMatchesZone(z1, lat, lon);
    DesignatorMatchesZone(z2, lat, lon);
    AllZonesDistinct();
    var zs := AllZones();
    var i :| 0 <= i < |zs| && zs[i] == z1;
    var j :| 0 <= j < |zs| && zs[j] == z2;
    ZoneMapLookup(zs, i);
    ZoneMapLookup(zs, j);
  }

  // -------------------------------------------------------------- coverage

  /** Every point of 90S..90N by 180W..180E (north and east edges open) lies in a registered zone. */
  lemma CoveringZone(lat: real, lon: real) returns (z: Zone)
    requires -90.0 <= lat < 90.0 && -180.0 <= lon < 180.0
    ensures z in AllZones() && z.Contains(lat, lon)
  {
    var south: seq<Zone> := [PolarZoneA, PolarZoneB];
    var north: seq<Zone> := [PolarZoneY, PolarZoneZ];
    assert AllZones() == south + RegularBandsUpTo(19) + HighCellsUpTo(60) + north;
    FloorSixthBounds(lon);
    var column := (lon / 6.0).Floor + 30;
    if lat < -80.0 {
      z := if lon < 0.0 then PolarZoneA else PolarZoneB;
      assert z in south;
    } else if lat >= 84.0 {
      z := if lon < 0.0 then PolarZoneY else PolarZoneZ;
      assert z in north;
    } else if lat >= 72.0 {
      var w :=
        if 0.0 <= lon < 9.0 then 30
        else if 9.0 <= lon < 21.0 then 32
        else if 21.0 <= lon < 33.0 then 34
        else if 33.0 <= lon < 42.0 then 36
        else column;
      HighCellGaps(w);
      HighCellShape(w);
      AllZonesContains(0, 0, w);
      z := HighCell(w).value;
    } else {
      var row := (lat.Floor + 80) / 8;
      var x :=
        if row == 17 && 0.0 <= lon < 3.0 then 30
        else if row == 17 && 3.0 <= lon < 12.0 then 31
        else column;
      RegularCellShape(row, x);
      AllZonesContains(row, x, 0);
      z := RegularCell(row, x);
    }
  }

  /**
   * `ZoneForPoint` as written succeeds exactly on 90S <= lat < 90N and
   * 180W <= lon < 180E; in particular it fails at 180E and at the North Pole,
   * which the designator itself accepts.
   */
  lemma LookupSucceedsExactlyOnMap(g: Globe, lat: real, lon: real)
    requires Built(g)
    ensures g.ZoneForPoint(lat, lon).Ok? <==> -90.0 <= lat < 90.0 && -180.0 <= lon < 180.0
  {
    if g.ZoneForPoint(lat, lon).Ok? {
      var d := ZoneDesignatorForPoint(lat, lon);
      ZoneMapValues(AllZones(), d);
      ZoneWithinMap(g.zones[d]);
    }
    if -90.0 <= lat < 90.0 && -180.0 <= lon < 180.0 {
      var z := CoveringZone(lat, lon);
      LookupInsideZone(g, z, lat, lon);
    }
  }

  /** The lookup 180E fails in: the designator names 01N, whose east edge is 174W. */
  lemma LookupFailsAtAntimeridian(g: Globe)
    requires Built(g)
    ensures g.ZoneForPoint(0.0, 180.0) == Err(OutsideZone("01N"))
  {
    EdgePoints();
    LookupSucceedsExactlyOnMap(g, 0.0, 180.0);
    var z := CoveringZone(0.0, -180.0);
    DesignatorMatchesZone(z, 0.0, -180.0);
    RegistryLookup(g, z);
  }

  /** The lookup the North Pole fails in: the designator names Z, whose north edge is open. */
  lemma LookupFailsAtNorthPole(g: Globe)
    requires Built(g)
    ensures g.ZoneForPoint(90.0, 0.0) == Err(OutsideZone("Z"))
  {
    EdgePoints();
    LookupSucceedsExactlyOnMap(g, 90.0, 0.0);
    var z := CoveringZone(89.0, 0.0);
    DesignatorMatchesZone(z, 89.0, 0.0);
    PolarNaming(89.0, 0.0);
    RegistryLookup(g, z);
  }

  /**
   * The corrected lookup re-checks the wrapped and clamped point, and so
   * succeeds for every latitude short of the North Pole and every longitude
   * below 540E (from 540E on the clamp pins the point to 180E, which no zone holds).
   */
  lemma NormalizedLookupSucceeds(g: Globe, lat: real, lon: real)
    requires Built(g)
    ensures g.ZoneForNormalizedPoint(lat, lon).Ok? <==> lat < 90.0 && lon < 540.0
  {
    var lat', lon' := ClampLat(lat), WrapLon(lon);
    if g.ZoneForNormalizedPoint(lat, lon).Ok? {
      var d := ZoneDesignatorForPoint(lat, lon);
      ZoneMapValues(AllZones(), d);
      ZoneWithinMap(g.zones[d]);
    }
    if lat < 90.0 && lon < 540.0 {
      assert -90.0 <= lat' < 90.0 && -180.0 <= lon' < 180.0;
      NormalizeInside(lat', lon');
      assert ZoneDesignatorForPoint(lat, lon) == ZoneDesignatorForPoint(lat', lon');
      var z := CoveringZone(lat', lon');
      DesignatorMatchesZone(z, lat', lon');
      RegistryLookup(g, z);
    }
  }

  // --------------------------------------------------- named registry zones

  /** 32X, 34X and 36X are not in the dictionary. */
  lemma GapsAbsent(g: Globe)
    requires Built(g)
    ensures "32X" !in g.zones && "34X" !in g.zones && "36X" !in g.zones
  {
    forall n | n in {"32X", "34X", "36X"}
      ensures n !in g.zones
    {
      ZoneMapKeys(AllZones(), n);
      forall i | 0 <= i < |AllZones()|
        ensures AllZones()[i].name != n
      {
        NoGapZones(AllZones()[i]);
      }
    }
  }

  /** The Norwegian cells: 31V spans 0 to 3E, 32V spans 3E to 12E with its meridian at 9E. */
  lemma NorwayZones(g: Globe)
    requires Built(g)
    ensures "31V" in g.zones && g.zones["31V"].left == 0 && g.zones["31V"].Width() == 3
    ensures "32V" in g.zones && g.zones["32V"].left == 3 && g.zones["32V"].Width() == 9
    ensures g.zones["32V"].meridian == 9.0
  {
    assert BandLetters[17] == 'V';
    assert "31V" in g.zones && g.zones["31V"].left == 0 && g.zones["31V"].Width() == 3 by {
      NorwayZone(g, 30);
      CellNameChars(31, 'V');
    }
    assert "32V" in g.zones && g.zones["32V"].left == 3 && g.zones["32V"].Width() == 9
        && g.zones["32V"].meridian == 9.0 by {
      NorwayZone(g, 31);
      CellNameChars(32, 'V');
    }
  }

  /** A cell of band V is filed under its name, with the extent the generator gives it. */
  lemma NorwayZone(g: Globe, x: int)
    requires Built(g) && 0 <= x < 60
    ensures CellName(x + 1, BandLetters[17]) in g.zones
    ensures var z := g.zones[CellName(x + 1, BandLetters[17])];
      (x == 30 ==> z.left == 0 && z.right == 3 && z.meridian == 3.0)
      && (x == 31 ==> z.left == 3 && z.right == 12 && z.meridian == 9.0)
  {
    RegularCellShape(17, x);
    AllZonesContains(17, x, 0);
    RegistryLookup(g, RegularCell(17, x));
  }

  /** The Svalbard cells: 31X and 37X are 9 degrees wide, 33X and 35X 12, and 38X starts at 42E. */
  lemma SvalbardZones(g: Globe)
    requires Built(g)
    ensures "31X" in g.zones && g.zones["31X"].Width() == 9
    ensures "33X" in g.zones && g.zones["33X"].Width() == 12
    ensures "35X" in g.zones && g.zones["35X"].Width() == 12
    ensures "37X" in g.zones && g.zones["37X"].Width() == 9
    ensures "38X" in g.zones && g.zones["38X"].left == 42
  {
    assert "31X" in g.zones && g.zones["31X"].Width() == 9 by {
      SvalbardZone(g, 30);
      CellNameChars(31, 'X');
    }
    assert "33X" in g.zones && g.zones["33X"].Width() == 12 by {
      SvalbardZone(g, 32);
      CellNameChars(33, 'X');
    }
    assert "35X" in g.zones && g.zones["35X"].Width() == 12 by {
      SvalbardZone(g, 34);
      CellNameChars(35, 'X');
    }
    assert "37X" in g.zones && g.zones["37X"].Width() == 9 by {
      SvalbardZone(g, 36);
      CellNameChars(37, 'X');
    }
    assert "38X" in g.zones && g.zones["38X"].left == 42 by {
      SvalbardZone(g, 37);
      CellNameChars(38, 'X');
    }
  }

  /** The band-X cell of column `w` is filed under its name, with the extent the generator gives it. */
  lemma SvalbardZone(g: Globe, w: int)
    requires Built(g) && 0 <= w < 60 && w != 31 && w != 33 && w != 35
    ensures CellName(w + 1, 'X') in g.zones
    ensures var z := g.zones[CellName(w + 1, 'X')];
      (w == 30 ==> z.left == 0 && z.right == 9)
      && (w == 32 ==> z.left == 9 && z.right == 21)
      && (w == 34 ==> z.left == 21 && z.right == 33)
      && (w == 36 ==> z.left == 33 && z.right == 42)
      && (w < 30 || w > 36 ==> z.left == (w - 30) * 6 && z.right == z.left + 6)
  {
    HighCellGaps(w);
    HighCellShape(w);
    AllZonesContains(0, 0, w);
    RegistryLookup(g, HighCell(w).value);
  }
}
