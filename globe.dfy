/**
 * The globe-wide UTM zone registry and the arithmetic that resolves a point to
 * the name of its zone: latitude band letters (I and O skipped), the V-band
 * split at 3 degrees east, the merged X-band cells 31X/33X/35X/37X, the missing
 * 32X/34X/36X, and the four polar caps A, B, Y and Z.
 */
module UtmGlobe {
  import opened Wrappers
  import opened Text
  import opened UtmZone
  import opened Seqs

  /** The twenty 8-degree band letters from 80S northwards, without I and O. */
  const BandLetters: string := "CDEFGHJKLMNPQRSTUVWX"

  /** The band letter of a whole-degree latitude; 'A' south of 80S and 'Z' from 84N. */
  function GetLatChar(lat: int): (c: char)
    ensures c != 'I' && c != 'O'
    ensures lat < -80 ==> c == 'A'
    ensures lat >= 84 ==> c == 'Z'
    ensures 72 <= lat < 84 ==> c == 'X'
    ensures -80 <= lat < 72 ==> c == BandLetters[(lat + 80) / 8]
  {
    if lat < -80 then 'A'
    else if lat >= 84 then 'Z'
    else if lat >= 72 then 'X'
    else
      // lat + 80 is not negative here, so C#'s truncating division agrees with Dafny's
      var offset := (lat + 80) / 8;
      var skipI := if offset >= 6 then 1 else 0;
      var skipO := if offset >= 11 then 1 else 0;
      ('A' as int + 2 + offset + skipI + skipO) as char
  }

  /** `Math.Clamp`. */
  function Clamp(v: real, lo: real, hi: real): real
  {
    if v < lo then lo else if v > hi then hi else v
  }

  /** Longitude as the designator sees it: 180 and above shifted by a turn, then clamped to [-180, 180]. */
  function WrapLon(lon: real): real
  {
    Clamp(if lon >= 180.0 then lon - 360.0 else lon, -180.0, 180.0)
  }

  /** Latitude as the designator sees it: clamped to [-90, 90]. */
  function ClampLat(lat: real): real
  {
    Clamp(lat, -90.0, 90.0)
  }

  /** The 1-based zone number of a (wrapped) longitude within a band, with the V and X exceptions. */
  function LonIndex(latChar: char, lon: real): int
  {
    var floorLon := (lon / 6.0).Floor;
    if latChar == 'V' then
      if 0.0 <= lon < 3.0 then 31
      else if 3.0 <= lon < 12.0 then 32
      else floorLon + 31
    else if latChar == 'X' then
      if 0.0 <= lon < 9.0 then 31
      else if 9.0 <= lon < 21.0 then 33
      else if 21.0 <= lon < 33.0 then 35
      else if 33.0 <= lon < 42.0 then 37
      else floorLon + 31
    else
      floorLon + 31
  }

  /** A non-polar zone name: the zone number as "D2" followed by the band letter. */
  function CellName(number: int, latChar: char): string
  {
    FormatD(number, 2) + [latChar]
  }

  /** `ZoneDesignatorForPoint`: the name of the zone a point falls in. */
  function ZoneDesignatorForPoint(lat: real, lon: real): string
  {
    var lon' := WrapLon(lon);
    var lat' := ClampLat(lat);
    var latChar := GetLatChar(lat'.Floor);
    var lonIndex := LonIndex(latChar, lon');
    if latChar == 'A' then [if lon' < 0.0 then 'A' else 'B']
    else if latChar == 'Z' then [if lon' < 0.0 then 'Y' else 'Z']
    else CellName(lonIndex, latChar)
  }

  // ------------------------------------------------------- zone generation

  /** The polar caps south of 80S and from 84N, split at the prime meridian; the central meridian is 0. */
  const PolarZoneA: Zone := Zone("A", -180, 0, -90, -80, 0.0)
  const PolarZoneB: Zone := Zone("B", 0, 180, -90, -80, 0.0)
  const PolarZoneY: Zone := Zone("Y", -180, 0, 84, 90, 0.0)
  const PolarZoneZ: Zone := Zone("Z", 0, 180, 84, 90, 0.0)

  /** The caps are the irregular cells the generator builds and renames. */
  lemma PolarCapsAsBuilt()
    ensures PolarZoneA == Irregular(-90, -180, 180, 10, 0.0).SetName("A")
    ensures PolarZoneB == Irregular(-90, 0, 180, 10, 0.0).SetName("B")
    ensures PolarZoneY == Irregular(84, -180, 180, 6, 0.0).SetName("Y")
    ensures PolarZoneZ == Irregular(84, 0, 180, 6, 0.0).SetName("Z")
  {
  }

  /** A cell of the 19 bands C..W; 31V and 32V are the Norwegian exception. */
  function GenerateRegularZones(lat: int, lon: int, name: string): Zone
  {
    var zone :=
      if Upper(name) == "31V" then Irregular(lat, lon, 3, 8, 3.0)
      else if Upper(name) == "32V" then Irregular(lat, lon - 3, 9, 8, 9.0)
      else Regular(lat, lon);
    zone.SetName(name)
  }

  /** A cell of band X (72N to 84N): None for the three cells that do not exist. */
  function GenerateHighLatitudeZones(lat: int, lon: int, name: string): Option<Zone>
  {
    var key := Upper(name);
    if key == "32X" || key == "34X" || key == "36X" then None
    else
      var zone :=
        if key == "31X" then Irregular(72, 0, 9, 12, 3.0)
        else if key == "33X" then Irregular(72, 9, 12, 12, 15.0)
        else if key == "35X" then Irregular(72, 21, 12, 12, 27.0)
        else if key == "37X" then Irregular(72, 33, 9, 12, 39.0)
        else Irregular(lat, lon, 6, 12, (lon + 3) as real);
      Some(zone.SetName(name))
  }

  /** The cell of band `row` (0 = band C at 80S) in column `x` (0 = zone 01 at 180W). */
  function RegularCell(row: int, x: int): Zone
  {
    var y := -80 + 8 * row;
    GenerateRegularZones(y, (x - 30) * 6, CellName(x + 1, GetLatChar(y)))
  }

  /** The 60 cells of band `row`, west to east. */
  function RegularBand(row: int): (cells: seq<Zone>)
    ensures |cells| == 60
  {
    seq(60, x => RegularCell(row, x))
  }

  /** The cells of the first `n` bands from the south. */
  function RegularBandsUpTo(n: nat): (cells: seq<Zone>)
    ensures |cells| == 60 * n
  {
    if n == 0 then [] else RegularBandsUpTo(n - 1) + RegularBand(n - 1)
  }

  /** The X-band cell in column `w` (0-based from 180W), if it exists. */
  function HighCell(w: int): Option<Zone>
  {
    GenerateHighLatitudeZones(72, (w - 30) * 6, CellName(w + 1, GetLatChar(72)))
  }

  /** The existing X-band cells of the first `n` columns, west to east. */
  function HighCellsUpTo(n: nat): seq<Zone>
  {
    if n == 0 then []
    else HighCellsUpTo(n - 1) + (if HighCell(n - 1).Some? then [HighCell(n - 1).value] else [])
  }

  /** Every zone, in the order `GenerateZones` lists them. */
  function AllZones(): seq<Zone>
  {
    [PolarZoneA, PolarZoneB] + RegularBandsUpTo(19) + HighCellsUpTo(60) + [PolarZoneY, PolarZoneZ]
  }

  /** `GenerateZones`: south caps, the regular bands, band X without its gaps, north caps. */
  method GenerateZones() returns (zones: seq<Zone>)
    ensures zones == AllZones()
  {
    zones := [];
    // South Pole zones
    zones := zones + [PolarZoneA];
    zones := zones + [PolarZoneB];
    // the regular zones
    zones := AppendRegularZones(zones);
    // the high-latitude zones 01X through 60X
    zones := AppendHighLatitudeZones(zones);
    // North Pole zones
    zones := zones + [PolarZoneY];
    zones := zones + [PolarZoneZ];
    AppendedInTurn(PolarZoneA, PolarZoneB, RegularBandsUpTo(19), HighCellsUpTo(60), PolarZoneY, PolarZoneZ);
  }

  /** The loop over bands C..W, 80S to 72N, 8 degrees at a time. */
  method AppendRegularZones(prefix: seq<Zone>) returns (zones: seq<Zone>)
    ensures zones == prefix + RegularBandsUpTo(19)
  {
    zones := prefix;
    var y := -80;
    ghost var row := 0;
    while y < 72
      invariant 0 <= row <= 19 && y == -80 + 8 * row
      invariant zones == prefix + RegularBandsUpTo(row)
    {
      var band := GenerateBand(y, row);
      Assoc(prefix, RegularBandsUpTo(row), band);
      zones := zones + band;
      y := y + 8;
      row := row + 1;
    }
  }

  /** The loop over the 60 columns of the band starting at latitude `y`, row `row` from the south. */
  method GenerateBand(y: int, ghost row: int) returns (band: seq<Zone>)
    requires y == -80 + 8 * row
    ensures band == RegularBand(row)
  {
    band := [];
    var latChar := GetLatChar(y);
    for x := 0 to 60
      invariant band == RegularBand(row)[..x]
    {
      var lon := (x - 30) * 6;
      var zoneName := CellName(x + 1, latChar);
      var generated := GenerateRegularZones(y, lon, zoneName);
      assert generated == RegularBand(row)[x];
      PrefixStep(RegularBand(row), x);
      band := band + [generated];
    }
    assert RegularBand(row)[..60] == RegularBand(row);
  }

  /** The loop over the 60 columns of band X (72N to 84N), skipping the cells that do not exist. */
  method AppendHighLatitudeZones(prefix: seq<Zone>) returns (zones: seq<Zone>)
    ensures zones == prefix + HighCellsUpTo(60)
  {
    zones := prefix;
    var upperLatChar := GetLatChar(72);
    var upperLatStart := 72;
    for w := 0 to 60
      invariant zones == prefix + HighCellsUpTo(w)
    {
      var lon := (w - 30) * 6;
      var zoneName := CellName(w + 1, upperLatChar);
      var generated := GenerateHighLatitudeZones(upperLatStart, lon, zoneName);
      if generated.None? {
        assert HighCellsUpTo(w + 1) == HighCellsUpTo(w) + [];
        continue;
      }
      Assoc(prefix, HighCellsUpTo(w), [generated.value]);
      zones := zones + [generated.value];
    }
  }

  /** The dictionary a list of zones fills, keyed by name; a later zone replaces an earlier one of the same name. */
  function ZoneMap(zs: seq<Zone>): map<string, Zone>
  {
    if zs == [] then map[]
    else ZoneMap(zs[..|zs| - 1])[zs[|zs| - 1].name := zs[|zs| - 1]]
  }

  /** Filling one more zone into the dictionary. */
  lemma ZoneMapStep(zs: seq<Zone>, i: int)
    requires 0 <= i < |zs|
    ensures ZoneMap(zs[..i + 1]) == ZoneMap(zs[..i])[zs[i].name := zs[i]]
  {
    assert zs[..i + 1][..i] == zs[..i];
  }

  datatype LookupError =
    | KeyNotFound(designator: string)   // the dictionary has no zone of that name
    | OutsideZone(designator: string)   // the zone found does not contain the point

  /** The registry, built once by the constructor and read-only afterwards. */
  class Globe {
    const zones: map<string, Zone>

    /** Fills the registry from `GenerateZones`, one dictionary assignment per zone. */
    constructor ()
      ensures zones == ZoneMap(AllZones())
    {
      var rawZones := GenerateZones();
      var registry: map<string, Zone> := map[];
      for i := 0 to |rawZones|
        invariant registry == ZoneMap(rawZones[..i])
      {
        ZoneMapStep(rawZones, i);
        registry := registry[rawZones[i].name := rawZones[i]];
      }
      assert rawZones[..|rawZones|] == rawZones;
      zones := registry;
    }

    /**
     * `ZoneForPoint`: the zone named by the designator, re-checked to contain
     * the point; a missing name or a failed re-check is an error.
     */
    function ZoneForPoint(lat: real, lon: real): (r: Result<Zone, LookupError>)
      ensures r.Ok? ==> r.value.Contains(lat, lon)
      ensures r.Ok? <==> ZoneDesignatorForPoint(lat, lon) in zones
                         && zones[ZoneDesignatorForPoint(lat, lon)].Contains(lat, lon)
      ensures r.Ok? ==> r.value == zones[ZoneDesignatorForPoint(lat, lon)]
    {
      var designator := ZoneDesignatorForPoint(lat, lon);
      if designator !in zones then Err(KeyNotFound(designator))
      else
        var zone := zones[designator];
        if !zone.Contains(lat, lon) then Err(OutsideZone(designator))
        else Ok(zone)
    }

    /**
     * Corrected lookup: the re-check uses the wrapped and clamped point the
     * designator was computed from, so 180E resolves like 180W.
     */
    function ZoneForNormalizedPoint(lat: real, lon: real): (r: Result<Zone, LookupError>)
      ensures r.Ok? ==> r.value.Contains(ClampLat(lat), WrapLon(lon))
      ensures r.Ok? <==> ZoneDesignatorForPoint(lat, lon) in zones
                         && zones[ZoneDesignatorForPoint(lat, lon)].Contains(ClampLat(lat), WrapLon(lon))
      ensures r.Ok? ==> r.value == zones[ZoneDesignatorForPoint(lat, lon)]
    {
      var designator := ZoneDesignatorForPoint(lat, lon);
      if designator !in zones then Err(KeyNotFound(designator))
      else
        var zone := zones[designator];
        if !zone.Contains(ClampLat(lat), WrapLon(lon)) then Err(OutsideZone(designator))
        else Ok(zone)
    }
  }
}
