# sharpUTM zone grid and MGRS codec, in Dafny

This project models the integer and string logic of the sharpUTM library.
It covers three parts of the library:

- **`UTMZone`**: one cell of the UTM grid. It is a rectangle in degrees with
  half-open containment and a central meridian.
- **`UTMGlobe`**:
  - the registry of all 1201 zones: 2 south caps, 19 × 60 regular cells with
    the Norwegian 31V/32V exception, 57 cells of band X with the Svalbard
    widths and the gaps 32X/34X/36X, and 2 north caps;
  - the dictionary the constructor fills from that list;
  - the arithmetic that turns a latitude/longitude into a zone name;
  - the lookup that re-checks that the named zone contains the point.
- **`MGRSCoord`**: the MGRS coordinate. This covers the clamping `Precision`
  setter, precision inference from trailing zeros, zero padding, the
  constructor, the processing of the pattern's captures in `TryParse`,
  `Equals` and `ToString`.

The main theorem is `GlobeRegistry.DesignatorMatchesZone`. Every point inside
a registered zone is designated by that zone's name. The library's own tests
check this on a 1-degree lattice. Here it is proved for every real point.

The parts of the code that change state keep their imperative form:

- `GenerateZones` is a method with the source's nested loops. It is split into
  one method per loop.
- The `UTMGlobe` constructor fills a map in a loop.
- `MGRSCoord` is a class whose setter, constructor and `TryParse` assign its
  fields.

Each of these is proved equal to a specification function: `AllZones`,
`ZoneMap`, `Construct` and `Parse`/`Decode`. The properties are then proved
about those functions.

Module layout:

| file | module | contents |
|---|---|---|
| wrappers.dfy | Wrappers | `Option`, `Result` |
| seqs.dfy | Seqs | generic sequence regrouping lemmas |
| text.dfy | Text | decimal rendering ("D<n>"), `PadLeft`/`PadRight`, digit parsing, ASCII `ToUpper` |
| zone.dfy | UtmZone | the `Zone` datatype and its constructors |
| globe.dfy | UtmGlobe | band letters, the designator, the generators, `GenerateZones`, class `Globe` |
| globe_cells.dfy | GlobeCells | shapes and names of single cells, the designator inside each cell |
| globe_registry.dfy | GlobeRegistry | membership, count, distinct names and extent of the registry |
| globe_lookup.dfy | GlobeLookup | the filled dictionary and what `ZoneForPoint` accepts |
| mgrs_syntax.dfy | MgrsSyntax | an anchored tokenizer for the MGRS pattern |
| mgrs.dfy | Mgrs | the `Coord` value, class `MgrsCoord`, precision, padding, decoding, `Equals`, `ToString` |
| mgrs_laws.dfy | MgrsLaws | precision uniqueness, what `TryParse` stores, the `ToString`/`TryParse` round trip |
| mgrs_tostring.dfy | MgrsToString | the source's `ToString` against the padded one |
| mgrs_examples.dfy | MgrsExamples | the library's MGRS test cases |

## Model

| member | source | states |
|---|---|---|
| UtmZone.Zone.Contains | sharpUTM/UTMZone.cs:32-38 | half-open containment: lat in [Bottom, Top) and lon in [Left, Right); stated in terms of the construction by `ContainsMake` |
| UtmZone.Zone.Width | sharpUTM/UTMZone.cs:27 | Right - Left |
| UtmZone.Zone.Height | sharpUTM/UTMZone.cs:28 | Top - Bottom |
| UtmZone.Zone.IsRegular | sharpUTM/UTMZone.cs:30 | a 6 by 8 degree extent, whatever the cell was built by |
| UtmZone.Zone.SetName | sharpUTM/UTMZone.cs:51-55 | the cell with its name replaced; properties in `SetNameKeepsShape` |
| UtmZone.Make | sharpUTM/UTMZone.cs:40-49 | the private constructor: bounds grown north and east from the corner, meridian at the midpoint; properties in `MakeShape` |
| UtmZone.Regular | sharpUTM/UTMZone.cs:57-60 | the private constructor at 6 by 8 degrees; properties in `RegularShape` |
| UtmZone.Irregular | sharpUTM/UTMZone.cs:62-65 | the private constructor with the meridian overwritten; properties in `IrregularShape` |
| UtmZone.SetNameKeepsShape | sharpUTM/UTMZone.cs:51-55 | renaming changes the name only; bounds and meridian are kept |
| UtmZone.MakeShape | sharpUTM/UTMZone.cs:40-49 | the private constructor starts at the south-west corner; Width and Height equal the arguments; the meridian is the midpoint of Left and Right |
| UtmZone.RegularShape | sharpUTM/UTMZone.cs:57-60 | a regular cell is 6 by 8 degrees, counts as IsRegular, and has its meridian 3 degrees east of its west edge |
| UtmZone.IrregularShape | sharpUTM/UTMZone.cs:62-65 | an irregular cell has the constructor's bounds, with the meridian replaced by the given one |
| UtmZone.ContainsMake | sharpUTM/UTMZone.cs:32-38 | Contains holds exactly when Bottom <= lat < Top and Left <= lon < Right |
| UtmZone.AdjacentDisjoint | sharpUTM/UTMZone.cs:32-38 | two cells sharing an edge share no point (half-open bounds) |
| UtmZone.ContainsFloors | sharpUTM/UTMZone.cs:32-38 | a contained point's floors lie within the bounds |
| UtmZone.IrregularOfStandardExtent | sharpUTM/UTMZone.cs:30 | IsRegular depends on the extent only: an irregular 6 by 8 cell is regular |
| UtmGlobe.GetLatChar | sharpUTM/UTMGlobe.cs:158-174 | 'A' below 80S, 'Z' from 84N, 'X' from 72N; otherwise the band letter of "CDEFGHJKLMNPQRSTUVWX" at (lat+80)/8; never I or O |
| UtmGlobe.WrapLon | sharpUTM/UTMGlobe.cs:46 | longitudes from 180 on shifted west by 360, then clamped to [-180, 180] |
| UtmGlobe.ClampLat | sharpUTM/UTMGlobe.cs:47 | latitude clamped to [-90, 90] |
| UtmGlobe.LonIndex | sharpUTM/UTMGlobe.cs:50-73 | floor(lon / 6) + 31, except bands V (31 below 3E, 32 up to 12E) and X (31, 33, 35, 37 on the Svalbard spans); range in `LonIndexRange` |
| UtmGlobe.CellName | sharpUTM/UTMGlobe.cs:82 | the zone number formatted "d2", then the band letter; injective by `CellNameInjective` |
| UtmGlobe.ZoneDesignatorForPoint | sharpUTM/UTMGlobe.cs:43-84 | wrap and clamp, take the band letter of the floored latitude, then A/B south of 80S and Y/Z from 84N by the sign of the longitude, else the cell name; its partner is the registry, by `DesignatorMatchesZone` |
| UtmGlobe.GenerateRegularZones | sharpUTM/UTMGlobe.cs:176-186 | a regular cell, except 31V (3 wide, meridian 3) and 32V (from lon - 3, 9 wide, meridian 9), named as given; shapes in `RegularCellShape` |
| UtmGlobe.GenerateHighLatitudeZones | sharpUTM/UTMGlobe.cs:188-201 | no cell for 32X, 34X, 36X; fixed cells for 31X, 33X, 35X, 37X; otherwise 6 by 12 degrees with the meridian 3 east; facts in `HighCellGaps` and `HighCellShape` |
| UtmGlobe.RegularCell | sharpUTM/UTMGlobe.cs:119-124 | the generator's cell at band `row`, column `x` |
| UtmGlobe.HighCell | sharpUTM/UTMGlobe.cs:134-139 | the generator's band-X result at column `w` |
| UtmGlobe.AllZones | sharpUTM/UTMGlobe.cs:101-151 | the list GenerateZones returns, as a value: caps A, B, the 19 bands, the kept band-X cells, caps Y, Z |
| UtmGlobe.ZoneMap | sharpUTM/UTMGlobe.cs:95-98 | the dictionary the constructor's loop fills, a later zone replacing one of the same name; facts in `ZoneMapKeys`, `ZoneMapValues`, `ZoneMapLookup`, `ZoneMapSize` |
| UtmGlobe.PolarCapsAsBuilt | sharpUTM/UTMGlobe.cs:105-108 | the four caps are the irregular cells the generator builds and names A, B, Y, Z |
| UtmGlobe.GenerateZones | sharpUTM/UTMGlobe.cs:101-151 | the list is south caps, the 19 regular bands, the kept band-X cells, north caps, in that order |
| UtmGlobe.AppendRegularZones | sharpUTM/UTMGlobe.cs:115-128 | the outer loop over latitudes 80S..72N appends the 19 bands in order |
| UtmGlobe.GenerateBand | sharpUTM/UTMGlobe.cs:117-127 | the inner loop yields the 60 cells of one band, west to east |
| UtmGlobe.AppendHighLatitudeZones | sharpUTM/UTMGlobe.cs:130-144 | the band-X loop appends each existing column's cell and skips the missing ones |
| UtmGlobe.ZoneMapStep | sharpUTM/UTMGlobe.cs:95-98 | one loop step of the constructor files one more zone under its name |
| UtmGlobe.Globe.constructor | sharpUTM/UTMGlobe.cs:89-99 | the dictionary is the one filled from the generated list by name, later zones replacing earlier ones |
| UtmGlobe.Globe.ZoneForPoint | sharpUTM/UTMGlobe.cs:23-35 | success iff the designated name is a key and its zone contains the raw point; a success returns that zone |
| UtmGlobe.Globe.ZoneForNormalizedPoint | sharpUTM/UTMGlobe.cs:23-35 | the corrected lookup: the same, but re-checked at the wrapped and clamped point |
| GlobeCells.CellNameInjective | sharpUTM/UTMGlobe.cs:82 | "d2" zone names of numbers below 100 agree exactly when number and letter agree |
| GlobeCells.BandLettersDistinct | sharpUTM/UTMGlobe.cs:163-172 | the band letters are capitals in strictly increasing order |
| GlobeCells.LatCharOfRow | sharpUTM/UTMGlobe.cs:115-117 | row k of the regular loop, at latitude -80 + 8k, gets the k-th band letter |
| GlobeCells.RegularCellShape | sharpUTM/UTMGlobe.cs:176-186 | cell (row, x) is 8 degrees tall from 80S + 8·row and named "x+1, band letter"; it is 6 wide from (x-30)·6, except 31V at 0..3E (meridian 3) and 32V at 3..12E (meridian 9) |
| GlobeCells.HighCellGaps | sharpUTM/UTMGlobe.cs:192 | a band-X column has no cell exactly for 32X, 34X and 36X |
| GlobeCells.HighCellShape | sharpUTM/UTMGlobe.cs:188-201 | band-X cells are 72N..84N; 31X at 0..9E, 33X at 9..21E, 35X at 21..33E, 37X at 33..42E; all others 6 wide with the meridian at the middle |
| GlobeCells.DesignatorInRegularCell | sharpUTM/UTMGlobe.cs:43-84 | every point of a regular cell is designated by its name |
| GlobeCells.DesignatorInHighCell | sharpUTM/UTMGlobe.cs:43-84 | every point of a band-X cell is designated by its name |
| GlobeCells.DesignatorInPolarCap | sharpUTM/UTMGlobe.cs:77-83 | every point of a cap is designated by its letter |
| GlobeCells.LatCharConstantOnBand | sharpUTM/UTMGlobe.cs:161-172 | below 72N the band letter is constant on each 8-degree band |
| GlobeCells.PolarNaming | sharpUTM/UTMGlobe.cs:77-83 | south of 80S: A for negative wrapped longitude, else B; from 84N: Y, else Z |
| GlobeCells.EdgePoints | sharpUTM/UTMGlobe.cs:46-47 | (0, -180) and (0, 180) give "01N"; (-90, 0) gives "B"; (90, 0) gives "Z" |
| GlobeCells.LonIndexRange | sharpUTM/UTMGlobe.cs:56-73 | the zone number of a longitude of -180..180 is 1..61 |
| GlobeCells.DesignatorNeverGap | sharpUTM/UTMGlobe.cs:64-71 | no point is ever designated 32X, 34X or 36X |
| GlobeRegistry.AllZonesMember | sharpUTM/UTMGlobe.cs:101-151 | every listed zone is a cap, a regular cell or an existing band-X cell |
| GlobeRegistry.AllZonesContains | sharpUTM/UTMGlobe.cs:115-144 | every regular cell and every existing band-X cell is listed |
| GlobeRegistry.RegularAt | sharpUTM/UTMGlobe.cs:115-128 | cell (row, x) is at position 60·row + x of the regular part |
| GlobeRegistry.DesignatorMatchesZone | sharpUTM/UTMGlobe.cs:43-84 | every point inside a registered zone is designated by that zone's name |
| GlobeRegistry.AllZonesCount | sharpUTM/UTMGlobe.cs:101-151 | the list has 1201 zones |
| GlobeRegistry.AllZonesDistinct | sharpUTM/UTMGlobe.cs:101-151 | the 1201 names are pairwise different |
| GlobeRegistry.ZoneWithinMap | sharpUTM/UTMGlobe.cs:101-201 | every zone lies within 90S..90N and 180W..180E |
| GlobeRegistry.NoGapZones | sharpUTM/UTMGlobe.cs:192 | no zone is named 32X, 34X or 36X |
| GlobeLookup.ZoneMapKeys | sharpUTM/UTMGlobe.cs:95-98 | a name is a key iff some listed zone carries it |
| GlobeLookup.ZoneMapValues | sharpUTM/UTMGlobe.cs:95-98 | every value is a listed zone filed under its own name |
| GlobeLookup.ZoneMapLookup | sharpUTM/UTMGlobe.cs:95-98 | with distinct names every listed zone is found under its name |
| GlobeLookup.ZoneMapSize | sharpUTM/UTMGlobe.cs:95-98 | with distinct names the dictionary has one entry per listed zone |
| GlobeLookup.RegistryLookup | sharpUTM/UTMGlobe.cs:89-99 | the built dictionary finds every registered zone under its name |
| GlobeLookup.RegistrySize | sharpUTM/UTMGlobe.cs:89-99 | the built dictionary holds 1201 zones |
| GlobeLookup.LookupInsideZone | sharpUTM/UTMGlobe.cs:23-35 | a point inside a registered zone is looked up to that zone; the exception is never thrown there |
| GlobeLookup.ZonesDisjoint | sharpUTM/UTMGlobe.cs:101-201 | two registered zones sharing a point are the same zone |
| GlobeLookup.CoveringZone | sharpUTM/UTMGlobe.cs:101-201 | every point of [-90, 90) × [-180, 180) is in some registered zone |
| GlobeLookup.LookupSucceedsExactlyOnMap | sharpUTM/UTMGlobe.cs:23-35 | ZoneForPoint succeeds iff -90 <= lat < 90 and -180 <= lon < 180 |
| GlobeLookup.LookupFailsAtAntimeridian | sharpUTM/UTMGlobe.cs:23-35 | at (0, 180) the designator names 01N but the re-check fails |
| GlobeLookup.LookupFailsAtNorthPole | sharpUTM/UTMGlobe.cs:23-35 | at (90, 0) the designator names Z but the re-check fails |
| GlobeLookup.NormalizedLookupSucceeds | sharpUTM/UTMGlobe.cs:23-35 | the corrected lookup succeeds iff lat < 90 and lon < 540 |
| GlobeLookup.GapsAbsent | sharpUTM/UTMGlobe.cs:192 | "32X", "34X" and "36X" are not keys, so looking them up fails |
| GlobeLookup.NorwayZones | sharpUTM/UTMGlobe.cs:180-181 | 31V has Left 0 and width 3; 32V has Left 3, width 9 and meridian 9 |
| GlobeLookup.NorwayZone | sharpUTM/UTMGlobe.cs:176-186 | each band-V cell is filed under its name with the generator's extent |
| GlobeLookup.SvalbardZones | sharpUTM/UTMGlobe.cs:193-197 | 31X and 37X are 9 wide, 33X and 35X are 12 wide, 38X starts at 42E |
| GlobeLookup.SvalbardZone | sharpUTM/UTMGlobe.cs:188-201 | each existing band-X cell is filed under its name with the generator's extent |
| Mgrs.ClampPrecision | sharpUTM/MGRS/MGRSCoord.cs:25-33 | the stored precision is the value when it is 1..5, 5 above and 1 below |
| Mgrs.MgrsCoord.SetPrecision | sharpUTM/MGRS/MGRSCoord.cs:28-31 | the setter stores the clamped value and changes no other field |
| Mgrs.AssumePrecision | sharpUTM/MGRS/MGRSCoord.cs:88-109 | within 1..place; when both values fit the starting place, both fit the result, and below the result one does not |
| Mgrs.PadZeros | sharpUTM/MGRS/MGRSCoord.cs:116-120 | a value of d < 5 digits is multiplied by 10^(5-d); a negative one loses a place to the sign |
| Mgrs.PadZerosNatural | sharpUTM/MGRS/MGRSCoord.cs:118-119 | the rendering of a non-negative value, right-padded with '0' to 5 characters, parses to the value times 10^(5-d) |
| Mgrs.PadZerosNegative | sharpUTM/MGRS/MGRSCoord.cs:118-119 | a negative value's rendering is padded after the sign and parses to the value times 10^(4-d) |
| Mgrs.MgrsCoord.constructor | sharpUTM/MGRS/MGRSCoord.cs:54-77 | the new state is Construct of the arguments |
| Mgrs.Construct | sharpUTM/MGRS/MGRSCoord.cs:54-77 | grid upper-cased; zone upper-cased when given, else empty; values as given or padded; precision inferred from the stored values |
| Mgrs.MgrsCoord.TryParse | sharpUTM/MGRS/MGRSCoord.cs:128-199 | result and new state are Parse of the string and the old state |
| Mgrs.MgrsCoord.ApplyMatch | sharpUTM/MGRS/MGRSCoord.cs:136-198 | result and new state are Decode of the captures and the old state |
| Mgrs.SplitBlocks | sharpUTM/MGRS/MGRSCoord.cs:140-174 | one block splits iff its length is even and at least 2, into equal halves that concatenate to it; two blocks pass iff their lengths agree, and are cut to their first 5 digits |
| MgrsSyntax.Tokenize | sharpUTM/MGRS/MGRSCoord.cs:17 | the captures of the whole string: with a zone when that reading succeeds, otherwise without; shape in `TokenizeShape`, inverse of `Layout` in `TokenizeLayout` |
| MgrsSyntax.GridAndDigits | sharpUTM/MGRS/MGRSCoord.cs:17 | two letters, an optional space, one or two digit blocks of up to 10 digits each followed by an optional space, to the end |
| MgrsSyntax.ZonedReading | sharpUTM/MGRS/MGRSCoord.cs:17 | up to two digits and a letter as the zone, then an optional space and grid and digits |
| Mgrs.Decode | sharpUTM/MGRS/MGRSCoord.cs:136-198 | the processing of the captures as a function of the prior state; meaning in `DecodeMeaning` |
| Mgrs.Parse | sharpUTM/MGRS/MGRSCoord.cs:128-199 | TryParse as a function of the string and the prior state; meaning in `ParseMeaning`, inverse of `ToString` in `RoundTrip` |
| Mgrs.Equals | sharpUTM/MGRS/MGRSCoord.cs:222-232 | false for null, else zone, grid, easting and northing agree; characterised by `EqualsIgnoresPrecision` |
| Mgrs.AxisAsWritten | sharpUTM/MGRS/MGRSCoord.cs:236-239 | an axis formatted "D<precision>" and cut to `precision` characters |
| Mgrs.Axis | sharpUTM/MGRS/MGRSCoord.cs:236-239 | the corrected axis: formatted "D5", then cut to `precision` characters |
| Mgrs.Layout | sharpUTM/MGRS/MGRSCoord.cs:241 | "[zone ]grid c1 c2", the zone and its space only when the zone is not empty |
| Mgrs.ToStringAsWritten | sharpUTM/MGRS/MGRSCoord.cs:234-242 | ToString as the source writes it; against the padded form in `AsWrittenAgreesOnFiveDigits` and `AsWrittenMisreads` |
| Mgrs.ToString | sharpUTM/MGRS/MGRSCoord.cs:234-242 | the corrected ToString, with each axis padded to five digits; inverted by TryParse in `RoundTrip` |
| MgrsSyntax.DigitRun | sharpUTM/MGRS/MGRSCoord.cs:17 | a digit block is the longest run of digits, at most the bound |
| Text.ParseDigits | sharpUTM/MGRS/MGRSCoord.cs:183-184 | int.TryParse on the padded block succeeds iff it is a non-empty ASCII digit string, with a value below 10^length |
| MgrsLaws.AssumePrecisionExact | sharpUTM/MGRS/MGRSCoord.cs:88-109 | the inferred precision is p iff both values end in 5-p zeros and, for p > 1, not both in 6-p zeros |
| MgrsLaws.AssumePrecisionExamples | sharpUTM/MGRS/MGRSCoord.cs:91-96 | (12340, 12300) gives 4, (0, 0) gives 1, (12345, 0) and (1, 1) give 5, (10000, 20000) gives 1 |
| MgrsLaws.FitsFiner | sharpUTM/MGRS/MGRSCoord.cs:99-108 | a value that fits a coarse precision fits every finer one |
| MgrsLaws.TokenizeShape | sharpUTM/MGRS/MGRSCoord.cs:17 | every accepted string yields a two-letter grid, an optional zone of up to two digits and a letter, and digit blocks of 1..10 |
| MgrsLaws.TokenizeLayout | sharpUTM/MGRS/MGRSCoord.cs:17 | "[zone ]grid d1 d2" reads back as that zone, grid and the two blocks |
| MgrsLaws.DecodeMeaning | sharpUTM/MGRS/MGRSCoord.cs:136-198 | success iff the blocks split; on failure the state is unchanged; on success: precision is the digit count, the axes are the digits followed by zeros up to metres (below 100000), the grid is upper-cased, and the zone is replaced only when one was captured |
| MgrsLaws.ParseMeaning | sharpUTM/MGRS/MGRSCoord.cs:128-199 | for the whole string: success iff it tokenizes and its blocks split; failure leaves the state; success stores the digit count as precision, each axis as its digits followed by zeros up to metres (below 100000, ending in the zeros the precision implies), the upper-cased grid, and the upper-cased zone only when one was captured |
| MgrsLaws.ParseTwoBlocks | sharpUTM/MGRS/MGRSCoord.cs:156-198 | two equal blocks of 1..5 digits are read as the digits followed by zeros |
| MgrsLaws.ParseOneBlock | sharpUTM/MGRS/MGRSCoord.cs:140-198 | an even block, with or without a space after the grid, is split in half and each half is read as digits followed by zeros |
| MgrsLaws.ReadsPadded | sharpUTM/MGRS/MGRSCoord.cs:179-184 | a block of 1..5 digits padded to 5 reads as its value times 10^(5-length) |
| MgrsLaws.RoundTrip | sharpUTM/MGRS/MGRSCoord.cs:234-242 | TryParse of the padded ToString gives back the coordinate, keeping the prior zone when none is written |
| MgrsLaws.ConstructRoundTrip | sharpUTM/MGRS/MGRSCoord.cs:54-77 | a coordinate built from metres in range writes a string that parses back to it |
| MgrsLaws.EqualsIgnoresPrecision | sharpUTM/MGRS/MGRSCoord.cs:222-232 | Equals is equality of zone, grid, easting and northing; null is never equal |
| MgrsLaws.EqualsEquivalence | sharpUTM/MGRS/MGRSCoord.cs:222-232 | Equals is reflexive, symmetric and transitive |
| MgrsToString.AsWrittenAgreesOnFiveDigits | sharpUTM/MGRS/MGRSCoord.cs:236-239 | for five-digit axis values the source's ToString equals the padded one |
| MgrsToString.AxisAsWrittenShape | sharpUTM/MGRS/MGRSCoord.cs:236-239 | the source's axis string has exactly `precision` digits; for a value below 10^precision it is the value itself |
| MgrsToString.AsWrittenReads | sharpUTM/MGRS/MGRSCoord.cs:234-242 | TryParse of the source's output brings a northing below 10^precision back multiplied by 10^(5-precision) |
| MgrsToString.AsWrittenMisreads | sharpUTM/MGRS/MGRSCoord.cs:234-242 | for a positive such northing at precision below 5 the round trip changes the northing |
| MgrsToString.ExampleAsWritten | sharpUTM/MGRS/MGRSCoord.cs:234-242 | ("", QK, 4, 45270, 7450) is written "QK 4527 7450" |
| MgrsToString.ExamplePadded | sharpUTM/MGRS/MGRSCoord.cs:234-242 | the padded ToString writes it "QK 4527 0745" |
| MgrsToString.ExampleMisread | sharpUTMTests/MGRSTests.cs:15 | reading back the source's output gives northing 74500; the padded output reads back as the coordinate |
| MgrsExamples.ParsesQK | sharpUTMTests/MGRSTests.cs:15 | "QK 4527 0745" parses to the coordinate built from ("QK", 45270, 7450) |
| MgrsExamples.Parses48T | sharpUTMTests/MGRSTests.cs:16 | "48T CQ 18749 17382" parses to ("CQ", 18749, 17382, "48T") |
| MgrsExamples.Parses01P | sharpUTMTests/MGRSTests.cs:19 | "01P FF 1234512345" splits into 12345 and 12345 |
| MgrsExamples.Parses60X | sharpUTMTests/MGRSTests.cs:20 | "60X FF 12341234" reads 12340 and 12340 at precision 4 |
| MgrsExamples.RejectsSingleLetter | sharpUTMTests/MGRSTests.cs:23 | "q" is rejected and the coordinate is unchanged |
| MgrsExamples.ParsesLowerCase | sharpUTMTests/MGRSTests.cs:24 | "aa 1212" parses to grid AA with 12000 and 12000 |
| MgrsExamples.ParsesWithoutSpace | sharpUTMTests/MGRSTests.cs:25 | "ab1212" parses to the coordinate built from ("Ab", 12000, 12000) |
| MgrsExamples.RejectsOddBlock | sharpUTM/MGRS/MGRSCoord.cs:146-148 | "af121" has an odd digit block and is rejected, leaving the coordinate unchanged |
| MgrsExamples.PadsTwelve | sharpUTM/MGRS/MGRSCoord.cs:69-73 | a value given unpadded as 12 becomes 12000 |
| MgrsExamples.ConstructsTwelveP | sharpUTMTests/MGRSTests.cs:56 | ("AF", 12340, 12340, "12P") gets precision 4 |
| MgrsExamples.FormatsTwelveP | sharpUTMTests/MGRSTests.cs:56-62 | that coordinate is written "12P AF 1234 1234", both by the source's ToString and by the padded one |

## Left out

- The projection in `UTMCoord.cs` is left out, along with the helpers in `Trig.cs`. It is floating-point trigonometry. `UTMCoord.cs` and `Trig.cs` are not part of this model.
- The MGRS stubs `FromLatLon`, `FromUTM`, `ToLatLon` and `ToUTM` (sharpUTM/MGRS/MGRSCoord.cs:201-220) are left out. They return fixed zeros or empty squares, and the repository has no grid-square lettering for them to model.
- The static `UTMGlobe.Reference` and the projection constants `ScaleFactor` and `EarthRadius` are left out. Only the projection uses them.
- The regular-expression engine is replaced by an anchored tokenizer, `MgrsSyntax.Tokenize`:
  - It reads the whole string with the greedy choices the pattern makes.
  - The source's `IsMatch` is unanchored. It also accepts strings that merely contain a coordinate, with text before or after it. The model rejects those.
  - Letters are ASCII letters and digits are ASCII digits. The pattern's Unicode `\p{L}` and `\d` classes are not modelled.
  - There is no backtracking between ambiguous zone/grid readings beyond the one choice `Tokenize` makes.
- `Mgrs.Construct` and `Mgrs.MgrsCoord.constructor` upper-case only the ASCII letters of the grid and zone (`Text.Upper`). .NET's culture-sensitive `ToUpper` also upper-cases other letters, so "é" becomes "É" there but stays "é" here.
- `float` latitudes, longitudes and zone bounds are modelled as exact `real`s and whole-degree `int`s. Rounding of `float` arithmetic is not modelled.
- `int` is unbounded. No 32-bit overflow is modelled in `AssumePrecision`, `PadZeros` or `int.Parse`. `int.Parse`/`int.TryParse` accept only an optional minus sign and ASCII digits, with no white space, plus sign or culture settings.
- `Dictionary<string, UTMZone>` is a `map`. Its enumeration order is not modelled. `GenerateZones` returns a sequence, so the order of the list is modelled.
- `UTMZone.SetName` mutates the zone it is called on and returns that same object. Here it returns a renamed copy. No other reference to the unnamed zone exists in the source, so no aliasing is lost.
- `ZoneForPoint` throws `KeyNotFoundException` or `ArgumentException`. Here these become the `Err` cases `KeyNotFound` and `OutsideZone` of a `Result`. The message text is not modelled.
- `UtmGlobe.GenerateZones`: the source's single method with nested loops is modelled as `GenerateZones` calling `AppendRegularZones` (the outer latitude loop), `GenerateBand` (the inner longitude loop) and `AppendHighLatitudeZones`. The steps and their order are unchanged.
- `Mgrs.ToString`: `ToString` and `Equals` are modelled on the `Coord` value that `MgrsCoord.Value()` returns, not as methods of the class.
- `UtmGlobe.Globe.ZoneForNormalizedPoint` still fails at latitude 90. The north cap's top edge is open, and the source gives no evidence of which edge the pole should belong to, so no correction is claimed for it. `GlobeLookup.LookupFailsAtNorthPole` records the behaviour.
- `UtmGlobe.WrapLon` follows the code rather than the documented range (-180, 180]. The longitude 180 is shifted to -180, while longitudes of 540 and above are clamped to 180. So the designator sees [-180, 180). It sees 180 itself only for inputs from 540 on.
- `Mgrs.MgrsCoord.ApplyMatch` models the partial update the source makes when a padded block fails to parse: the precision has already been assigned. With the tokenizer's ASCII digits that failure cannot happen: `MgrsLaws.DecodeMeaning` proves that a failure leaves the state unchanged. The Unicode-digit case that reaches it in the source is not modelled.

## Findings

| source | as written | input that shows it | evidently intended | confidence | as-written member | corrected member |
|---|---|---|---|---|---|---|
| sharpUTM/UTMGlobe.cs:23-35 | `ZoneForPoint` designates the wrapped and clamped point but re-checks containment on the raw point | (lat 0, lon 180): designated "01N", whose east edge is 174W, so the "should never happen" exception is thrown | the lookup accepts every point the designator handles, by re-checking the normalised point | not executed | GlobeLookup.LookupFailsAtAntimeridian | GlobeLookup.NormalizedLookupSucceeds |
| sharpUTM/MGRS/MGRSCoord.cs:234-242 | each axis is formatted "D<precision>" and cut to `precision` characters, so at precisions below 5 a nonzero value below 10000 loses the leading zeros of its five-digit form (at precision 5 "D5" pads, and both forms agree) | the test sample ("QK", 45270, 7450) at precision 4 is written "QK 4527 7450", which parses back with northing 74500 | pad each axis to five digits, then keep the first `precision` ("QK 4527 0745"), so that TryParse reads back what ToString writes | not executed | MgrsToString.AsWrittenMisreads | MgrsLaws.RoundTrip |

The as-written `ToString` is `Mgrs.ToStringAsWritten`. The corrected one is
`Mgrs.ToString`, and the round-trip lemmas use it. The as-written lookup is
`UtmGlobe.Globe.ZoneForPoint`, characterised in full by
`GlobeLookup.LookupSucceedsExactlyOnMap`. The corrected lookup is
`UtmGlobe.Globe.ZoneForNormalizedPoint`.
