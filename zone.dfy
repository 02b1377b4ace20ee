/**
 * One UTM cell: a rectangle in degrees with half-open bounds and the central
 * meridian used by the projection. The repository declares the bounds `float`
 * but only ever builds cells on whole degrees, so they are integers here;
 * points are arbitrary reals.
 */
module UtmZone {

  datatype Zone = Zone(
    name: string,
    left: int,       // western edge, degrees longitude
    right: int,      // eastern edge, degrees longitude
    bottom: int,     // southern edge, degrees latitude
    top: int,        // northern edge, degrees latitude
    meridian: real)  // central meridian, degrees longitude
  {
    function Width(): int { right - left }

    function Height(): int { top - bottom }

    /** A standard 6-by-8 degree cell; decided by the extent alone, not by how the cell was built. */
    predicate IsRegular() { Width() == 6 && Height() == 8 }

    /** Half-open containment: the south and west edges belong to the cell, the north and east edges do not. */
    predicate Contains(lat: real, lon: real)
    {
      var inLat := lat < top as real && lat >= bottom as real;
      var inLon := lon < right as real && lon >= left as real;
      inLat && inLon
    }

    /** Renames the cell; every bound and the meridian stay as they are. */
    function SetName(newName: string): Zone
    {
      this.(name := newName)
    }
  }

  /** The private constructor: a cell growing north and east from its south-west corner, meridian at the midpoint. */
  function Make(startLat: int, startLon: int, width: int, height: int): Zone
  {
    Zone("", startLon, startLon + width, startLat, startLat + height, (startLon + (startLon + width)) as real / 2.0)
  }

  /** A 6-by-8 degree cell with its meridian at the midpoint. */
  function Regular(startLat: int, startLon: int): Zone
  {
    Make(startLat, startLon, 6, 8)
  }

  /** A cell of any extent whose meridian is given rather than derived. */
  function Irregular(startLat: int, startLon: int, width: int, height: int, meridian: real): Zone
  {
    Zone("", startLon, startLon + width, startLat, startLat + height, meridian)
  }

  // ---------------------------------------------------------------- lemmas
  // The constructors carry no postconditions of their own: the facts below are
  // stated as lemmas so that the registry's hundreds of concrete cells do not
  // each drag them into every proof.

  /** Renaming keeps the extent and the meridian. */
  lemma SetNameKeepsShape(z: Zone, newName: string)
    ensures z.SetName(newName).name == newName
    ensures z.SetName(newName).left == z.left && z.SetName(newName).right == z.right
    ensures z.SetName(newName).bottom == z.bottom && z.SetName(newName).top == z.top
    ensures z.SetName(newName).meridian == z.meridian
  {
  }

  /** The private constructor grows the cell from its south-west corner and centres the meridian. */
  lemma MakeShape(startLat: int, startLon: int, width: int, height: int)
    ensures Make(startLat, startLon, width, height).bottom == startLat
    ensures Make(startLat, startLon, width, height).left == startLon
    ensures Make(startLat, startLon, width, height).Width() == width
    ensures Make(startLat, startLon, width, height).Height() == height
    ensures 2.0 * Make(startLat, startLon, width, height).meridian
         == (Make(startLat, startLon, width, height).left + Make(startLat, startLon, width, height).right) as real
    ensures Make(startLat, startLon, width, height).name == ""
  {
  }

  /** A regular cell is 6 by 8 degrees with its meridian 3 degrees east of its western edge. */
  lemma RegularShape(startLat: int, startLon: int)
    ensures Regular(startLat, startLon).bottom == startLat && Regular(startLat, startLon).left == startLon
    ensures Regular(startLat, startLon).IsRegular()
    ensures Regular(startLat, startLon).meridian == (startLon + 3) as real
    ensures Regular(startLat, startLon).name == ""
  {
  }

  /** An irregular cell is the private constructor's cell with the meridian overwritten. */
  lemma IrregularShape(startLat: int, startLon: int, width: int, height: int, meridian: real)
    ensures Irregular(startLat, startLon, width, height, meridian)
         == Make(startLat, startLon, width, height).(meridian := meridian)
    ensures Irregular(startLat, startLon, width, height, meridian).Width() == width
    ensures Irregular(startLat, startLon, width, height, meridian).Height() == height
    ensures Irregular(startLat, startLon, width, height, meridian).meridian == meridian
  {
  }

  /** Containment in terms of the construction parameters. */
  lemma ContainsMake(startLat: int, startLon: int, width: int, height: int, lat: real, lon: real)
    ensures Make(startLat, startLon, width, height).Contains(lat, lon)
        <==> (startLat as real <= lat < (startLat + height) as real
              && startLon as real <= lon < (startLon + width) as real)
  {
  }

  /** Cells that share an edge never share a point: the half-open bounds give the shared edge to one side only. */
  lemma AdjacentDisjoint(a: Zone, b: Zone, lat: real, lon: real)
    requires a.right == b.left || a.top == b.bottom
    ensures !(a.Contains(lat, lon) && b.Contains(lat, lon))
  {
  }

  /** A point of a cell lies in its cell-degree lattice: its floors are within the bounds. */
  lemma ContainsFloors(z: Zone, lat: real, lon: real)
    requires z.Contains(lat, lon)
    ensures z.bottom <= lat.Floor < z.top
    ensures z.left <= lon.Floor < z.right
  {
  }

  /** Irregular cells count as regular when their extent happens to be 6 by 8. */
  lemma IrregularOfStandardExtent(startLat: int, startLon: int, meridian: real)
    ensures Irregular(startLat, startLon, 6, 8, meridian).IsRegular()
  {
  }
}
