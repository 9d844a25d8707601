/**
 * The procedural meshes the draw context builds once and caches
 * (DrawContext.java: unitCircleBuffer, unitSphereElements, unitSquareBuffer):
 * the triangle-strip index list of the unit sphere, the unit square and the
 * unit circle outline.
 */
module UnitShapes {

  /** Latitude and longitude counts of the unit sphere grid. */
  const SPHERE_LATITUDES: int := 120
  const SPHERE_LONGITUDES: int := 120

  /** Java's narrowing conversion from int to short (two's complement wrap-around). */
  function ToShort(x: int): (r: int)
    ensures -32768 <= r < 32768
    ensures -32768 <= x < 32768 ==> r == x
  {
    (x + 32768) % 65536 - 32768
  }

  /** Number of indices in the sphere's triangle strip. */
  function ElementCount(numLat: int, numLon: int): int
  {
    ((numLat - 1) * numLon + (numLat - 2)) * 2
  }

  /**
   * The first k column pairs of grid row lat: for each longitude, the vertex above
   * followed by the vertex itself, which gives a counter-clockwise strip.
   */
  function StripPairs(lat: nat, numLon: nat, k: nat): seq<int>
  {
    if k == 0 then []
    else StripPairs(lat, numLon, k - 1) + [(k - 1) + lat * numLon + numLon, (k - 1) + lat * numLon]
  }

  /** The two degenerate indices after row lat: its last vertex, then the first vertex two rows up. */
  function RowJoin(lat: nat, numLat: nat, numLon: nat): seq<int>
  {
    if lat < numLat - 2 then [(numLon - 1) + lat * numLon, (lat + 2) * numLon] else []
  }

  function Row(lat: nat, numLat: nat, numLon: nat): seq<int>
  {
    StripPairs(lat, numLon, numLon) + RowJoin(lat, numLat, numLon)
  }

  /** The strip for rows 0 .. k-1. */
  function Rows(k: nat, numLat: nat, numLon: nat): seq<int>
  {
    if k == 0 then [] else Rows(k - 1, numLat, numLon) + Row(k - 1, numLat, numLon)
  }

  /** The whole triangle strip of a numLat x numLon sphere grid. */
  function SphereElements(numLat: nat, numLon: nat): seq<int>
    requires numLat >= 1
  {
    Rows(numLat - 1, numLat, numLon)
  }

  lemma MulMono(a: int, b: int, c: int)
    requires a <= b && c >= 0
    ensures a * c <= b * c
  {
    assert b * c - a * c == (b - a) * c;
  }

  lemma {:induction false} StripPairsAt(lat: nat, numLon: nat, k: nat)
    ensures |StripPairs(lat, numLon, k)| == 2 * k
    ensures forall j :: 0 <= j < k ==>
      StripPairs(lat, numLon, k)[2 * j] == j + lat * numLon + numLon &&
      StripPairs(lat, numLon, k)[2 * j + 1] == j + lat * numLon
    decreases k
  {
    if k > 0 {
      StripPairsAt(lat, numLon, k - 1);
    }
  }

  /** Every row but the last is 2*numLon + 2 indices long; the last one has no join. */
  lemma {:induction false} RowsLength(k: nat, numLat: nat, numLon: nat)
    requires k <= numLat - 1
    ensures |Rows(k, numLat, numLon)| == k * (2 * numLon + 2) - (if k == numLat - 1 && k > 0 then 2 else 0)
    decreases k
  {
    if k > 0 {
      RowsLength(k - 1, numLat, numLon);
      StripPairsAt(k - 1, numLon, numLon);
      assert (k - 1) * (2 * numLon + 2) + (2 * numLon + 2) == k * (2 * numLon + 2);
    }
  }

  /** The sphere strip holds ((numLat-1)*numLon + (numLat-2))*2 indices. */
  lemma SphereElementsLength(numLat: nat, numLon: nat)
    requires numLat >= 2
    ensures |SphereElements(numLat, numLon)| == ElementCount(numLat, numLon)
  {
    RowsLength(numLat - 1, numLat, numLon);
    assert (numLat - 1) * (2 * numLon + 2) == ((numLat - 1) * numLon + (numLat - 1)) * 2;
  }

  /** For the 120 x 120 grid that is 28796 indices. */
  lemma DefaultSphereElementCount()
    ensures ElementCount(SPHERE_LATITUDES, SPHERE_LONGITUDES) == 28796
    ensures |SphereElements(SPHERE_LATITUDES, SPHERE_LONGITUDES)| == 28796
  {
    SphereElementsLength(SPHERE_LATITUDES, SPHERE_LONGITUDES);
  }

  /** Row lat starts at index lat*(2*numLon + 2) of the strip. */
  lemma {:induction false} RowsAt(k: nat, numLat: nat, numLon: nat, lat: nat, i: nat)
    requires k <= numLat - 1 && lat < k && i < |Row(lat, numLat, numLon)|
    ensures lat * (2 * numLon + 2) + i < |Rows(k, numLat, numLon)|
    ensures Rows(k, numLat, numLon)[lat * (2 * numLon + 2) + i] == Row(lat, numLat, numLon)[i]
    decreases k
  {
    var width := 2 * numLon + 2;
    var prefix := Rows(k - 1, numLat, numLon);
    assert |prefix| == (k - 1) * width by { RowsLength(k - 1, numLat, numLon); }
    assert Rows(k, numLat, numLon) == prefix + Row(k - 1, numLat, numLon);
    if lat < k - 1 {
      RowsAt(k - 1, numLat, numLon, lat, i);
    } else {
      assert lat * width == (k - 1) * width;
    }
  }

  /** Index i of row lat sits at position lat*(2*numLon + 2) + i of the whole strip. */
  lemma SphereStripAt(numLat: nat, numLon: nat, lat: nat, i: nat)
    requires numLat >= 2 && lat < numLat - 1 && i < |Row(lat, numLat, numLon)|
    ensures lat * (2 * numLon + 2) + i < |SphereElements(numLat, numLon)|
    ensures SphereElements(numLat, numLon)[lat * (2 * numLon + 2) + i] == Row(lat, numLat, numLon)[i]
  {
    RowsAt(numLat - 1, numLat, numLon, lat, i);
  }

  /**
   * The shape of the strip: row lat emits the pairs (v + numLon, v) for each vertex
   * v = j + lat*numLon of the row.
   */
  lemma SphereStripPair(numLat: nat, numLon: nat, lat: nat, j: nat)
    requires numLat >= 2 && lat < numLat - 1 && j < numLon
    ensures lat * (2 * numLon + 2) + 2 * j + 1 < |SphereElements(numLat, numLon)|
    ensures SphereElements(numLat, numLon)[lat * (2 * numLon + 2) + 2 * j] == j + lat * numLon + numLon
    ensures SphereElements(numLat, numLon)[lat * (2 * numLon + 2) + 2 * j + 1] == j + lat * numLon
  {
    StripPairsAt(lat, numLon, numLon);
    SphereStripAt(numLat, numLon, lat, 2 * j);
    SphereStripAt(numLat, numLon, lat, 2 * j + 1);
  }

  /**
   * Every row but the last ends with the degenerate pair (last vertex of the row,
   * first vertex of row lat + 2).
   */
  lemma SphereStripJoin(numLat: nat, numLon: nat, lat: nat)
    requires numLat >= 2 && numLon >= 1 && lat < numLat - 2
    ensures lat * (2 * numLon + 2) + 2 * numLon + 1 < |SphereElements(numLat, numLon)|
    ensures SphereElements(numLat, numLon)[lat * (2 * numLon + 2) + 2 * numLon] == (numLon - 1) + lat * numLon
    ensures SphereElements(numLat, numLon)[lat * (2 * numLon + 2) + 2 * numLon + 1] == (lat + 2) * numLon
  {
    StripPairsAt(lat, numLon, numLon);
    SphereStripAt(numLat, numLon, lat, 2 * numLon);
    SphereStripAt(numLat, numLon, lat, 2 * numLon + 1);
  }

  /**
   * The strip in closed form: position p lies in row p / (2*numLon + 2); within the
   * row, even offsets below 2*numLon hold the vertex above, odd ones the vertex
   * itself, and the last two offsets the degenerate join.
   */
  function SphereIndexAt(p: nat, numLon: nat): int
    requires numLon >= 1
  {
    var lat := p / (2 * numLon + 2);
    var i := p % (2 * numLon + 2);
    if i < 2 * numLon then
      (if i % 2 == 0 then i / 2 + lat * numLon + numLon else i / 2 + lat * numLon)
    else if i == 2 * numLon then (numLon - 1) + lat * numLon
    else (lat + 2) * numLon
  }

  /** The recursive definition of the strip agrees with the closed form at every position. */
  lemma SphereElementsClosedForm(numLat: nat, numLon: nat)
    requires numLat >= 2 && numLon >= 1
    ensures |SphereElements(numLat, numLon)| == ElementCount(numLat, numLon)
    ensures forall p :: 0 <= p < |SphereElements(numLat, numLon)| ==>
      SphereElements(numLat, numLon)[p] == SphereIndexAt(p, numLon)
  {
    SphereElementsLength(numLat, numLon);
    forall p | 0 <= p < |SphereElements(numLat, numLon)|
      ensures SphereElements(numLat, numLon)[p] == SphereIndexAt(p, numLon)
    {
      SphereIndexAtPosition(numLat, numLon, p);
    }
  }

  lemma SphereIndexAtPosition(numLat: nat, numLon: nat, p: nat)
    requires numLat >= 2 && numLon >= 1 && p < ElementCount(numLat, numLon)
    requires |SphereElements(numLat, numLon)| == ElementCount(numLat, numLon)
    ensures SphereElements(numLat, numLon)[p] == SphereIndexAt(p, numLon)
  {
    var w := 2 * numLon + 2;
    var lat := p / w;
    var i := p % w;
    DivideBy(p, w);
    assert ElementCount(numLat, numLon) == (numLat - 1) * w - 2;
    MulLess(lat, numLat - 1, w, i);
    if i < 2 * numLon {
      var j := i / 2;
      SphereStripPair(numLat, numLon, lat, j);
      if i % 2 == 0 {
        assert p == lat * w + 2 * j;
      } else {
        assert p == lat * w + 2 * j + 1;
      }
    } else {
      JoinRowBound(numLat, numLon, lat, i);
      SphereStripJoin(numLat, numLon, lat);
      if i == 2 * numLon {
        assert p == lat * w + 2 * numLon;
      } else {
        assert p == lat * w + 2 * numLon + 1;
      }
    }
  }

  /** A position in the join of row lat lies before the end of the strip only when row lat is not the last. */
  lemma JoinRowBound(numLat: int, numLon: int, lat: int, i: int)
    requires numLat >= 2 && numLon >= 1 && 2 * numLon <= i
    requires lat * (2 * numLon + 2) + i < (numLat - 1) * (2 * numLon + 2) - 2
    ensures lat < numLat - 2
  {
    var w := 2 * numLon + 2;
    assert (numLat - 1) * w == (numLat - 2) * w + w;
    MulLess(lat, numLat - 2, w, i - 2 * numLon);
  }

  /** Euclidean division of a position by a row width. */
  lemma DivideBy(p: int, w: int)
    requires p >= 0 && w > 0
    ensures p / w >= 0 && 0 <= p % w < w && p == (p / w) * w + p % w
  {
  }

  /** From a*w + r < b*w with 0 <= r and w > 0 follows a < b. */
  lemma MulLess(a: int, b: int, w: int, r: int)
    requires w > 0 && r >= 0 && a * w + r < b * w
    ensures a < b
  {
    if a >= b {
      MulMono(b, a, w);
    }
  }

  /** Every index of rows 0 .. k-1 names a vertex of the grid. */
  lemma {:induction false} RowsBounded(k: nat, numLat: nat, numLon: nat)
    requires k <= numLat - 1 && numLon >= 1
    ensures forall x :: x in Rows(k, numLat, numLon) ==> 0 <= x < numLat * numLon
    decreases k
  {
    if k > 0 {
      RowsBounded(k - 1, numLat, numLon);
      RowBounded(k - 1, numLat, numLon);
    }
  }

  /** Every index of one row, join included, names a vertex of the grid. */
  lemma RowBounded(lat: nat, numLat: nat, numLon: nat)
    requires lat < numLat - 1 && numLon >= 1
    ensures forall x :: x in Row(lat, numLat, numLon) ==> 0 <= x < numLat * numLon
  {
    StripPairsBounded(lat, numLat, numLon, numLon);
    if lat < numLat - 2 {
      VertexBounds(numLat, numLon, lat, numLon - 1);
    }
  }

  lemma {:induction false} StripPairsBounded(lat: nat, numLat: nat, numLon: nat, k: nat)
    requires lat < numLat - 1 && numLon >= 1 && k <= numLon
    ensures forall x :: x in StripPairs(lat, numLon, k) ==> 0 <= x < numLat * numLon
    decreases k
  {
    if k > 0 {
      StripPairsBounded(lat, numLat, numLon, k - 1);
      VertexBounds(numLat, numLon, lat, k - 1);
    }
  }

  /** Every index of the sphere strip is less than numLat*numLon. */
  lemma SphereElementsBounded(numLat: nat, numLon: nat)
    requires numLat >= 2 && numLon >= 1
    ensures forall x :: x in SphereElements(numLat, numLon) ==> 0 <= x < numLat * numLon
  {
    RowsBounded(numLat - 1, numLat, numLon);
  }

  /** Rows 0 .. k-1 never outgrow the whole strip. */
  lemma {:induction false} RowsFit(k: nat, numLat: nat, numLon: nat)
    requires 2 <= numLat && k <= numLat - 1
    ensures |Rows(k, numLat, numLon)| <= ElementCount(numLat, numLon)
    decreases numLat - 1 - k
  {
    if k < numLat - 1 {
      RowsFit(k + 1, numLat, numLon);
    } else {
      SphereElementsLength(numLat, numLon);
    }
  }

  /** The vertex names the fill loop writes stay below numLat*numLon. */
  lemma VertexBounds(numLat: int, numLon: int, lat: int, lon: int)
    requires 1 <= numLon && 0 <= lat < numLat - 1 && 0 <= lon < numLon
    ensures 0 <= lat * numLon
    ensures lon + lat * numLon + numLon < numLat * numLon
    ensures lat < numLat - 2 ==> 0 <= (lat + 2) * numLon < numLat * numLon
  {
    MulMono(0, lat, numLon);
    MulMono(lat + 2, numLat, numLon);
    assert (lat + 2) * numLon == lat * numLon + 2 * numLon;
    if lat < numLat - 2 {
      MulMono(lat + 3, numLat, numLon);
      assert (lat + 3) * numLon == (lat + 2) * numLon + numLon;
    }
  }

  /**
   * Fills a short array with the sphere's triangle strip, row by row, with the two
   * degenerate indices between rows. The result fills the array exactly.
   */
  method FillSphereElements(numLat: int, numLon: int) returns (elements: array<int>)
    requires 2 <= numLat && 1 <= numLon && numLat * numLon <= 32768
    ensures elements.Length == ElementCount(numLat, numLon)
    ensures elements[..] == SphereElements(numLat, numLon)
  {
    var count := ((numLat - 1) * numLon + (numLat - 2)) * 2;
    SphereElementsLength(numLat, numLon);
    elements := new int[count];
    var pos := 0;
    var latIndex := 0;
    while latIndex < numLat - 1
      invariant 0 <= latIndex <= numLat - 1
      invariant pos == |Rows(latIndex, numLat, numLon)| <= elements.Length
      invariant elements[..pos] == Rows(latIndex, numLat, numLon)
    {
      RowsFit(latIndex + 1, numLat, numLon);
      pos := FillSphereRow(elements, pos, latIndex, numLat, numLon);
      latIndex := latIndex + 1;
    }
    assert elements[..] == elements[..pos];
  }

  /** Writes row latIndex of the strip, and its degenerate join, at position pos. */
  method FillSphereRow(elements: array<int>, pos: int, latIndex: int, numLat: int, numLon: int) returns (end: int)
    requires 2 <= numLat && 1 <= numLon && numLat * numLon <= 32768 && 0 <= latIndex < numLat - 1
    requires 0 <= pos && pos + |Row(latIndex, numLat, numLon)| <= elements.Length
    modifies elements
    ensures end == pos + |Row(latIndex, numLat, numLon)|
    ensures elements[..end] == old(elements[..pos]) + Row(latIndex, numLat, numLon)
  {
    StripPairsAt(latIndex, numLon, numLon);
    var vertex;
    end, vertex := FillStripPairs(elements, pos, latIndex, numLat, numLon);
    if latIndex < numLat - 2 {
      VertexBounds(numLat, numLon, latIndex, numLon - 1);
      ghost var prefix := elements[..end];
      elements[end] := ToShort(vertex);
      elements[end + 1] := ToShort((latIndex + 2) * numLon);
      assert elements[..end + 2] == prefix + [vertex, (latIndex + 2) * numLon];
      end := end + 2;
    }
    assert Row(latIndex, numLat, numLon) == StripPairs(latIndex, numLon, numLon) + RowJoin(latIndex, numLat, numLon);
  }

  /** The inner loop of one row: the vertex pairs of the strip, and the last vertex written. */
  method FillStripPairs(elements: array<int>, pos: int, latIndex: int, numLat: int, numLon: int)
    returns (end: int, vertex: int)
    requires 2 <= numLat && 1 <= numLon && numLat * numLon <= 32768 && 0 <= latIndex < numLat - 1
    requires 0 <= pos && pos + 2 * numLon <= elements.Length
    modifies elements
    ensures end == pos + 2 * numLon
    ensures elements[..end] == old(elements[..pos]) + StripPairs(latIndex, numLon, numLon)
    ensures vertex == (numLon - 1) + latIndex * numLon
  {
    ghost var before := elements[..pos];
    end := pos;
    vertex := 0;
    var lonIndex := 0;
    while lonIndex < numLon
      invariant 0 <= lonIndex <= numLon
      invariant end == pos + 2 * lonIndex
      invariant elements[..end] == before + StripPairs(latIndex, numLon, lonIndex)
      invariant lonIndex > 0 ==> vertex == (lonIndex - 1) + latIndex * numLon
    {
      VertexBounds(numLat, numLon, latIndex, lonIndex);
      ghost var prefix := elements[..end];
      vertex := lonIndex + latIndex * numLon;
      elements[end] := ToShort(vertex + numLon);
      elements[end + 1] := ToShort(vertex);
      assert elements[..end + 2] == prefix + [vertex + numLon, vertex];
      end := end + 2;
      lonIndex := lonIndex + 1;
    }
  }

  /** The unit square as four (x, y) vertices in triangle-strip order: (0,1), (0,0), (1,1), (1,0). */
  const UnitSquarePoints: seq<real> := [0.0, 1.0, 0.0, 0.0, 1.0, 1.0, 1.0, 0.0]

  // ---------------------------------------------------------------------------
  // Unit circle outline

  /** Number of angular steps of the unit circle. */
  const CIRCLE_SLICES: nat := 360

  /**
   * One coordinate of the circle outline: zero padding, or the cosine or sine of
   * step * (2 pi / 360). The trigonometry itself is not modelled.
   */
  datatype Coord = Pad | CosOf(step: nat) | SinOf(step: nat)

  datatype CircleFailure = IndexOutOfBounds(index: int)

  datatype CircleResult = Built(points: seq<Coord>) | Threw(failure: CircleFailure)

  /**
   * The fill loop of unitCircleBuffer as written: the loop variable idx is compared
   * with len but never incremented, so the loop keeps writing two coordinates per
   * iteration until pos leaves the array. The result names the index that throws.
   */
  function CircleLoopAsWritten(points: seq<Coord>, idx: int, len: int, pos: int, step: nat): (r: CircleResult)
    requires 0 <= pos
    decreases |points| - pos
  {
    if idx < len then
      if pos >= |points| then Threw(IndexOutOfBounds(pos))
      else
        var p1 := points[pos := CosOf(step)];
        if pos + 1 >= |points| then Threw(IndexOutOfBounds(pos + 1))
        else CircleLoopAsWritten(p1[pos + 1 := SinOf(step)], idx, len, pos + 2, step + 1)
    else if |points| <= 3 then Threw(IndexOutOfBounds(if |points| <= 2 then 2 else 3))
    else if pos >= |points| then Threw(IndexOutOfBounds(pos))
    else if pos + 1 >= |points| then Threw(IndexOutOfBounds(pos + 1))
    else Built(points[pos := points[2]][pos + 1 := points[3]])
  }

  /** Whatever even position the loop has reached, it ends by writing one past the end. */
  lemma {:induction false} CircleLoopOverruns(points: seq<Coord>, len: int, pos: nat, step: nat)
    requires 0 < len && 4 <= |points| && pos <= |points| && pos % 2 == 0 && |points| % 2 == 0
    ensures CircleLoopAsWritten(points, 0, len, pos, step) == Threw(IndexOutOfBounds(|points|))
    decreases |points| - pos
  {
    if pos < |points| {
      var p1 := points[pos := CosOf(step)];
      CircleLoopOverruns(p1[pos + 1 := SinOf(step)], len, pos + 2, step + 1);
    }
  }

  /**
   * As written, the first call of unitCircleBuffer throws: with 360 slices the array
   * holds 724 floats and the loop writes index 724.
   */
  lemma UnitCircleAsWrittenThrows(slices: nat)
    requires slices >= 1
    ensures CircleLoopAsWritten(seq(slices * 2 + 4, _ => Pad), 0, slices * 2, 2, 0)
      == Threw(IndexOutOfBounds(slices * 2 + 4))
  {
    CircleLoopOverruns(seq(slices * 2 + 4, _ => Pad), slices * 2, 2, 0);
  }

  /** The cosine and sine of steps 0 .. k-1, interleaved. */
  function Ring(k: nat): (r: seq<Coord>)
    ensures |r| == 2 * k
  {
    if k == 0 then [] else Ring(k - 1) + [CosOf(k - 1), SinOf(k - 1)]
  }

  lemma {:induction false} RingAt(k: nat, j: nat)
    requires j < k
    ensures Ring(k)[2 * j] == CosOf(j) && Ring(k)[2 * j + 1] == SinOf(j)
    decreases k
  {
    if j < k - 1 {
      RingAt(k - 1, j);
    }
  }

  /** The intended outline: a leading pad pair, the points, and the first point repeated to close the loop. */
  function CirclePoints(slices: nat): seq<Coord>
  {
    [Pad, Pad] + Ring(slices) + [CosOf(0), SinOf(0)]
  }

  /** The outline is closed: its last pair equals its first real (non-pad) pair. */
  lemma CircleIsClosed(slices: nat)
    requires slices >= 1
    ensures |CirclePoints(slices)| == 2 * slices + 4
    ensures CirclePoints(slices)[0] == Pad && CirclePoints(slices)[1] == Pad
    ensures CirclePoints(slices)[2 * slices + 2] == CirclePoints(slices)[2] == CosOf(0)
    ensures CirclePoints(slices)[2 * slices + 3] == CirclePoints(slices)[3] == SinOf(0)
    ensures forall j :: 0 <= j < slices ==>
      CirclePoints(slices)[2 + 2 * j] == CosOf(j) && CirclePoints(slices)[3 + 2 * j] == SinOf(j)
  {
    RingAt(slices, 0);
    forall j | 0 <= j < slices
      ensures CirclePoints(slices)[2 + 2 * j] == CosOf(j) && CirclePoints(slices)[3 + 2 * j] == SinOf(j)
    {
      RingAt(slices, j);
    }
  }

  /** The fill loop with the increment it evidently intends: idx advances by two with every point written. */
  method FillCirclePoints(slices: nat) returns (points: array<Coord>)
    requires slices >= 1
    ensures points[..] == CirclePoints(slices)
  {
    points := new Coord[slices * 2 + 4](_ => Pad);
    var pos := 2;
    var idx, len := 0, points.Length - 4;
    var step := 0;
    while idx < len
      invariant len == 2 * slices && points.Length == len + 4
      invariant idx == 2 * step && step <= slices
      invariant pos == idx + 2
      invariant points[..pos] == [Pad, Pad] + Ring(step)
    {
      ghost var prefix := points[..pos];
      points[pos] := CosOf(step);
      pos := pos + 1;
      points[pos] := SinOf(step);
      pos := pos + 1;
      assert points[..pos] == prefix + [CosOf(step), SinOf(step)];
      idx, step := idx + 2, step + 1;
    }
    RingAt(slices, 0);
    ghost var ring := points[..pos];
    points[pos] := points[2];
    points[pos + 1] := points[3];
    assert points[..] == ring + [CosOf(0), SinOf(0)];
  }
}
