/** Cluster-grid resolution: the pure part of src/renderer.ts.

    The canvas is cut into screen-space tiles of `clusterSize` pixels and the
    view frustum into `numZ` depth slices.  Canvas dimensions are inputs here
    (the source reads them from the global canvas element). */
module ClusterGrid {

  /** The grid record handed to the camera and the clustering pass. */
  datatype ClusterParams = ClusterParams(
    numX: int,
    numY: int,
    numZ: int,
    clusterSize: int,
    canvasSizeX: int,
    canvasSizeY: int)

  /** The placeholder the camera starts from before the first size update. */
  const DefaultClusterParams := ClusterParams(16, 16, 16, 32, 800, 600)

  // ---------------------------------------------------------------------
  // Minimum cluster size by canvas area

  const SmallScreenArea: nat := 800 * 600
  const HdScreenArea: nat := 1920 * 1080
  const MonitorScreenArea: nat := 2560 * 1440

  predicate IsClusterTier(s: int) {
    s == 16 || s == 32 || s == 64 || s == 128
  }

  /** The smallest cluster size allowed for a canvas of the given pixel size:
      coarser clusters on larger canvases. */
  function MinClusterSize(width: nat, height: nat): (r: int)
    ensures IsClusterTier(r)
    ensures r == 16 <==> width * height < SmallScreenArea
    ensures r == 32 <==> SmallScreenArea <= width * height < HdScreenArea
    ensures r == 64 <==> HdScreenArea <= width * height < MonitorScreenArea
    ensures r == 128 <==> MonitorScreenArea <= width * height
  {
    var area := width * height;
    if area < SmallScreenArea then 16
    else if area < HdScreenArea then 32
    else if area < MonitorScreenArea then 64
    else 128
  }

  /** A larger canvas never gets a smaller minimum cluster size. */
  lemma MinClusterSizeMonotone(w1: nat, h1: nat, w2: nat, h2: nat)
    requires w1 * h1 <= w2 * h2
    ensures MinClusterSize(w1, h1) <= MinClusterSize(w2, h2)
  {
  }

  /** The tier boundaries are strict: an 800x600 canvas is already in the
      second tier and a 1920x1080 canvas in the third. */
  lemma MinClusterSizeAtTierBoundaries()
    ensures MinClusterSize(799, 600) == 16
    ensures MinClusterSize(800, 600) == 32
    ensures MinClusterSize(1920, 1080) == 64
    ensures MinClusterSize(2560, 1440) == 128
  {
  }

  // ---------------------------------------------------------------------
  // Ceiling division (math_util.divUp)

  /** `n` tiles of `size` pixels cover `extent` pixels, and `n - 1` do not. */
  predicate Tiles(n: int, size: int, extent: int) {
    n >= 0 && (n - 1) * size < extent <= n * size
  }

  function DivUp(a: nat, b: nat): (r: nat)
    requires b > 0
    ensures Tiles(r, b, a)
  {
    var r := (a + b - 1) / b;
    var m := (a + b - 1) % b;
    assert a + b - 1 == r * b + m && 0 <= m < b;
    assert (r - 1) * b == r * b - b;
    r
  }

  lemma MulLeftMono(k: int, a: int, b: int)
    requires k >= 0 && a <= b
    ensures k * a <= k * b
  {
  }

  /** The tile count for a given extent is unique. */
  lemma {:induction false} TilesUnique(n1: int, n2: int, size: int, extent: int)
    requires size > 0 && Tiles(n1, size, extent) && Tiles(n2, size, extent)
    ensures n1 == n2
  {
    if n1 < n2 {
      MulLeftMono(size, n1, n2 - 1);
    } else if n2 < n1 {
      MulLeftMono(size, n2, n1 - 1);
    }
  }

  /** Smaller tiles never need fewer of them. */
  lemma {:induction false} DivUpAntitone(a: nat, b1: nat, b2: nat)
    requires 0 < b1 <= b2
    ensures DivUp(a, b1) >= DivUp(a, b2)
  {
    var q1, q2 := DivUp(a, b1), DivUp(a, b2);
    if q1 < q2 {
      MulLeftMono(q1, b1, b2);
      MulLeftMono(b2, q1, q2 - 1);
    }
  }

  // ---------------------------------------------------------------------
  // Depth slices: max(8, round(28 * sqrt(32 / clusterSize)))

  const ReferenceClusterSize: nat := 32
  const ReferenceDepthSlices: nat := 28
  const MinDepthSlices: nat := 8

  /** For n >= 1:  n - 1/2 <= 28 * sqrt(32 / s)  <==>  s * (2n - 1)^2 <= RoundingBound. */
  const RoundingBound: nat := 4 * ReferenceDepthSlices * ReferenceDepthSlices * ReferenceClusterSize

  /** `n <= round(28 * sqrt(32 / s))`, where round is half-up (Math.round):
      round(x) is the largest n with n - 1/2 <= x. */
  predicate AtMostRounded(s: int, n: nat) {
    n == 0 || s * ((2 * n - 1) * (2 * n - 1)) <= RoundingBound
  }

  lemma {:induction false} AtMostRoundedDownward(s: int, m: nat, n: nat)
    requires s > 0 && m <= n && AtMostRounded(s, n)
    ensures AtMostRounded(s, m)
  {
    if m > 0 {
      var a, b := 2 * m - 1, 2 * n - 1;
      MulLeftMono(a, a, b);
      MulLeftMono(b, a, b);
      assert a * a <= b * b;
      MulLeftMono(s, a * a, b * b);
    }
  }

  /** No candidate above SearchCeiling rounds down to itself for s >= 1. */
  const SearchCeiling: nat := 158

  lemma AboveSearchCeiling(s: int, m: nat)
    requires s > 0 && m > SearchCeiling
    ensures !AtMostRounded(s, m)
  {
    var k := 2 * m - 1;
    MulLeftMono(k, 317, k);
    MulLeftMono(317, 317, k);
    assert k * k >= 317 * 317 > RoundingBound;
    MulLeftMono(k * k, 1, s);
  }

  /** The largest candidate in [0, n] that is at most the rounded value. */
  function RoundedSearch(s: int, n: nat): (r: nat)
    requires s > 0
    ensures r <= n && AtMostRounded(s, r)
    ensures forall m :: r < m <= n ==> !AtMostRounded(s, m)
    decreases n
  {
    if AtMostRounded(s, n) then n else RoundedSearch(s, n - 1)
  }

  /** round(28 * sqrt(32 / s)), computed over the reals. */
  function RoundedDepthTerm(s: int): (r: nat)
    requires s > 0
    ensures AtMostRounded(s, r) && !AtMostRounded(s, r + 1)
  {
    AboveSearchCeiling(s, SearchCeiling + 1);
    RoundedSearch(s, SearchCeiling)
  }

  /** Every candidate that is at most the rounded value lies below any
      candidate whose successor is above it. */
  lemma {:induction false} RoundedBound(s: int, n: nat, r: nat)
    requires s > 0 && AtMostRounded(s, n) && !AtMostRounded(s, r + 1)
    ensures n <= r
  {
    if n > r {
      AtMostRoundedDownward(s, r + 1, n);
    }
  }

  /** The two bounds of RoundedDepthTerm pin down a single value. */
  lemma RoundedDepthTermUnique(s: int, n: nat)
    requires s > 0 && AtMostRounded(s, n) && !AtMostRounded(s, n + 1)
    ensures RoundedDepthTerm(s) == n
  {
    var r := RoundedDepthTerm(s);
    RoundedBound(s, r, n);
    RoundedBound(s, n, r);
  }

  /** Smaller clusters never get fewer depth slices. */
  lemma AtMostRoundedAntitone(s1: int, s2: int, n: nat)
    requires 0 < s1 <= s2 && AtMostRounded(s2, n)
    ensures AtMostRounded(s1, n)
  {
    if n > 0 {
      var k := (2 * n - 1) * (2 * n - 1);
      MulLeftMono(k, s1, s2);
    }
  }

  lemma RoundedDepthTermAntitone(s1: int, s2: int)
    requires 0 < s1 <= s2
    ensures RoundedDepthTerm(s1) >= RoundedDepthTerm(s2)
  {
    var r1, r2 := RoundedDepthTerm(s1), RoundedDepthTerm(s2);
    AtMostRoundedAntitone(s1, s2, r2);
    RoundedBound(s1, r2, r1);
  }

  function NumDepthSlices(s: int): (r: int)
    requires s > 0
    ensures r >= MinDepthSlices && r >= RoundedDepthTerm(s)
    ensures r == MinDepthSlices || r == RoundedDepthTerm(s)
  {
    if RoundedDepthTerm(s) > MinDepthSlices then RoundedDepthTerm(s) else MinDepthSlices
  }

  // ---------------------------------------------------------------------
  // getClusterParams

  /** The relation every freshly computed ClusterParams satisfies. */
  predicate WellFormed(p: ClusterParams) {
    && p.clusterSize > 0
    && p.canvasSizeX >= 0
    && p.canvasSizeY >= 0
    && Tiles(p.numX, p.clusterSize, p.canvasSizeX)
    && Tiles(p.numY, p.clusterSize, p.canvasSizeY)
    && p.numZ >= MinDepthSlices
    && !AtMostRounded(p.clusterSize, p.numZ + 1)
    && (p.numZ == MinDepthSlices || AtMostRounded(p.clusterSize, p.numZ))
  }

  function GetClusterParams(clusterSize: int, canvasWidth: nat, canvasHeight: nat): (p: ClusterParams)
    requires clusterSize > 0
    ensures p.clusterSize == clusterSize
    ensures p.canvasSizeX == canvasWidth && p.canvasSizeY == canvasHeight
    ensures Tiles(p.numX, clusterSize, canvasWidth)
    ensures Tiles(p.numY, clusterSize, canvasHeight)
    ensures p.numZ >= MinDepthSlices
    ensures WellFormed(p)
  {
    ClusterParams(
      DivUp(canvasWidth, clusterSize),
      DivUp(canvasHeight, clusterSize),
      NumDepthSlices(clusterSize),
      clusterSize,
      canvasWidth,
      canvasHeight)
  }

  /** WellFormed characterises getClusterParams exactly: a record is well formed
      if and only if it is what getClusterParams returns for its own size and canvas. */
  lemma WellFormedIffComputed(p: ClusterParams)
    ensures WellFormed(p) <==>
      (p.clusterSize > 0 && p.canvasSizeX >= 0 && p.canvasSizeY >= 0 &&
       p == GetClusterParams(p.clusterSize, p.canvasSizeX, p.canvasSizeY))
  {
    if WellFormed(p) {
      var q := GetClusterParams(p.clusterSize, p.canvasSizeX, p.canvasSizeY);
      TilesUnique(p.numX, q.numX, p.clusterSize, p.canvasSizeX);
      TilesUnique(p.numY, q.numY, p.clusterSize, p.canvasSizeY);
      var t := RoundedDepthTerm(p.clusterSize);
      RoundedBound(p.clusterSize, t, p.numZ);
      if p.numZ > MinDepthSlices {
        RoundedBound(p.clusterSize, p.numZ, t);
      }
    }
  }

  /** The placeholder record is not what getClusterParams produces. */
  lemma DefaultClusterParamsNotWellFormed()
    ensures !WellFormed(DefaultClusterParams)
  {
    var p := DefaultClusterParams;
    assert (p.numX) * p.clusterSize == 512 < 800;
  }

  /** Shrinking the clusters never shrinks the grid in any dimension, nor the
      total number of clusters. */
  lemma {:induction false} GridAntitone(s1: int, s2: int, w: nat, h: nat)
    requires 0 < s1 <= s2
    ensures GetClusterParams(s1, w, h).numX >= GetClusterParams(s2, w, h).numX
    ensures GetClusterParams(s1, w, h).numY >= GetClusterParams(s2, w, h).numY
    ensures GetClusterParams(s1, w, h).numZ >= GetClusterParams(s2, w, h).numZ
    ensures ClusterCount(GetClusterParams(s1, w, h)) >= ClusterCount(GetClusterParams(s2, w, h))
  {
    var p1, p2 := GetClusterParams(s1, w, h), GetClusterParams(s2, w, h);
    DivUpAntitone(w, s1, s2);
    DivUpAntitone(h, s1, s2);
    RoundedDepthTermAntitone(s1, s2);
    MulLeftMono(p1.numX, p2.numY, p1.numY);
    MulLeftMono(p2.numY, p2.numX, p1.numX);
    assert p2.numX * p2.numY <= p1.numX * p1.numY;
    MulLeftMono(p1.numX * p1.numY, p2.numZ, p1.numZ);
    MulLeftMono(p2.numZ, p2.numX * p2.numY, p1.numX * p1.numY);
  }

  /** The number of clusters the grid holds. */
  function ClusterCount(p: ClusterParams): int {
    p.numX * p.numY * p.numZ
  }

  /** A reference-size cluster gets exactly 28 depth slices. */
  lemma ReferenceSizeDepthSlices()
    ensures NumDepthSlices(ReferenceClusterSize) == ReferenceDepthSlices
  {
    assert 32 * (55 * 55) <= RoundingBound < 32 * (57 * 57);
    RoundedDepthTermUnique(32, 28);
  }

  /** An 800x600 canvas with 32-pixel clusters gives a 25 x 19 x 28 grid. */
  lemma Grid800x600()
    ensures GetClusterParams(32, 800, 600) == ClusterParams(25, 19, 28, 32, 800, 600)
  {
    ReferenceSizeDepthSlices();
    var p := GetClusterParams(32, 800, 600);
    TilesUnique(p.numX, 25, 32, 800);
    TilesUnique(p.numY, 19, 32, 600);
  }

  /** Depth slices at other slider sizes: 56 at 8 pixels, 20 at 64 and 14 at 128. */
  lemma DepthSlicesAtOtherSizes()
    ensures NumDepthSlices(8) == 56
    ensures NumDepthSlices(64) == 20
    ensures NumDepthSlices(128) == 14
  {
    assert 8 * (111 * 111) <= RoundingBound < 8 * (113 * 113);
    RoundedDepthTermUnique(8, 56);
    assert 64 * (39 * 39) <= RoundingBound < 64 * (41 * 41);
    RoundedDepthTermUnique(64, 20);
    assert 128 * (27 * 27) <= RoundingBound < 128 * (29 * 29);
    RoundedDepthTermUnique(128, 14);
  }
}
