/** The camera of src/stage/camera.ts: the per-frame uniform payload, the
    camera-wide settings (static members in the source) and the yaw/pitch
    bookkeeping.  Matrix, trigonometric and vector math is done by a library
    the model does not see; its results arrive here as parameters. */
module CameraState {
  import opened ClusterGrid

  // ---------------------------------------------------------------------
  // Payload layout

  /** A contiguous range of 4-byte slots in one of the two payload views. */
  datatype SlotRange = SlotRange(start: nat, count: nat) {
    function End(): nat { start + count }
    predicate Contains(k: int) { start <= k < start + count }
    predicate DisjointFrom(other: SlotRange) { End() <= other.start || other.End() <= start }
  }

  const BytesPerSlot: nat := 4

  const FloatPadding: nat := 3
  /** view-projection, view, near/far, slope X, slope Y, exposure, padding */
  const FloatSlots: nat := 16 + 16 + 2 + 1 + 1 + 1 + FloatPadding
  const FloatBufferBytes: nat := FloatSlots * BytesPerSlot

  const IntPadding: nat := 1
  /** the six cluster parameters and the light search radius, then padding */
  const IntSlots: nat := 7 + IntPadding
  const IntBufferBytes: nat := IntSlots * BytesPerSlot

  const ViewProjMatSlots := SlotRange(0, 16)
  const ViewMatSlots := SlotRange(16, 16)
  const NearFarSlots := SlotRange(32, 2)
  const FrustumSlopeXSlot := SlotRange(34, 1)
  const FrustumSlopeYSlot := SlotRange(35, 1)
  const ExposureOffsetSlot := SlotRange(36, 1)
  const FloatPaddingSlots := SlotRange(37, FloatPadding)

  /** The slots of the float view that a setter writes, in source order. */
  const FloatFields: seq<SlotRange> :=
    [ViewProjMatSlots, ViewMatSlots, NearFarSlots, FrustumSlopeXSlot, FrustumSlopeYSlot, ExposureOffsetSlot]

  const ClusterParamsSlots := SlotRange(0, 7)
  const IntPaddingSlots := SlotRange(7, IntPadding)

  /** The float payload is 40 slots (160 bytes) and the int payload 8 slots (32 bytes). */
  lemma PayloadSizes()
    ensures FloatSlots == 40 && FloatBufferBytes == 160
    ensures IntSlots == 8 && IntBufferBytes == 32
  {
  }

  /** The float fields are pairwise disjoint, follow one another without gaps,
      fit in the view, and leave exactly the padding slots 37..39 unused. */
  lemma FloatLayoutDisjoint()
    ensures forall i, j :: 0 <= i < j < |FloatFields| ==> FloatFields[i].DisjointFrom(FloatFields[j])
    ensures forall i :: 0 <= i < |FloatFields| ==> FloatFields[i].End() <= FloatPaddingSlots.start
    ensures forall i :: 0 <= i < |FloatFields| - 1 ==> FloatFields[i].End() == FloatFields[i + 1].start
    ensures FloatFields[0].start == 0
    ensures FloatPaddingSlots.start == 37 && FloatPaddingSlots.End() == FloatSlots
  {
  }

  /** The cluster parameters fill int slots 0..6 and slot 7 is padding. */
  lemma IntLayoutDisjoint()
    ensures ClusterParamsSlots.DisjointFrom(IntPaddingSlots)
    ensures ClusterParamsSlots.start == 0 && ClusterParamsSlots.End() == IntPaddingSlots.start
    ensures IntPaddingSlots.End() == IntSlots
  {
  }

  // ---------------------------------------------------------------------
  // Int32Array element conversion

  const TwoTo31: int := 0x8000_0000
  const TwoTo32: int := 0x1_0000_0000

  predicate IsInt32(x: int) { -TwoTo31 <= x < TwoTo31 }

  /** What an Int32Array stores for an integral number: the value wrapped to 32 bits. */
  function ToInt32(x: int): (r: int)
    ensures IsInt32(r)
    ensures (r - x) % TwoTo32 == 0
    ensures IsInt32(x) ==> r == x
  {
    var m := x % TwoTo32;
    if m >= TwoTo31 then m - TwoTo32 else m
  }

  /** The stored value is the only 32-bit value congruent to the input. */
  lemma ToInt32Unique(x: int, r: int)
    requires IsInt32(r) && (r - x) % TwoTo32 == 0
    ensures r == ToInt32(x)
  {
    var t := ToInt32(x);
    assert (r - t) % TwoTo32 == 0;
  }

  // ---------------------------------------------------------------------
  // The two payload views

  /** The host-side payload: a float view and an int view over separate buffers. */
  class CameraUniforms {
    const floatView: array<real>
    const intView: array<int>

    /** The views have the layout's sizes, and no padding slot is ever written:
        they keep the zero a new buffer starts with. */
    ghost predicate Valid()
      reads this, floatView, intView
    {
      && floatView.Length == FloatSlots
      && intView.Length == IntSlots
      && (forall k :: FloatPaddingSlots.Contains(k) ==> floatView[k] == 0.0)
      && (forall k :: IntPaddingSlots.Contains(k) ==> intView[k] == 0)
    }

    constructor ()
      ensures Valid() && fresh(floatView) && fresh(intView)
      ensures forall k :: 0 <= k < FloatSlots ==> floatView[k] == 0.0
      ensures forall k :: 0 <= k < IntSlots ==> intView[k] == 0
    {
      floatView := new real[FloatSlots](_ => 0.0);
      intView := new int[IntSlots](_ => 0);
    }

    /** Slots 0..15 receive `mat[0..15]`; every other slot keeps its value. */
    method SetViewProjMat(mat: seq<real>)
      requires Valid() && |mat| >= 16
      modifies floatView
      ensures Valid()
      ensures forall i :: 0 <= i < 16 ==> floatView[ViewProjMatSlots.start + i] == mat[i]
      ensures forall k :: 0 <= k < FloatSlots && !ViewProjMatSlots.Contains(k) ==> floatView[k] == old(floatView[k])
    {
      for i := 0 to 16
        invariant forall j :: 0 <= j < i ==> floatView[ViewProjMatSlots.start + j] == mat[j]
        invariant forall k :: 0 <= k < FloatSlots && !(ViewProjMatSlots.start <= k < ViewProjMatSlots.start + i) ==>
          floatView[k] == old(floatView[k])
      {
        floatView[ViewProjMatSlots.start + i] := mat[i];
      }
    }

    /** Slots 16..31 receive `mat[0..15]`; every other slot keeps its value. */
    method SetViewMat(mat: seq<real>)
      requires Valid() && |mat| >= 16
      modifies floatView
      ensures Valid()
      ensures forall i :: 0 <= i < 16 ==> floatView[ViewMatSlots.start + i] == mat[i]
      ensures forall k :: 0 <= k < FloatSlots && !ViewMatSlots.Contains(k) ==> floatView[k] == old(floatView[k])
    {
      for i := 0 to 16
        invariant forall j :: 0 <= j < i ==> floatView[ViewMatSlots.start + j] == mat[j]
        invariant forall k :: 0 <= k < FloatSlots && !(ViewMatSlots.start <= k < ViewMatSlots.start + i) ==>
          floatView[k] == old(floatView[k])
      {
        floatView[ViewMatSlots.start + i] := mat[i];
      }
    }

    /** Slots 32 and 33 receive the near and far distances. */
    method SetNearFar(nearFar: seq<real>)
      requires Valid() && |nearFar| >= 2
      modifies floatView
      ensures Valid()
      ensures floatView[NearFarSlots.start] == nearFar[0] && floatView[NearFarSlots.start + 1] == nearFar[1]
      ensures forall k :: 0 <= k < FloatSlots && !NearFarSlots.Contains(k) ==> floatView[k] == old(floatView[k])
    {
      floatView[NearFarSlots.start] := nearFar[0];
      floatView[NearFarSlots.start + 1] := nearFar[1];
    }

    method SetFrustumSlopeX(slopeX: real)
      requires Valid()
      modifies floatView
      ensures Valid()
      ensures floatView[FrustumSlopeXSlot.start] == slopeX
      ensures forall k :: 0 <= k < FloatSlots && !FrustumSlopeXSlot.Contains(k) ==> floatView[k] == old(floatView[k])
    {
      floatView[FrustumSlopeXSlot.start] := slopeX;
    }

    method SetFrustumSlopeY(slopeY: real)
      requires Valid()
      modifies floatView
      ensures Valid()
      ensures floatView[FrustumSlopeYSlot.start] == slopeY
      ensures forall k :: 0 <= k < FloatSlots && !FrustumSlopeYSlot.Contains(k) ==> floatView[k] == old(floatView[k])
    {
      floatView[FrustumSlopeYSlot.start] := slopeY;
    }

    method SetExposureOffset(exposureOffset: real)
      requires Valid()
      modifies floatView
      ensures Valid()
      ensures floatView[ExposureOffsetSlot.start] == exposureOffset
      ensures forall k :: 0 <= k < FloatSlots && !ExposureOffsetSlot.Contains(k) ==> floatView[k] == old(floatView[k])
    {
      floatView[ExposureOffsetSlot.start] := exposureOffset;
    }

    /** Int slots 0..6 receive numX, numY, numZ, clusterSize, canvasSizeX,
        canvasSizeY and the light search radius, as 32-bit integers; slot 7 is untouched. */
    method SetDevClusterParams(params: ClusterParams, lightSearchRadius: int)
      requires Valid()
      modifies intView
      ensures Valid()
      ensures intView[..ClusterParamsSlots.End()] == IntPayload(params, lightSearchRadius)
      ensures intView[IntPaddingSlots.start] == old(intView[IntPaddingSlots.start])
    {
      intView[0] := ToInt32(params.numX);
      intView[1] := ToInt32(params.numY);
      intView[2] := ToInt32(params.numZ);
      intView[3] := ToInt32(params.clusterSize);
      intView[4] := ToInt32(params.canvasSizeX);
      intView[5] := ToInt32(params.canvasSizeY);
      intView[6] := ToInt32(lightSearchRadius);
    }
  }

  /** The int payload, slot by slot, for a grid and a light search radius. */
  function IntPayload(params: ClusterParams, lightSearchRadius: int): (s: seq<int>)
    ensures |s| == ClusterParamsSlots.count
    ensures forall k :: 0 <= k < |s| ==> IsInt32(s[k])
  {
    [ToInt32(params.numX), ToInt32(params.numY), ToInt32(params.numZ), ToInt32(params.clusterSize),
     ToInt32(params.canvasSizeX), ToInt32(params.canvasSizeY), ToInt32(lightSearchRadius)]
  }

  /** A grid computed for a canvas of at most 2^31 - 1 pixels a side is carried
      into the int payload without wrap-around, field for field. */
  lemma IntPayloadExact(params: ClusterParams, lightSearchRadius: int)
    requires WellFormed(params) && params.canvasSizeX < TwoTo31 && params.canvasSizeY < TwoTo31
    requires params.clusterSize < TwoTo31 && IsInt32(lightSearchRadius)
    ensures IntPayload(params, lightSearchRadius) ==
      [params.numX, params.numY, params.numZ, params.clusterSize,
       params.canvasSizeX, params.canvasSizeY, lightSearchRadius]
  {
    TilesBelowExtent(params.numX, params.clusterSize, params.canvasSizeX);
    TilesBelowExtent(params.numY, params.clusterSize, params.canvasSizeY);
    if params.numZ > SearchCeiling {
      AboveSearchCeiling(params.clusterSize, params.numZ);
    }
  }

  /** A tile count never exceeds the extent it covers (for an extent above zero). */
  lemma TilesBelowExtent(n: int, size: int, extent: int)
    requires size > 0 && extent >= 0 && Tiles(n, size, extent)
    ensures n <= extent || n == 0
  {
    if n > 0 {
      MulLeftMono(n - 1, 1, size);
    }
  }

  // ---------------------------------------------------------------------
  // Camera-wide settings

  const NearPlane: real := 0.1

  /** The camera's static members: one instance shared by the camera and the
      application driver. */
  class CameraSettings {
    var clusterSize: int
    var clusterParams: ClusterParams
    var exposureOffset: real
    var fauxFarPlane: real
    var lightSearchRadius: int

    constructor ()
      ensures clusterSize == 32 && clusterParams == DefaultClusterParams
      ensures exposureOffset == 0.0 && fauxFarPlane == 15.0 && lightSearchRadius == 2
    {
      clusterSize := 32;
      clusterParams := DefaultClusterParams;
      exposureOffset := 0.0;
      fauxFarPlane := 15.0;
      lightSearchRadius := 2;
    }

    /** Sets the cluster size and recomputes the grid for the current canvas. */
    method UpdateClusterSize(size: int, canvasWidth: nat, canvasHeight: nat)
      requires size > 0
      modifies this
      ensures clusterSize == size
      ensures clusterParams == GetClusterParams(size, canvasWidth, canvasHeight)
      ensures WellFormed(clusterParams)
      ensures exposureOffset == old(exposureOffset) && fauxFarPlane == old(fauxFarPlane)
      ensures lightSearchRadius == old(lightSearchRadius)
    {
      clusterSize := size;
      clusterParams := GetClusterParams(size, canvasWidth, canvasHeight);
    }
  }

  // ---------------------------------------------------------------------
  // Pitch limit

  const MaxPitch: real := 89.0

  /** The pitch after an update: held within [-89, 89] degrees. */
  function ClampPitch(p: real): (r: real)
    ensures -MaxPitch <= r <= MaxPitch
    ensures -MaxPitch <= p <= MaxPitch ==> r == p
    ensures p > MaxPitch ==> r == MaxPitch
    ensures p < -MaxPitch ==> r == -MaxPitch
  {
    if p > MaxPitch then MaxPitch else if p < -MaxPitch then -MaxPitch else p
  }

  function Distance(a: real, b: real): real {
    if a <= b then b - a else a - b
  }

  /** The clamped pitch is the allowed pitch nearest to the requested one. */
  lemma ClampPitchNearest(p: real, q: real)
    requires -MaxPitch <= q <= MaxPitch
    ensures Distance(ClampPitch(p), p) <= Distance(q, p)
  {
  }

  // ---------------------------------------------------------------------
  // The camera

  class Camera {
    const uniforms: CameraUniforms
    const settings: CameraSettings
    var yaw: real
    var pitch: real

    ghost predicate Valid()
      reads this, uniforms, uniforms.floatView, uniforms.intView
    {
      uniforms.Valid() && -MaxPitch <= pitch <= MaxPitch
    }

    /** Builds the payload, recomputes the grid for the current cluster size and
        canvas, and points the camera straight ahead. */
    constructor (settings: CameraSettings, canvasWidth: nat, canvasHeight: nat)
      requires settings.clusterSize > 0
      modifies settings
      ensures Valid() && fresh(uniforms) && fresh(uniforms.floatView) && fresh(uniforms.intView)
      ensures this.settings == settings
      ensures yaw == 0.0 && pitch == 0.0
      ensures settings.clusterSize == old(settings.clusterSize)
      ensures settings.clusterParams == GetClusterParams(settings.clusterSize, canvasWidth, canvasHeight)
      ensures settings.exposureOffset == old(settings.exposureOffset)
      ensures settings.fauxFarPlane == old(settings.fauxFarPlane)
      ensures settings.lightSearchRadius == old(settings.lightSearchRadius)
      ensures forall k :: 0 <= k < FloatSlots ==> uniforms.floatView[k] == 0.0
      ensures forall k :: 0 <= k < IntSlots ==> uniforms.intView[k] == 0
    {
      uniforms := new CameraUniforms();
      this.settings := settings;
      yaw, pitch := 0.0, 0.0;
      new;
      settings.UpdateClusterSize(settings.clusterSize, canvasWidth, canvasHeight);
      RotateCamera(0.0, 0.0);
    }

    /** Accumulates a mouse movement: yaw turns by dx, pitch by -dy, clamped. */
    method RotateCamera(dx: real, dy: real)
      requires Valid()
      modifies this
      ensures Valid()
      ensures yaw == old(yaw) + dx
      ensures pitch == ClampPitch(old(pitch) - dy)
      ensures -MaxPitch <= pitch <= MaxPitch
    {
      yaw := yaw + dx;
      pitch := pitch - dy;
      if pitch > MaxPitch {
        pitch := MaxPitch;
      }
      if pitch < -MaxPitch {
        pitch := -MaxPitch;
      }
    }

    /** Fills the payload for one frame.  `viewMat` and `viewProjMat` are the
        matrices computed this frame, `slopeY` the vertical half-angle tangent
        and `aspectRatio` the canvas aspect ratio. */
    method OnFrame(viewMat: seq<real>, viewProjMat: seq<real>, slopeY: real, aspectRatio: real)
      requires Valid() && |viewMat| >= 16 && |viewProjMat| >= 16
      modifies uniforms.floatView, uniforms.intView
      ensures Valid()
      ensures uniforms.floatView[..16] == viewProjMat[..16]
      ensures uniforms.floatView[16..32] == viewMat[..16]
      ensures uniforms.floatView[NearFarSlots.start] == NearPlane
      ensures uniforms.floatView[NearFarSlots.start + 1] == settings.fauxFarPlane
      ensures uniforms.floatView[FrustumSlopeXSlot.start] == aspectRatio * slopeY
      ensures uniforms.floatView[FrustumSlopeYSlot.start] == slopeY
      ensures uniforms.floatView[ExposureOffsetSlot.start] == settings.exposureOffset
      ensures forall k :: FloatPaddingSlots.Contains(k) ==> uniforms.floatView[k] == old(uniforms.floatView[k])
      ensures uniforms.intView[..7] == IntPayload(settings.clusterParams, settings.lightSearchRadius)
      ensures uniforms.intView[IntPaddingSlots.start] == old(uniforms.intView[IntPaddingSlots.start])
    {
      uniforms.SetViewProjMat(viewProjMat);
      uniforms.SetViewMat(viewMat);
      uniforms.SetNearFar([NearPlane, settings.fauxFarPlane]);
      uniforms.SetExposureOffset(settings.exposureOffset);
      uniforms.SetFrustumSlopeY(slopeY);
      uniforms.SetFrustumSlopeX(aspectRatio * slopeY);
      uniforms.SetDevClusterParams(settings.clusterParams, settings.lightSearchRadius);
      assert uniforms.floatView[..16] == viewProjMat[..16];
      assert uniforms.floatView[16..32] == viewMat[..16];
    }
  }
}
