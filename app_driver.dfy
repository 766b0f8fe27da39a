/** The renderer switching of src/main.ts: the module-level `renderer` and
    `paused` variables, gathered into one driver object.

    The value of the render-mode drop-down and the canvas size are read from
    the page in the source; here they are parameters. */
module AppDriver {
  import opened ClusterGrid
  import opened CameraState
  import opened RenderLoop

  datatype Option<T> = None | Some(value: T)

  /** The drop-down label of each render mode. */
  function ModeName(m: RenderMode): string {
    match m
    case Naive => "naive"
    case ForwardPlus => "forward+"
    case ClusteredDeferred => "clustered deferred"
  }

  /** The mode a drop-down value selects, if any; matching is exact string equality. */
  function ParseMode(s: string): (r: Option<RenderMode>)
    ensures r.Some? ==> ModeName(r.value) == s
    ensures r.None? ==> forall m :: ModeName(m) != s
  {
    if s == ModeName(Naive) then Some(Naive)
    else if s == ModeName(ForwardPlus) then Some(ForwardPlus)
    else if s == ModeName(ClusteredDeferred) then Some(ClusteredDeferred)
    else None
  }

  /** Every mode's label selects that mode, and no other. */
  lemma ParseModeName(m: RenderMode)
    ensures ParseMode(ModeName(m)) == Some(m)
    ensures forall n :: n != m ==> ModeName(n) != ModeName(m)
  {
  }

  /** Labels outside the three modes, such as a capitalised one, select nothing. */
  lemma ParseModeRejects()
    ensures ParseMode("").None? && ParseMode("Naive").None? && ParseMode("forward").None?
  {
    assert "Naive"[0] != "naive"[0];
    assert |"forward"| != |"forward+"|;
  }

  class Driver {
    /** The active renderer; null before the first one is built. */
    var renderer: Renderer?
    var paused: bool
    const settings: CameraSettings
    /** Every renderer the driver has built. */
    ghost var built: set<Renderer>

    /** Only the active renderer can have a frame pending. */
    ghost predicate Valid()
      reads this, built
    {
      && (renderer != null ==> renderer in built)
      && (forall r :: r in built && r.scheduled ==> r == renderer)
    }

    ghost predicate AtMostOneScheduled()
      reads this, built
    {
      forall r1, r2 :: r1 in built && r2 in built && r1.scheduled && r2.scheduled ==> r1 == r2
    }

    lemma ValidAtMostOneScheduled()
      requires Valid()
      ensures AtMostOneScheduled()
    {
    }

    constructor (settings: CameraSettings)
      ensures Valid() && AtMostOneScheduled()
      ensures this.settings == settings
      ensures renderer == null && !paused && built == {}
    {
      this.settings := settings;
      renderer := null;
      paused := false;
      built := {};
    }

    /** Stops the active renderer, then builds the selected one; an unknown
        mode leaves the (now stopped) renderer in place. */
    method SetRenderer(mode: string)
      requires Valid()
      modifies this, built
      ensures Valid() && AtMostOneScheduled()
      ensures paused == old(paused)
      ensures old(renderer) != null ==> !old(renderer).scheduled
      ensures ParseMode(mode).None? ==> renderer == old(renderer) && built == old(built)
      ensures ParseMode(mode).Some? ==>
        && renderer != null && fresh(renderer)
        && renderer.mode == ParseMode(mode).value
        && renderer.scheduled && renderer.prevTime == 0.0
        && renderer.builtWith == settings.clusterParams
        && built == old(built) + {renderer}
      ensures forall r :: r in old(built) ==> r.prevTime == old(r.prevTime)
    {
      if renderer != null {
        renderer.Stop();
      }
      match ParseMode(mode)
      case Some(m) =>
        renderer := new Renderer(m, settings.clusterParams);
        built := built + {renderer};
      case None =>
    }

    /** The pause checkbox handler as written: a true value rebuilds the
        selected renderer and a false value stops the active one. */
    method ToggleRenderer(val: bool, selected: string)
      requires Valid()
      modifies this, built
      ensures Valid() && AtMostOneScheduled()
      ensures paused == val
      ensures old(renderer) != null ==> !old(renderer).scheduled
      ensures !val ==> renderer == old(renderer) && built == old(built)
      ensures !val ==> forall r :: r in built ==> !r.scheduled
      ensures val && ParseMode(selected).None? ==> renderer == old(renderer) && built == old(built)
      ensures val && ParseMode(selected).Some? ==>
        && renderer != null && fresh(renderer)
        && renderer.mode == ParseMode(selected).value
        && renderer.scheduled && renderer.prevTime == 0.0
        && renderer.builtWith == settings.clusterParams
        && built == old(built) + {renderer}
      ensures forall r :: r in old(built) ==> r.prevTime == old(r.prevTime)
    {
      if val {
        SetRenderer(selected);
      } else if renderer != null {
        renderer.Stop();
      }
      paused := val;
    }

    /** The pause handler with the evident intent: pausing stops the active
        renderer and resuming rebuilds the selected one. */
    method ToggleRendererAsIntended(val: bool, selected: string)
      requires Valid()
      modifies this, built
      ensures Valid() && AtMostOneScheduled()
      ensures paused == val
      ensures val ==> renderer == old(renderer) && built == old(built)
      ensures val ==> forall r :: r in built ==> !r.scheduled
      ensures !val && ParseMode(selected).None? ==> renderer == old(renderer) && built == old(built)
      ensures !val && ParseMode(selected).Some? ==>
        && renderer != null && fresh(renderer)
        && renderer.mode == ParseMode(selected).value
        && renderer.scheduled && renderer.prevTime == 0.0
        && renderer.builtWith == settings.clusterParams
        && built == old(built) + {renderer}
      ensures forall r :: r in old(built) ==> r.prevTime == old(r.prevTime)
    {
      if val {
        if renderer != null {
          renderer.Stop();
        }
      } else {
        SetRenderer(selected);
      }
      paused := val;
    }

    /** Stops the active renderer, recomputes the grid for the new size, then
        rebuilds the selected renderer, which therefore sees the new grid. */
    method ChangeClusterSize(val: int, canvasWidth: nat, canvasHeight: nat, selected: string)
      requires Valid() && val > 0
      modifies this, built, settings
      ensures Valid() && AtMostOneScheduled()
      ensures paused == old(paused)
      ensures old(renderer) != null ==> !old(renderer).scheduled
      ensures settings.clusterSize == val
      ensures settings.clusterParams == GetClusterParams(val, canvasWidth, canvasHeight)
      ensures ParseMode(selected).None? ==> renderer == old(renderer) && built == old(built)
      ensures ParseMode(selected).Some? ==>
        && renderer != null && fresh(renderer)
        && renderer.mode == ParseMode(selected).value
        && renderer.scheduled && renderer.prevTime == 0.0
        && renderer.builtWith == GetClusterParams(val, canvasWidth, canvasHeight)
        && built == old(built) + {renderer}
      ensures settings.exposureOffset == old(settings.exposureOffset)
      ensures settings.fauxFarPlane == old(settings.fauxFarPlane)
      ensures settings.lightSearchRadius == old(settings.lightSearchRadius)
      ensures forall r :: r in old(built) ==> r.prevTime == old(r.prevTime)
    {
      if renderer != null {
        renderer.Stop();
      }
      settings.UpdateClusterSize(val, canvasWidth, canvasHeight);
      SetRenderer(selected);
    }

    /** The browser fires the pending frame request; only the active renderer has one. */
    method AnimationFrame(r: Renderer, time: real) returns (deltaTime: real)
      requires Valid() && r in built && r.scheduled
      modifies r
      ensures Valid() && AtMostOneScheduled()
      ensures r == renderer
      ensures deltaTime == FrameDelta(old(r.prevTime), time)
      ensures r.prevTime == time && r.scheduled
    {
      deltaTime := r.OnFrame(time);
    }
  }

  /** Checking the pause box as written leaves a renderer running while the
      driver reports itself paused. */
  method PauseAsWrittenKeepsRendering() returns (d: Driver)
    ensures d.paused && d.renderer != null && d.renderer.scheduled
  {
    var settings := new CameraSettings();
    d := new Driver(settings);
    d.SetRenderer(ModeName(ForwardPlus));
    ParseModeName(ForwardPlus);
    d.ToggleRenderer(true, ModeName(ForwardPlus));
  }

  /** With the intended handler, a paused driver has no frame pending at all. */
  method PauseAsIntendedStopsRendering() returns (d: Driver)
    ensures d.paused && d.renderer != null && !d.renderer.scheduled
    ensures d.Valid() && forall r :: r in d.built ==> !r.scheduled
  {
    var settings := new CameraSettings();
    d := new Driver(settings);
    d.SetRenderer(ModeName(ForwardPlus));
    ParseModeName(ForwardPlus);
    d.ToggleRendererAsIntended(true, ModeName(ForwardPlus));
  }
}
