/** The Metal view delegate: the renderer object that owns the phase state,
    exposes the six stimulus parameters as public fields, and on every
    refresh callback steps the phase and refills the uniform buffer. Metal
    objects are reduced to whether each one could be obtained. */
module FrameDriver {

  import opened Wrappers
  import opened Grating
  import opened PhaseIntegrator

  /** Whether each Metal prerequisite of initialisation is available: the
      view's device, a command queue, a shared buffer of the size of the
      uniform record, the default shader library, and a render pipeline
      built from it. */
  datatype MetalSetup = MetalSetup(
    hasDevice: bool,
    makesCommandQueue: bool,
    makesUniformBuffer: bool,
    hasDefaultLibrary: bool,
    pipelineCompiles: bool)
  {
    predicate Complete()
    {
      hasDevice && makesCommandQueue && makesUniformBuffer && hasDefaultLibrary && pipelineCompiles
    }
  }

  /** What one refresh callback finds: whether the view has a current
      drawable and render-pass descriptor, the drawable's size in pixels,
      and whether a command buffer and a render encoder can be made. */
  datatype Refresh = Refresh(
    hasDrawable: bool,
    hasRenderPassDescriptor: bool,
    drawableWidth: real,
    drawableHeight: real,
    makesCommandBuffer: bool,
    makesEncoder: bool)
  {
    predicate HasSurface()
    {
      hasDrawable && hasRenderPassDescriptor
    }

    predicate CanEncode()
    {
      makesCommandBuffer && makesEncoder
    }
  }

  class Renderer {
    var frequency: real
    var orientationRadians: real
    var contrast: real
    var mean: real
    var driftEnabled: bool
    var phaseVelocity: real

    var phase: real
    var lastTime: Option<real>

    /** The contents of the shared uniform buffer; None until the first
        frame writes it. */
    var uniformBuffer: Option<GratingUniforms>

    /** The phase bound that the wrap keeps from the initial phase 0 on. */
    ghost predicate Valid()
      reads this
    {
      phase <= PhaseBound
    }

    /** The public parameter fields, as one snapshot. */
    function CurrentParameters(): Parameters
      reads this
    {
      Parameters(frequency, orientationRadians, contrast, mean, driftEnabled, phaseVelocity)
    }

    /** The private time-step state. */
    function CurrentState(): PhaseState
      reads this
    {
      PhaseState(phase, lastTime)
    }

    /** Every field at its declared default, no frame rendered yet. */
    constructor ()
      ensures Valid()
      ensures CurrentParameters() == DefaultParameters
      ensures CurrentState() == InitialState
      ensures uniformBuffer == None
    {
      frequency := 0.01;
      orientationRadians := 0.0;
      contrast := 1.0;
      mean := 0.5;
      driftEnabled := false;
      phaseVelocity := 0.0;
      phase := 0.0;
      lastTime := None;
      uniformBuffer := None;
    }

    /** The failable initialiser: no renderer at all unless every Metal
        prerequisite is there; otherwise a renderer in its initial state. */
    static method Create(setup: MetalSetup) returns (r: Renderer?)
      ensures (r != null) == setup.Complete()
      ensures r != null ==> fresh(r) && r.Valid()
      ensures r != null ==> r.CurrentParameters() == DefaultParameters
      ensures r != null ==> r.CurrentState() == InitialState && r.uniformBuffer == None
    {
      if !setup.hasDevice { return null; }
      if !setup.makesCommandQueue { return null; }
      if !setup.makesUniformBuffer { return null; }
      if !setup.hasDefaultLibrary { return null; }
      if !setup.pipelineCompiles { return null; }
      r := new Renderer();
    }

    /** One refresh callback at time `now`. Without a drawable or a
        render-pass descriptor the frame is skipped and nothing changes.
        Otherwise the state takes one Step with the current parameters, the
        uniform buffer receives the packed record (returned as `uploaded`),
        and the frame is presented exactly when a command buffer and an
        encoder can be made; a failure there comes after the state has
        already advanced. The parameter fields are never written. */
    method Draw(now: real, refresh: Refresh) returns (uploaded: Option<GratingUniforms>, presented: bool)
      modifies this
      ensures old(Valid()) ==> Valid()
      ensures CurrentParameters() == old(CurrentParameters())
      ensures !refresh.HasSurface() ==>
        uploaded == None && !presented &&
        CurrentState() == old(CurrentState()) && uniformBuffer == old(uniformBuffer)
      ensures refresh.HasSurface() ==>
        CurrentState() == Step(old(CurrentState()), old(CurrentParameters()), now) &&
        uploaded == Some(Pack(CurrentParameters(), phase, refresh.drawableWidth, refresh.drawableHeight)) &&
        uniformBuffer == uploaded &&
        presented == refresh.CanEncode()
    {
      if !(refresh.hasDrawable && refresh.hasRenderPassDescriptor) {
        return None, false;
      }

      var dt := TimeStep(lastTime, now);
      lastTime := Some(now);

      ghost var next := Advance(phase, dt, driftEnabled, phaseVelocity);
      if driftEnabled {
        ghost var moved := phase + phaseVelocity * dt;
        AdvanceDrifting(phase, dt, phaseVelocity, moved);
        phase := phase + phaseVelocity * dt;
        assert phase == moved;
        if phase > PhaseBound {
          phase := TruncatingRemainder(phase);
        }
        assert phase == Wrap(moved);
      }
      assert phase == next;

      var u := DefaultUniforms;
      u := u.(resolution := Float2(refresh.drawableWidth, refresh.drawableHeight));
      u := u.(frequency := frequency);
      u := u.(orientation := orientationRadians);
      u := u.(phase := phase);
      u := u.(mean := mean);
      u := u.(contrast := contrast);

      uniformBuffer := Some(u);
      uploaded := Some(u);

      if !(refresh.makesCommandBuffer && refresh.makesEncoder) {
        return uploaded, false;
      }
      presented := true;
    }
  }

  /** Callbacks on a fresh renderer with drift switched on at 2 rad/s: the
      first only records its timestamp; one without a surface changes
      nothing; one whose encoder cannot be made still advances the phase by
      velocity times the time since the first. */
  method DriftingClient()
  {
    var r := new Renderer();
    r.driftEnabled := true;
    r.phaseVelocity := 2.0;
    var u, shown := r.Draw(10.0, Refresh(true, true, 390.0, 844.0, true, true));
    assert r.phase == 0.0 && r.lastTime == Some(10.0) && shown;
    assert u == Some(GratingUniforms(Float2(390.0, 844.0), 0.01, 0.0, 0.0, 0.5, 1.0, Zero2));
    u, shown := r.Draw(10.25, Refresh(false, true, 390.0, 844.0, true, true));
    assert u == None && r.phase == 0.0 && r.lastTime == Some(10.0);
    u, shown := r.Draw(10.5, Refresh(true, true, 390.0, 844.0, false, true));
    assert r.phase == 1.0 && r.lastTime == Some(10.5) && !shown;
    assert u.Some? && u.value.phase == 1.0;
  }
}
