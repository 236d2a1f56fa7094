/** The values the renderer exchanges with the rest of the app: the six
    stimulus parameters it exposes and the uniform record it hands to the
    fragment shader every frame. Single-precision floats are modelled as
    reals. */
module Grating {

  /** A two-lane float vector (`SIMD2<Float>`). */
  datatype Float2 = Float2(x: real, y: real)

  const Zero2: Float2 := Float2(0.0, 0.0)

  /** The uniform block `GratingUniforms`, field for field. The source's
      `_pad` lane is called `pad` here; it only exists for GPU alignment. */
  datatype GratingUniforms = GratingUniforms(
    resolution: Float2,
    frequency: real,
    orientation: real,
    phase: real,
    mean: real,
    contrast: real,
    pad: Float2)

  /** `GratingUniforms()`: the record with every field at its declared default. */
  const DefaultUniforms: GratingUniforms :=
    GratingUniforms(Zero2, 0.01, 0.0, 0.0, 0.5, 1.0, Zero2)

  /** A snapshot of the renderer's six public parameter fields: spatial
      frequency in cycles per pixel, orientation in radians, contrast, mean
      luminance, whether the grating drifts, and the drift speed in radians
      per second. */
  datatype Parameters = Parameters(
    frequency: real,
    orientationRadians: real,
    contrast: real,
    mean: real,
    driftEnabled: bool,
    phaseVelocity: real)

  /** The values the renderer's parameter fields are declared with. */
  const DefaultParameters: Parameters :=
    Parameters(0.01, 0.0, 1.0, 0.5, false, 0.0)

  /** The uniform fill of one frame: start from `GratingUniforms()` and
      overwrite every field except the padding. The result is a
      field-for-field projection of the parameter snapshot, the drawable
      size and the current phase; out-of-range values pass through
      unchanged, and the padding keeps its zero default. */
  function Pack(p: Parameters, phase: real, width: real, height: real): (u: GratingUniforms)
    ensures u.resolution == Float2(width, height)
    ensures u.frequency == p.frequency
    ensures u.orientation == p.orientationRadians
    ensures u.phase == phase
    ensures u.mean == p.mean
    ensures u.contrast == p.contrast
    ensures u.pad == Zero2
  {
    DefaultUniforms.(
      resolution := Float2(width, height),
      frequency := p.frequency,
      orientation := p.orientationRadians,
      phase := phase,
      mean := p.mean,
      contrast := p.contrast)
  }

  /** The drift switch and the drift speed reach the shader only through the
      phase: two snapshots that differ only in them pack to the same record. */
  lemma PackIgnoresDriftSettings(p: Parameters, q: Parameters, phase: real, width: real, height: real)
    requires p.frequency == q.frequency && p.orientationRadians == q.orientationRadians
    requires p.contrast == q.contrast && p.mean == q.mean
    ensures Pack(p, phase, width, height) == Pack(q, phase, width, height)
  {
  }

  /** Packing loses nothing but the padding: equal records come from equal
      sizes, equal phases and equal shader-visible parameters. */
  lemma PackInjective(p: Parameters, q: Parameters, ph: real, ph': real, w: real, w': real, h: real, h': real)
    requires Pack(p, ph, w, h) == Pack(q, ph', w', h')
    ensures w == w' && h == h' && ph == ph'
    ensures p.frequency == q.frequency && p.orientationRadians == q.orientationRadians
    ensures p.contrast == q.contrast && p.mean == q.mean
  {
  }
}
