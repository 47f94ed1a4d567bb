/**
 * The particle blend modes and the fixed table that turns each into the pair of
 * graphics blend factors a render object carries.
 */
module Blend {
  import opened ParticleTypes

  /**
   * `dmParticleDDF::BlendMode`. `BlendModeOther(code)` stands for a value that
   * is none of the four named enumerators: `code` is never the number of one
   * of them, since a run carrying such a number is the named mode itself.
   */
  datatype BlendMode =
    | BlendModeAlpha
    | BlendModeAdd
    | BlendModeAddAlpha
    | BlendModeMult
    | BlendModeOther(code: int)

  /** `dmGraphics::BlendFactor`. */
  datatype BlendFactor =
    | BlendFactorZero
    | BlendFactorOne
    | BlendFactorSrcColor
    | BlendFactorOneMinusSrcColor
    | BlendFactorDstColor
    | BlendFactorOneMinusDstColor
    | BlendFactorSrcAlpha
    | BlendFactorOneMinusSrcAlpha
    | BlendFactorDstAlpha
    | BlendFactorOneMinusDstAlpha
    | BlendFactorSrcAlphaSaturate

  datatype FactorPair = FactorPair(source: BlendFactor, destination: BlendFactor)

  predicate IsKnownMode(mode: BlendMode) {
    !mode.BlendModeOther?
  }

  /** The blend-factor table: one (source, destination) pair per known mode, nothing otherwise. */
  function FactorsFor(mode: BlendMode): (r: Option<FactorPair>)
    ensures r.Some? <==> IsKnownMode(mode)
  {
    match mode
    case BlendModeAlpha => Some(FactorPair(BlendFactorSrcAlpha, BlendFactorOneMinusSrcAlpha))
    case BlendModeAdd => Some(FactorPair(BlendFactorOne, BlendFactorOne))
    case BlendModeAddAlpha => Some(FactorPair(BlendFactorSrcAlpha, BlendFactorOne))
    case BlendModeMult => Some(FactorPair(BlendFactorZero, BlendFactorSrcColor))
    case BlendModeOther(_) => None
  }

  /** The table is injective: distinct known modes give distinct factor pairs. */
  lemma FactorsForInjective(m1: BlendMode, m2: BlendMode)
    requires IsKnownMode(m1) && IsKnownMode(m2)
    requires FactorsFor(m1) == FactorsFor(m2)
    ensures m1 == m2
  {
  }
}
