/**
 * Which Brave sampler the configuration provides. The fallback bean never
 * samples; a configured probability wins over the configured rate, both for the
 * fixed sampler and for the refresh-scoped one, which reads the configuration
 * each time it decides.
 */
module SamplerConfiguration {

  import opened Wrappers

  /** The sampler properties: an optional probability and a rate of traces per second. */
  datatype SamplerProperties = SamplerProperties(probability: Option<real>, rate: int)

  /** The samplers the configuration can hand out. */
  datatype Sampler =
    | NeverSample
    /** Brave's counting sampler created for a fixed probability. */
    | CountingSampler(probability: real)
    /** Brave's rate-limiting sampler created for a fixed rate. */
    | RateLimitingSampler(rate: int)
    /** Samples by the probability the configuration holds when asked. */
    | ProbabilityBasedSampler(config: SamplerProperties)
    /** Samples by the rate the configuration holds when asked. */
    | RefreshedRateLimitingSampler(config: SamplerProperties)

  /** The sampler bean used when no other sampler is configured. */
  function SleuthTraceSampler(): (r: Sampler)
    ensures r.NeverSample?
  {
    NeverSample
  }

  /** The fixed sampler: counting at the probability when one is set, rate-limiting otherwise. */
  function SamplerFromProps(config: SamplerProperties): (r: Sampler)
    ensures r.CountingSampler? <==> config.probability.Some?
    ensures r.CountingSampler? ==> r.probability == config.probability.value
    ensures r.RateLimitingSampler? <==> config.probability.None?
    ensures r.RateLimitingSampler? ==> r.rate == config.rate
  {
    if config.probability.Some? then CountingSampler(config.probability.value) else RateLimitingSampler(config.rate)
  }

  /** The refresh-scoped sampler: probability-based when a probability is set, rate-limiting otherwise. */
  function RefreshScopedSampler(config: SamplerProperties): (r: Sampler)
    ensures r.ProbabilityBasedSampler? <==> config.probability.Some?
    ensures r.RefreshedRateLimitingSampler? <==> config.probability.None?
    ensures r.ProbabilityBasedSampler? || r.RefreshedRateLimitingSampler?
    ensures r.config == config
  {
    if config.probability.Some? then ProbabilityBasedSampler(config) else RefreshedRateLimitingSampler(config)
  }

  /** What a sampler decides by: a probability, a rate, or nothing (it never samples). */
  datatype Setting = ByProbability(probability: real) | ByRate(rate: int) | NoSetting

  /** The setting a sampler decides by, as it reads it when asked. */
  function SettingOf(s: Sampler): Setting
  {
    match s
    case NeverSample => NoSetting
    case CountingSampler(p) => ByProbability(p)
    case RateLimitingSampler(rate) => ByRate(rate)
    case ProbabilityBasedSampler(config) => if config.probability.Some? then ByProbability(config.probability.value) else NoSetting
    case RefreshedRateLimitingSampler(config) => ByRate(config.rate)
  }

  /**
   * Both variants follow the same precedence: they limit by probability, or by
   * rate, in the same cases, and decide by the same configured value.
   */
  lemma SamePrecedence(config: SamplerProperties)
    ensures SamplerFromProps(config).CountingSampler? <==> RefreshScopedSampler(config).ProbabilityBasedSampler?
    ensures SamplerFromProps(config).RateLimitingSampler? <==> RefreshScopedSampler(config).RefreshedRateLimitingSampler?
    ensures SettingOf(SamplerFromProps(config)) == SettingOf(RefreshScopedSampler(config))
    ensures SettingOf(SamplerFromProps(config)) == if config.probability.Some? then ByProbability(config.probability.value) else ByRate(config.rate)
  {
  }
}
