/** The detection window: its duration in milliseconds, read from the parameter
    file, and its length in samples, `N_t` (circus/files/datafile.py:142-149). */
module Window {
  import opened Wrappers
  import opened Errors
  import opened Params

  /** Python's `int(x)` on a float: truncation towards zero. */
  function Trunc(x: real): (n: int)
    ensures x >= 0.0 ==> 0 <= n && n as real <= x < n as real + 1.0
    ensures x < 0.0 ==> n <= 0 && n as real - 1.0 < x <= n as real
  {
    if x >= 0.0 then x.Floor else -((-x).Floor)
  }

  /** `rate * duration * 1e-3`: the window in (fractional) samples. */
  function Samples(rate: real, durationMs: real): real {
    rate * durationMs * 0.001
  }

  /** The window length in samples for `rate` Hz and a duration in ms: the truncated
      sample count, made odd by adding one when it is even. */
  function WindowLength(rate: real, durationMs: real): (n: int)
    ensures n % 2 == 1
    ensures n - Trunc(Samples(rate, durationMs)) in {0, 1}
    ensures rate * durationMs >= 0.0 ==> n >= 1
  {
    var n := Trunc(Samples(rate, durationMs));
    if n % 2 == 0 then n + 1 else n
  }

  /** The duration in ms: `[detection] N_t`, or `[data] N_t` when the first lookup fails
      for any reason; the error of the second lookup otherwise. */
  function Duration(cfg: Config): Result<real, Error> {
    match GetFloat(cfg, "detection", "N_t")
    case Success(d) => Success(d)
    case Failure(_) => GetFloat(cfg, "data", "N_t")
  }

  /** The configuration keys that reading the duration consults, in order. */
  function DurationKeys(cfg: Config): (keys: seq<(string, string)>)
    ensures |keys| >= 1 && keys[0] == ("detection", "N_t")
    ensures |keys| <= 2
    ensures |keys| == 2 <==> GetFloat(cfg, "detection", "N_t").Failure?
    ensures |keys| == 2 ==> keys[1] == ("data", "N_t")
  {
    [("detection", "N_t")] + if GetFloat(cfg, "detection", "N_t").Failure? then [("data", "N_t")] else []
  }

  /** `N_t` as it is computed on first access. */
  function WindowFromConfig(cfg: Config, rate: real): Result<int, Error> {
    var d :- Duration(cfg);
    Success(WindowLength(rate, d))
  }

  /** The duration falls back to [data] only after [detection] fails, and fails only
      when both fail. */
  lemma DurationFallback(cfg: Config)
    ensures GetFloat(cfg, "detection", "N_t").Success? ==> Duration(cfg) == GetFloat(cfg, "detection", "N_t")
    ensures GetFloat(cfg, "detection", "N_t").Failure? ==> Duration(cfg) == GetFloat(cfg, "data", "N_t")
    ensures Duration(cfg).Failure? <==>
            GetFloat(cfg, "detection", "N_t").Failure? && GetFloat(cfg, "data", "N_t").Failure?
  {
  }

  /** 20 kHz and 1 ms give 20 samples, corrected to 21. */
  lemma WindowLengthExample()
    ensures WindowLength(20000.0, 1.0) == 21
    ensures (WindowLength(20000.0, 1.0) - 1) / 2 == 10
  {
  }

  /** The sample count is truncated, not rounded: 21.8 samples give 21, where rounding
      would give 22 and then 23. */
  lemma WindowLengthTruncates()
    ensures WindowLength(20000.0, 1.09) == 21
  {
  }
}
