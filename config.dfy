/**
 * Tier codes and the gateway's settings, as app/core/config.py computes them
 * once at import time from the process environment.
 *
 * The environment is given already parsed: every variable is `None` when
 * unset and otherwise the integer (or, for ABNORMAL_LABELS, the list) that
 * `int(...)` or `json.loads(...)` produced.
 */
module GatewayConfig {
  import opened Wrappers

  const SENSOR_INFERENCE_LAYER: int := 0
  const GATEWAY_INFERENCE_LAYER: int := 1
  const CLOUD_INFERENCE_LAYER: int := 2
  const HEURISTIC_ERROR_CODE: int := -1

  /** One of the three inference layers a verdict may name. */
  predicate IsTier(t: int) {
    t == SENSOR_INFERENCE_LAYER || t == GATEWAY_INFERENCE_LAYER || t == CLOUD_INFERENCE_LAYER
  }

  lemma TierCodesOrdered()
    ensures SENSOR_INFERENCE_LAYER < GATEWAY_INFERENCE_LAYER < CLOUD_INFERENCE_LAYER
    ensures !IsTier(HEURISTIC_ERROR_CODE)
  {
  }

  /** The environment variables the core reads, after parsing. */
  datatype Environment = Environment(
    adaptiveInference: Option<int>,
    historyLength: Option<int>,
    normalThreshold: Option<int>,
    abnormalThreshold: Option<int>,
    abnormalLabels: Option<seq<int>>,
    numWorkers: Option<int>,
    maxQueueSize: Option<int>)

  const Unset := Environment(None, None, None, None, None, None, None)

  /**
   * The loaded configuration: ADAPTIVE_INFERENCE, m = PREDICTION_HISTORY_LENGTH,
   * phiG = NORMAL_PREDICTION_THRESHOLD, psiG = ABNORMAL_PREDICTION_THRESHOLD,
   * ABNORMAL_LABELS, CELERY_NUM_WORKERS and psiQ = MAX_INFERENCE_QUEUE_SIZE.
   */
  datatype Settings = Settings(
    adaptiveInference: bool,
    m: int,
    phiG: int,
    psiG: int,
    abnormalLabels: seq<int>,
    numWorkers: int,
    psiQ: int)

  function Max(a: int, b: int): int { if a >= b then a else b }

  function Min(a: int, b: int): int { if a <= b then a else b }

  /**
   * The module-level assignments of config.py. The normal threshold is
   * raised to at least 1 and the abnormal threshold lowered to at most the
   * history length; nothing relates the two thresholds to each other.
   */
  function Load(env: Environment): (s: Settings)
    ensures s.m == env.historyLength.GetOr(16)
    ensures s.phiG >= 1
    ensures env.normalThreshold.GetOr(2) >= 1 ==> s.phiG == env.normalThreshold.GetOr(2)
    ensures env.normalThreshold.GetOr(2) < 1 ==> s.phiG == 1
    ensures s.psiG <= s.m
    ensures env.abnormalThreshold.GetOr(8) <= s.m ==> s.psiG == env.abnormalThreshold.GetOr(8)
    ensures env.abnormalThreshold.GetOr(8) > s.m ==> s.psiG == s.m
    ensures s.adaptiveInference <==> env.adaptiveInference.GetOr(0) != 0
    ensures s.abnormalLabels == env.abnormalLabels.GetOr([2, 3])
    ensures s.numWorkers == env.numWorkers.GetOr(1)
    ensures s.psiQ == env.maxQueueSize.GetOr(10)
  {
    var m := env.historyLength.GetOr(16);
    Settings(
      env.adaptiveInference.GetOr(0) != 0,  // bool(int(v))
      m,
      Max(env.normalThreshold.GetOr(2), 1),
      Min(env.abnormalThreshold.GetOr(8), m),
      env.abnormalLabels.GetOr([2, 3]),
      env.numWorkers.GetOr(1),
      env.maxQueueSize.GetOr(10))
  }

  /** With no variable set, the defaults of config.py apply. */
  lemma DefaultSettings()
    ensures Load(Unset) == Settings(false, 16, 2, 8, [2, 3], 1, 10)
  {
  }

  /** The environment that would reproduce `s` when loaded again. */
  function Export(s: Settings): Environment {
    Environment(Some(if s.adaptiveInference then 1 else 0), Some(s.m), Some(s.phiG), Some(s.psiG),
                Some(s.abnormalLabels), Some(s.numWorkers), Some(s.psiQ))
  }

  /** The clamps are idempotent: loading already-clamped values changes nothing. */
  lemma LoadIsIdempotent(env: Environment)
    ensures Load(Export(Load(env))) == Load(env)
  {
  }

  /**
   * The thresholds may end up inverted (phiG > psiG): for example a history
   * length of 1 forces psiG <= 1 while phiG keeps its default of 2.
   */
  lemma InvertedThresholdsAccepted()
    ensures var s := Load(Environment(None, Some(1), None, None, None, None, None));
            s.phiG == 2 && s.psiG == 1 && s.phiG > s.psiG
  {
  }
}
