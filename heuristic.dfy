/**
 * The gateway adaptive inference heuristic of app/utils.py: after every
 * prediction it advances the device's warm-up counter and flag history and
 * picks the inference layer (sensor, gateway or cloud) for the device's next
 * reading from a first-match decision table.
 */
module Heuristic {
  import opened Wrappers
  import opened GatewayConfig
  import opened DecisionState

  /**
   * The decision table: q is the queue depth, u the warm-up counter, sigma the
   * number of abnormal flags in the history, m the history length, psiQ the
   * maximum queue size, phiG and psiG the normal and abnormal thresholds.
   */
  function Decide(q: int, u: int, sigma: int, lowBattery: bool, m: int, psiQ: int, phiG: int, psiG: int): (tier: int)
    ensures IsTier(tier)
    ensures tier != HEURISTIC_ERROR_CODE
  {
    if q >= psiQ then CLOUD_INFERENCE_LAYER
    else if u < m then GATEWAY_INFERENCE_LAYER
    else if sigma < phiG then
      (if lowBattery then GATEWAY_INFERENCE_LAYER else SENSOR_INFERENCE_LAYER)
    else if phiG <= sigma && sigma < psiG then GATEWAY_INFERENCE_LAYER
    else CLOUD_INFERENCE_LAYER
  }

  /** A saturated queue sends the device to the cloud whatever the other inputs. */
  lemma SaturationDominates(q: int, u: int, sigma: int, lowBattery: bool, m: int, psiQ: int, phiG: int, psiG: int)
    requires q >= psiQ
    ensures Decide(q, u, sigma, lowBattery, m, psiQ, phiG, psiG) == CLOUD_INFERENCE_LAYER
  {
  }

  /** Below saturation, an unfinished warm-up keeps the device at the gateway. */
  lemma WarmupDominates(q: int, u: int, sigma: int, lowBattery: bool, m: int, psiQ: int, phiG: int, psiG: int)
    requires q < psiQ && u < m
    ensures Decide(q, u, sigma, lowBattery, m, psiQ, phiG, psiG) == GATEWAY_INFERENCE_LAYER
  {
  }

  /** After warm-up and below saturation the verdict depends on sigma's band and the battery. */
  lemma SettledVerdict(q: int, u: int, sigma: int, lowBattery: bool, m: int, psiQ: int, phiG: int, psiG: int)
    requires q < psiQ && u >= m
    ensures sigma < phiG ==> Decide(q, u, sigma, lowBattery, m, psiQ, phiG, psiG) ==
                             (if lowBattery then GATEWAY_INFERENCE_LAYER else SENSOR_INFERENCE_LAYER)
    ensures phiG <= sigma < psiG ==> Decide(q, u, sigma, lowBattery, m, psiQ, phiG, psiG) == GATEWAY_INFERENCE_LAYER
    ensures sigma >= phiG && sigma >= psiG ==> Decide(q, u, sigma, lowBattery, m, psiQ, phiG, psiG) == CLOUD_INFERENCE_LAYER
  {
  }

  /** The sensor is chosen exactly when the device is settled, mostly normal and not low on battery. */
  lemma SensorExactly(q: int, u: int, sigma: int, lowBattery: bool, m: int, psiQ: int, phiG: int, psiG: int)
    ensures Decide(q, u, sigma, lowBattery, m, psiQ, phiG, psiG) == SENSOR_INFERENCE_LAYER <==>
            q < psiQ && u >= m && sigma < phiG && !lowBattery
  {
  }

  /** The cloud is chosen exactly on saturation or a settled, persistently abnormal history. */
  lemma CloudExactly(q: int, u: int, sigma: int, lowBattery: bool, m: int, psiQ: int, phiG: int, psiG: int)
    ensures Decide(q, u, sigma, lowBattery, m, psiQ, phiG, psiG) == CLOUD_INFERENCE_LAYER <==>
            q >= psiQ || (u >= m && sigma >= phiG && sigma >= psiG)
  {
  }

  /** More abnormal flags never move the verdict to a lower tier, whatever the thresholds. */
  lemma MonotoneInSigma(q: int, u: int, sigma: int, sigma': int, lowBattery: bool, m: int, psiQ: int, phiG: int, psiG: int)
    requires sigma <= sigma'
    ensures Decide(q, u, sigma, lowBattery, m, psiQ, phiG, psiG) <= Decide(q, u, sigma', lowBattery, m, psiQ, phiG, psiG)
  {
  }

  /** A longer queue never moves the verdict to a lower tier. */
  lemma MonotoneInQueue(q: int, q': int, u: int, sigma: int, lowBattery: bool, m: int, psiQ: int, phiG: int, psiG: int)
    requires q <= q'
    ensures Decide(q, u, sigma, lowBattery, m, psiQ, phiG, psiG) <= Decide(q', u, sigma, lowBattery, m, psiQ, phiG, psiG)
  {
  }

  /** A low battery only ever lifts a sensor verdict to the gateway. */
  lemma LowBatteryOnlyLiftsSensor(q: int, u: int, sigma: int, m: int, psiQ: int, phiG: int, psiG: int)
    ensures var calm := Decide(q, u, sigma, false, m, psiQ, phiG, psiG);
            var low := Decide(q, u, sigma, true, m, psiQ, phiG, psiG);
            calm == low || (calm == SENSOR_INFERENCE_LAYER && low == GATEWAY_INFERENCE_LAYER)
  {
  }

  /** The prediction result the heuristic consumes (app/utils.py:148-151). */
  datatype PredictionResult = PredictionResult(gatewayName: string, sensorName: string, lowBattery: bool, prediction: int)

  /** What makes the heuristic raise instead of returning a layer. */
  datatype Fault =
    | NegativeHistoryLength  // deque(maxlen=m) raises ValueError for m < 0
    | InvariantViolated      // assert u_t >= len(prediction_history) fails

  datatype Outcome = Verdict(tier: int) | Raised(fault: Fault)

  /** The table applied to a record just written: u is its counter, sigma its history sum. */
  function DecideFor(rec: Record, lowBattery: bool, q: int, cfg: Settings): (tier: int)
    ensures IsTier(tier)
  {
    Decide(q, rec.counter, Sum(rec.history), lowBattery, cfg.m, cfg.psiQ, cfg.phiG, cfg.psiG)
  }

  /** A device's stored record: the counter and the history list as the store holds them. */
  datatype Record = Record(counter: int, history: seq<int>)

  datatype Step = Step(after: Record, outcome: Outcome)

  const Fresh := Record(0, [])

  /**
   * The record one heuristic call writes for a device: the counter advances
   * by one, and the history gains the prediction's flag within the last m
   * entries. The counter is written before the history is loaded, so it
   * advances even when the load raises (m < 0) and the history stays as it was.
   */
  function Advance(before: Record, prediction: int, cfg: Settings): (after: Record)
    ensures after.counter == before.counter + 1
    ensures cfg.m < 0 ==> after.history == before.history
    ensures cfg.m >= 0 ==> after.history == LastN(before.history + [Flag(prediction, cfg.abnormalLabels)], cfg.m)
    ensures cfg.m >= 0 ==> |after.history| <= cfg.m && |after.history| <= |before.history| + 1
  {
    Record(before.counter + 1,
           if cfg.m < 0 then before.history else Recorded(before.history, Flag(prediction, cfg.abnormalLabels), cfg.m))
  }

  /**
   * One heuristic call for one device: the record it writes and what it
   * returns, with q the observed queue depth.
   */
  function Evaluate(before: Record, prediction: int, lowBattery: bool, q: int, cfg: Settings): (r: Step)
    ensures r.after == Advance(before, prediction, cfg)
    ensures r.outcome == Raised(NegativeHistoryLength) <==> cfg.m < 0
    ensures cfg.m >= 0 ==> (r.outcome.Verdict? <==> r.after.counter >= |r.after.history|)
    ensures r.outcome.Verdict? ==> r.outcome.tier == DecideFor(r.after, lowBattery, q, cfg)
    ensures cfg.m >= 0 && before.counter >= |before.history| ==>
              r.outcome.Verdict? && r.after.counter >= |r.after.history|
  {
    var after := Advance(before, prediction, cfg);
    var outcome :=
      if cfg.m < 0 then Raised(NegativeHistoryLength)
      else if after.counter >= |after.history| then Verdict(DecideFor(after, lowBattery, q, cfg))
      else Raised(InvariantViolated);
    Step(after, outcome)
  }

  /** One reading as the heuristic sees it: its prediction, the battery flag and the queue depth at that moment. */
  datatype Reading = Reading(prediction: int, lowBattery: bool, q: int)

  /** The record after a device has gone through `readings` in order. */
  function Replay(before: Record, readings: seq<Reading>, cfg: Settings): Record
    decreases |readings|
  {
    if readings == [] then before
    else Replay(Advance(before, readings[0].prediction, cfg), readings[1..], cfg)
  }

  /** What each call returned along the way. */
  function Outcomes(before: Record, readings: seq<Reading>, cfg: Settings): (r: seq<Outcome>)
    ensures |r| == |readings|
    decreases |readings|
  {
    if readings == [] then []
    else
      var step := Evaluate(before, readings[0].prediction, readings[0].lowBattery, readings[0].q, cfg);
      [step.outcome] + Outcomes(step.after, readings[1..], cfg)
  }

  /** The flags the readings append, in order. */
  function Flags(readings: seq<Reading>, abnormalLabels: seq<int>): (r: seq<int>)
    ensures |r| == |readings|
    decreases |readings|
  {
    if readings == [] then [] else [Flag(readings[0].prediction, abnormalLabels)] + Flags(readings[1..], abnormalLabels)
  }

  /**
   * Without clears, the counter counts every reading processed and the
   * history holds the flags of the last m of them.
   */
  lemma {:induction false} ReplayCountsAndWindows(before: Record, readings: seq<Reading>, cfg: Settings)
    requires cfg.m >= 0
    requires |before.history| <= cfg.m || readings != []
    ensures Replay(before, readings, cfg) ==
            Record(before.counter + |readings|, LastN(before.history + Flags(readings, cfg.abnormalLabels), cfg.m))
    decreases |readings|
  {
    var flags := Flags(readings, cfg.abnormalLabels);
    if readings == [] {
      assert before.history + flags == before.history;
    } else {
      var r0 := readings[0];
      var h, f0 := before.history, Flag(r0.prediction, cfg.abnormalLabels);
      var after := Advance(before, r0.prediction, cfg);
      assert after == Record(before.counter + 1, LastN(h + [f0], cfg.m));
      assert Replay(before, readings, cfg) == Replay(after, readings[1..], cfg);
      ReplayCountsAndWindows(after, readings[1..], cfg);
      var rest := Flags(readings[1..], cfg.abnormalLabels);
      assert flags == [f0] + rest;
      AppendThenConcat(h, f0, rest);
      LastNOfAppended(h + [f0], rest, cfg.m);
      assert LastN(after.history + rest, cfg.m) == LastN(h + flags, cfg.m);
    }
  }

  lemma AppendThenConcat(h: seq<int>, x: int, rest: seq<int>)
    ensures (h + [x]) + rest == h + ([x] + rest)
  {
  }

  /** From a coherent record (counter >= history length) no call ever fails its assertion. */
  lemma {:induction false} ReplayNeverViolates(before: Record, readings: seq<Reading>, cfg: Settings)
    requires cfg.m >= 0 && before.counter >= |before.history|
    ensures forall i :: 0 <= i < |readings| ==> Outcomes(before, readings, cfg)[i].Verdict?
    decreases |readings|
  {
    if readings != [] {
      var r0 := readings[0];
      var step := Evaluate(before, r0.prediction, r0.lowBattery, r0.q, cfg);
      ReplayNeverViolates(step.after, readings[1..], cfg);
      var out := Outcomes(before, readings, cfg);
      assert out == [step.outcome] + Outcomes(step.after, readings[1..], cfg);
      forall i | 0 <= i < |readings| ensures out[i].Verdict? {
        if i > 0 {
          assert out[i] == Outcomes(step.after, readings[1..], cfg)[i - 1];
        }
      }
    }
  }

  /** With a history length of 0 the decision is made at once from an empty history. */
  lemma ZeroHistoryLength(before: Record, prediction: int, lowBattery: bool, q: int, cfg: Settings)
    requires cfg.m == 0 && before.counter >= 0 && q < cfg.psiQ && cfg.phiG >= 1
    ensures Evaluate(before, prediction, lowBattery, q, cfg).outcome ==
            Verdict(if lowBattery then GATEWAY_INFERENCE_LAYER else SENSOR_INFERENCE_LAYER)
  {
  }

  /** On a saturated queue even a device seen for the first time goes to the cloud. */
  lemma FreshDeviceSaturated(prediction: int, lowBattery: bool, q: int, cfg: Settings)
    requires cfg.m >= 0 && q >= cfg.psiQ
    ensures Evaluate(Fresh, prediction, lowBattery, q, cfg).outcome == Verdict(CLOUD_INFERENCE_LAYER)
  {
    var step := Evaluate(Fresh, prediction, lowBattery, q, cfg);
    assert step.outcome.Verdict?;
    SaturatedRecord(step.after, lowBattery, q, cfg);
  }

  lemma SaturatedRecord(rec: Record, lowBattery: bool, q: int, cfg: Settings)
    requires q >= cfg.psiQ
    ensures DecideFor(rec, lowBattery, q, cfg) == CLOUD_INFERENCE_LAYER
  {
  }

  /**
   * Clearing the counter without the history leaves a record whose next
   * call fails the assertion; the heuristic itself never clears either.
   */
  lemma ClearingCounterAloneBreaksAssertion()
    ensures Evaluate(Record(0, [1, 1]), 0, false, 0, Load(Unset)).outcome == Raised(InvariantViolated)
  {
    var h := Recorded([1, 1], Flag(0, [2, 3]), 16);
    assert |h| == 3;
  }

  /** The i-th outcome is the call on reading i from the record the first i readings left. */
  lemma {:induction false} OutcomeAt(before: Record, readings: seq<Reading>, cfg: Settings, i: nat)
    requires i < |readings|
    ensures Outcomes(before, readings, cfg)[i] ==
            Evaluate(Replay(before, readings[..i], cfg), readings[i].prediction, readings[i].lowBattery, readings[i].q, cfg).outcome
    decreases i
  {
    var r0 := readings[0];
    var step := Evaluate(before, r0.prediction, r0.lowBattery, r0.q, cfg);
    assert Outcomes(before, readings, cfg) == [step.outcome] + Outcomes(step.after, readings[1..], cfg);
    if i == 0 {
      assert Replay(before, readings[..0], cfg) == before;
    } else {
      OutcomeAt(step.after, readings[1..], cfg, i - 1);
      assert readings[..i][0] == r0;
      assert readings[..i][1..] == readings[1..][..i - 1];
      assert Replay(before, readings[..i], cfg) == Replay(step.after, readings[1..][..i - 1], cfg);
      assert readings[1..][i - 1] == readings[i];
    }
  }

  predicate AllZero(h: seq<int>) {
    forall j :: 0 <= j < |h| ==> h[j] == 0
  }

  lemma {:induction false} SumAllZero(h: seq<int>)
    requires AllZero(h)
    ensures Sum(h) == 0
  {
    if h != [] {
      assert AllZero(h[1..]) by {
        forall j | 0 <= j < |h[1..]| ensures h[1..][j] == 0 {
          assert h[1..][j] == h[j + 1];
        }
      }
      SumAllZero(h[1..]);
    }
  }

  lemma {:induction false} NormalFlagsAreZero(readings: seq<Reading>, abnormalLabels: seq<int>)
    requires forall i :: 0 <= i < |readings| ==> readings[i].prediction !in abnormalLabels
    ensures AllZero(Flags(readings, abnormalLabels))
    decreases |readings|
  {
    if readings != [] {
      var rest := readings[1..];
      assert forall i :: 0 <= i < |rest| ==> rest[i].prediction !in abnormalLabels by {
        forall i | 0 <= i < |rest| ensures rest[i].prediction !in abnormalLabels {
          assert rest[i] == readings[i + 1];
        }
      }
      NormalFlagsAreZero(rest, abnormalLabels);
      var f := Flags(readings, abnormalLabels);
      assert f == [0] + Flags(rest, abnormalLabels);
      forall j | 0 <= j < |f| ensures f[j] == 0 {
        if j > 0 {
          assert f[j] == Flags(rest, abnormalLabels)[j - 1];
        }
      }
    }
  }

  lemma LastNOfZeros(h: seq<int>, n: nat)
    requires AllZero(h)
    ensures AllZero(LastN(h, n))
  {
    var w := LastN(h, n);
    forall j | 0 <= j < |w| ensures w[j] == 0 {
      assert w[j] == h[|h| - |w| + j];
    }
  }

  /**
   * A device seen for the first time that reports only normal predictions on
   * a queue below saturation gets GATEWAY for its first m - 1 readings (its
   * warm-up) and from then on SENSOR, or GATEWAY whenever its battery is
   * low. Nothing resets it: with m = 4 the fifth normal reading with a good
   * battery still gets SENSOR.
   */
  lemma NormalReadingsVerdicts(readings: seq<Reading>, cfg: Settings)
    requires cfg.m >= 0 && cfg.phiG >= 1
    requires forall i :: 0 <= i < |readings| ==> readings[i].prediction !in cfg.abnormalLabels && readings[i].q < cfg.psiQ
    ensures forall i :: 0 <= i < |readings| ==>
              Outcomes(Fresh, readings, cfg)[i] ==
              Verdict(if i + 1 < cfg.m || readings[i].lowBattery then GATEWAY_INFERENCE_LAYER else SENSOR_INFERENCE_LAYER)
  {
    forall i | 0 <= i < |readings|
      ensures Outcomes(Fresh, readings, cfg)[i] ==
              Verdict(if i + 1 < cfg.m || readings[i].lowBattery then GATEWAY_INFERENCE_LAYER else SENSOR_INFERENCE_LAYER)
    {
      var prefix := readings[..i];
      assert forall j :: 0 <= j < |prefix| ==> prefix[j].prediction !in cfg.abnormalLabels;
      OutcomeAt(Fresh, readings, cfg, i);
      NormalReplayFromFresh(prefix, cfg);
      NormalStepFromZeros(Replay(Fresh, prefix, cfg), readings[i], cfg);
    }
  }

  /** Normal readings from a fresh record leave it counting them with an all-normal history. */
  lemma NormalReplayFromFresh(readings: seq<Reading>, cfg: Settings)
    requires cfg.m >= 0
    requires forall j :: 0 <= j < |readings| ==> readings[j].prediction !in cfg.abnormalLabels
    ensures var rec := Replay(Fresh, readings, cfg);
            rec.counter == |readings| && |rec.history| <= |readings| && AllZero(rec.history)
  {
    var flags := Flags(readings, cfg.abnormalLabels);
    ReplayCountsAndWindows(Fresh, readings, cfg);
    assert Fresh.history + flags == flags;
    var h := LastN(flags, cfg.m);
    assert Replay(Fresh, readings, cfg) == Record(|readings|, h);
    NormalFlagsAreZero(readings, cfg.abnormalLabels);
    LastNOfZeros(flags, cfg.m);
  }

  /** A normal reading after an all-normal history of at most `counter` flags. */
  lemma NormalStepFromZeros(rec: Record, r: Reading, cfg: Settings)
    requires cfg.m >= 0 && cfg.phiG >= 1 && rec.counter >= |rec.history| && AllZero(rec.history)
    requires r.prediction !in cfg.abnormalLabels && r.q < cfg.psiQ
    ensures Evaluate(rec, r.prediction, r.lowBattery, r.q, cfg).outcome ==
            Verdict(if rec.counter + 1 < cfg.m || r.lowBattery then GATEWAY_INFERENCE_LAYER else SENSOR_INFERENCE_LAYER)
  {
    var step := Evaluate(rec, r.prediction, r.lowBattery, r.q, cfg);
    NormalAdvanceStaysZero(rec, r.prediction, cfg);
    SumAllZero(step.after.history);
    CalmDecision(step.after, r.lowBattery, r.q, cfg);
  }

  lemma NormalAdvanceStaysZero(rec: Record, prediction: int, cfg: Settings)
    requires cfg.m >= 0 && AllZero(rec.history) && prediction !in cfg.abnormalLabels
    ensures AllZero(Advance(rec, prediction, cfg).history)
  {
    var h := rec.history + [Flag(prediction, cfg.abnormalLabels)];
    assert AllZero(h) by {
      forall j | 0 <= j < |h| ensures h[j] == 0 {
        if j < |rec.history| {
          assert h[j] == rec.history[j];
        }
      }
    }
    LastNOfZeros(h, cfg.m);
  }

  /** Below saturation and with no abnormal flag the table reduces to warm-up and battery. */
  lemma CalmDecision(rec: Record, lowBattery: bool, q: int, cfg: Settings)
    requires Sum(rec.history) == 0 && q < cfg.psiQ && cfg.phiG >= 1
    ensures DecideFor(rec, lowBattery, q, cfg) ==
            if rec.counter < cfg.m || lowBattery then GATEWAY_INFERENCE_LAYER else SENSOR_INFERENCE_LAYER
  {
  }

  /**
   * `gateway_adaptive_inference_heuristic`: advance the counter, append the
   * flag, check the assertion, then decide from the history sum and the queue
   * depth q observed for this call.
   */
  method GatewayAdaptiveInferenceHeuristic(store: Store, cfg: Settings, result: PredictionResult, q: nat)
    returns (outcome: Outcome)
    modifies store
    ensures var g, s := result.gatewayName, result.sensorName;
            var step := Evaluate(Record(old(store.Counter(g, s)), old(store.StoredHistory(g, s))),
                                 result.prediction, result.lowBattery, q, cfg);
            && outcome == step.outcome
            && store.counters == old(store.counters)[CounterKey(g, s) := step.after.counter]
            && store.histories == if cfg.m < 0 then old(store.histories)
                                  else old(store.histories)[HistoryKey(g, s) := step.after.history]
    ensures cfg.m >= 0 && old(store.Coherent(result.gatewayName, result.sensorName)) ==>
              outcome.Verdict? && store.Coherent(result.gatewayName, result.sensorName)
  {
    var g, s := result.gatewayName, result.sensorName;
    ghost var before := Record(store.Counter(g, s), store.StoredHistory(g, s));
    ghost var step := Evaluate(before, result.prediction, result.lowBattery, q, cfg);
    var u := store.UpdateCounter(g, s);
    var history := store.UpdateHistory(g, s, result.prediction, cfg.abnormalLabels, cfg.m);
    if history.None? {
      return Raised(NegativeHistoryLength);
    }
    assert step.after == Record(u, history.value);
    if u < |history.value| {
      return Raised(InvariantViolated);
    }
    var sigma := Sum(history.value);
    outcome := Verdict(Decide(q, u, sigma, result.lowBattery, cfg.m, cfg.psiQ, cfg.phiG, cfg.psiG));
  }
}
