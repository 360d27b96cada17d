/**
 * Task routing and queue inspection of app/tasks/celery_app.py: the route
 * table of the two tasks, the count of active prediction tasks that the
 * broker's inspector reports, and the result record a prediction task sends
 * back.
 */
module Routing {
  import opened Wrappers
  import opened GatewayConfig

  const PREDICTION_QUEUE: string := "prediction_queue"
  const MODEL_QUEUE_PREFIX: string := "model_queue_"

  function DigitChar(d: nat): char
    requires d < 10
  {
    "0123456789"[d]
  }

  /** Python's `str(n)` for a natural number. */
  function NatToString(n: nat): (r: string)
    ensures |r| >= 1
    ensures n < 10 <==> |r| == 1
    decreases n
  {
    if n < 10 then [DigitChar(n)] else NatToString(n / 10) + [DigitChar(n % 10)]
  }

  /** Different numbers print differently, so numbered queue names never clash. */
  lemma {:induction false} NatToStringInjective(a: nat, b: nat)
    requires NatToString(a) == NatToString(b)
    ensures a == b
    decreases a
  {
    var s := NatToString(a);
    if a >= 10 {
      assert b >= 10;
      assert DigitChar(a % 10) == s[|s| - 1] == DigitChar(b % 10);
      assert a % 10 == b % 10;
      assert NatToString(a / 10) == s[..|s| - 1] == NatToString(b / 10);
      NatToStringInjective(a / 10, b / 10);
    }
  }

  /** `f'model_queue_{k}'`. */
  function ModelQueueName(k: nat): (name: string)
    ensures |name| > |MODEL_QUEUE_PREFIX| && name[..|MODEL_QUEUE_PREFIX|] == MODEL_QUEUE_PREFIX
  {
    MODEL_QUEUE_PREFIX + NatToString(k)
  }

  /** A model queue is never the prediction queue, and distinct workers have distinct queues. */
  lemma ModelQueueNames(k: nat, k': nat)
    ensures ModelQueueName(k) != PREDICTION_QUEUE
    ensures ModelQueueName(k) == ModelQueueName(k') <==> k == k'
  {
    assert ModelQueueName(k)[0] == 'm' && PREDICTION_QUEUE[0] == 'p';
    if ModelQueueName(k) == ModelQueueName(k') {
      assert NatToString(k) == ModelQueueName(k)[|MODEL_QUEUE_PREFIX|..] == ModelQueueName(k')[|MODEL_QUEUE_PREFIX|..] == NatToString(k');
      NatToStringInjective(k, k');
    }
  }

  /**
   * The dict `{'queue': f'model_queue_{k+1}' for k in range(i)}` after its
   * first i iterations: every iteration writes the same key 'queue'.
   */
  function QueueComprehension(i: int): (routes: map<string, string>)
    ensures routes.Keys <= {"queue"}
    ensures "queue" in routes <==> i >= 1
    decreases i
  {
    if i <= 0 then map[] else QueueComprehension(i - 1)["queue" := ModelQueueName(i)]
  }

  /** The comprehension keeps only its last write: one entry naming the last worker's queue. */
  lemma {:induction false} ComprehensionKeepsLastWorker(n: int)
    ensures n <= 0 ==> QueueComprehension(n) == map[]
    ensures n >= 1 ==> QueueComprehension(n) == map["queue" := ModelQueueName(n)]
    decreases n
  {
    if n >= 1 {
      ComprehensionKeepsLastWorker(n - 1);
    }
  }

  /** The route options of a task, as the `task_routes` setting holds them. */
  function TaskRoutes(numWorkers: int): (routes: map<string, map<string, string>>)
    ensures routes.Keys == {"update_tf_model_task", "compute_prediction_task"}
    ensures "queue" in routes["update_tf_model_task"] <==> numWorkers >= 1
  {
    map["update_tf_model_task" := QueueComprehension(numWorkers),
        "compute_prediction_task" := map["queue" := PREDICTION_QUEUE]]
  }

  /**
   * As written, model updates are routed to the last worker's queue only;
   * with no workers their entry names no queue, so Celery sends them to its
   * default queue. Prediction tasks always go to the shared prediction queue.
   */
  lemma TaskRoutesAsWritten(numWorkers: int)
    ensures TaskRoutes(numWorkers).Keys == {"update_tf_model_task", "compute_prediction_task"}
    ensures TaskRoutes(numWorkers)["compute_prediction_task"] == map["queue" := PREDICTION_QUEUE]
    ensures numWorkers >= 1 ==> TaskRoutes(numWorkers)["update_tf_model_task"] == map["queue" := ModelQueueName(numWorkers)]
    ensures numWorkers <= 0 ==> TaskRoutes(numWorkers)["update_tf_model_task"] == map[]
  {
    ComprehensionKeepsLastWorker(numWorkers);
  }

  /** Every worker but the last is unreachable by a model update. */
  lemma EarlierWorkersUnreached(numWorkers: int, k: nat)
    requires 1 <= k < numWorkers
    ensures ModelQueueName(k) !in TaskRoutes(numWorkers)["update_tf_model_task"].Values
  {
    TaskRoutesAsWritten(numWorkers);
    ModelQueueNames(k, numWorkers);
    SingleQueueValues(ModelQueueName(numWorkers));
  }

  lemma SingleQueueValues(name: string)
    ensures map["queue" := name].Values == {name}
  {
    var m := map["queue" := name];
    assert m["queue"] == name;
  }

  /** The queues a model update should reach: one per worker, `model_queue_1` .. `model_queue_n`. */
  function BroadcastQueues(numWorkers: nat): (r: seq<string>)
    ensures |r| == numWorkers
    ensures forall i :: 0 <= i < numWorkers ==> r[i] == ModelQueueName(i + 1)
  {
    seq(numWorkers, i requires 0 <= i < numWorkers => ModelQueueName(i + 1))
  }

  /** The broadcast targets every worker exactly once, and never the prediction queue. */
  lemma BroadcastReachesEachWorkerOnce(numWorkers: nat)
    ensures forall i, j :: 0 <= i < j < numWorkers ==> BroadcastQueues(numWorkers)[i] != BroadcastQueues(numWorkers)[j]
    ensures forall k :: 1 <= k <= numWorkers ==> ModelQueueName(k) in BroadcastQueues(numWorkers)
    ensures PREDICTION_QUEUE !in BroadcastQueues(numWorkers)
  {
    var r := BroadcastQueues(numWorkers);
    forall i, j | 0 <= i < j < numWorkers ensures r[i] != r[j] {
      DistinctWorkersDistinctQueues(i + 1, j + 1);
    }
    forall k | 1 <= k <= numWorkers ensures ModelQueueName(k) in r {
      assert r[k - 1] == ModelQueueName(k);
    }
    forall i | 0 <= i < numWorkers ensures r[i] != PREDICTION_QUEUE {
      ModelQueueNames(i + 1, i + 1);
    }
  }

  lemma DistinctWorkersDistinctQueues(k: nat, k': nat)
    requires k != k'
    ensures ModelQueueName(k) != ModelQueueName(k')
  {
    ModelQueueNames(k, k');
  }

  /** With three workers the route table reaches one queue where three were meant. */
  lemma ThreeWorkersRouteToOne()
    ensures TaskRoutes(3)["update_tf_model_task"].Values == {"model_queue_3"}
    ensures BroadcastQueues(3) == ["model_queue_1", "model_queue_2", "model_queue_3"]
  {
    TaskRoutesAsWritten(3);
    assert ModelQueueName(3) == "model_queue_3";
    SingleQueueValues("model_queue_3");
    var r := BroadcastQueues(3);
    assert r[0] == ModelQueueName(1) == "model_queue_1";
    assert r[1] == ModelQueueName(2) == "model_queue_2";
    assert r[2] == ModelQueueName(3);
  }

  // ---- Counting active prediction tasks ------------------------------------

  /** Number of routing keys equal to "prediction_queue" in one worker's active tasks. */
  function CountPrediction(keys: seq<string>): (c: nat)
    ensures c <= |keys|
  {
    if keys == [] then 0
    else CountPrediction(keys[..|keys| - 1]) + (if keys[|keys| - 1] == PREDICTION_QUEUE then 1 else 0)
  }

  /** The count is the multiplicity of "prediction_queue" among the routing keys. */
  lemma {:induction false} CountIsMultiplicity(keys: seq<string>)
    ensures CountPrediction(keys) == multiset(keys)[PREDICTION_QUEUE]
  {
    if keys != [] {
      var init := keys[..|keys| - 1];
      CountIsMultiplicity(init);
      assert keys == init + [keys[|keys| - 1]];
      assert multiset(keys) == multiset(init) + multiset{keys[|keys| - 1]};
    }
  }

  /** The order of a worker's tasks does not matter. */
  lemma TaskOrderIrrelevant(keys: seq<string>, keys': seq<string>)
    requires multiset(keys) == multiset(keys')
    ensures CountPrediction(keys) == CountPrediction(keys')
  {
    CountIsMultiplicity(keys);
    CountIsMultiplicity(keys');
  }

  /** What a worker contributes: its prediction tasks, or all its tasks. */
  function Weight(keys: seq<string>, onlyPrediction: bool): nat {
    if onlyPrediction then CountPrediction(keys) else |keys|
  }

  /** Sum of the workers' weights, taking the workers in an arbitrary order. */
  ghost function Tally(active: map<string, seq<string>>, onlyPrediction: bool): nat
    decreases |active|
  {
    if |active| == 0 then 0
    else
      var w := SomeWorker(active);
      Weight(active[w], onlyPrediction) + Tally(active - {w}, onlyPrediction)
  }

  /** The worker a tally takes first: any one of them. */
  ghost function SomeWorker(active: map<string, seq<string>>): (w: string)
    requires |active| > 0
    ensures w in active
  {
    var w :| w in active; w
  }

  /** Active tasks, over all workers, whose routing key is "prediction_queue". */
  ghost function PredictionTasks(active: map<string, seq<string>>): nat {
    Tally(active, true)
  }

  /** All active tasks over all workers. */
  ghost function TotalTasks(active: map<string, seq<string>>): nat {
    Tally(active, false)
  }

  /** Any worker may be counted first: the tally does not depend on the workers' order. */
  lemma {:induction false} TallyAnyWorkerFirst(active: map<string, seq<string>>, x: string, onlyPrediction: bool)
    requires x in active
    ensures Tally(active, onlyPrediction) == Weight(active[x], onlyPrediction) + Tally(active - {x}, onlyPrediction)
    decreases |active|
  {
    var w := SomeWorker(active);
    if w != x {
      var rest := active - {w} - {x};
      assert (active - {w}) - {x} == rest && (active - {x}) - {w} == rest;
      assert |active - {w}| == |active| - 1 && |active - {x}| == |active| - 1;
      TallyAnyWorkerFirst(active - {w}, x, onlyPrediction);
      TallyAnyWorkerFirst(active - {x}, w, onlyPrediction);
    }
  }

  /** No more prediction tasks are counted than there are active tasks. */
  lemma {:induction false} PredictionTasksBounded(active: map<string, seq<string>>)
    ensures PredictionTasks(active) <= TotalTasks(active)
    decreases |active|
  {
    if |active| > 0 {
      var w :| w in active;
      TallyAnyWorkerFirst(active, w, true);
      TallyAnyWorkerFirst(active, w, false);
      assert |active - {w}| == |active| - 1;
      PredictionTasksBounded(active - {w});
    }
  }

  /** A task on any other queue (a model queue, say) leaves the count unchanged. */
  lemma OtherQueueIgnored(active: map<string, seq<string>>, w: string, key: string)
    requires w in active && key != PREDICTION_QUEUE
    ensures PredictionTasks(active[w := active[w] + [key]]) == PredictionTasks(active)
  {
    var active' := active[w := active[w] + [key]];
    TallyAnyWorkerFirst(active, w, true);
    TallyAnyWorkerFirst(active', w, true);
    assert active' - {w} == active - {w};
    assert (active[w] + [key])[..|active[w]|] == active[w];
  }

  /** Reordering one worker's tasks leaves the count unchanged. */
  lemma WorkerTaskOrderIrrelevant(active: map<string, seq<string>>, w: string, keys: seq<string>)
    requires w in active && multiset(keys) == multiset(active[w])
    ensures PredictionTasks(active[w := keys]) == PredictionTasks(active)
  {
    var active' := active[w := keys];
    TallyAnyWorkerFirst(active, w, true);
    TallyAnyWorkerFirst(active', w, true);
    assert active' - {w} == active - {w};
    TaskOrderIrrelevant(keys, active[w]);
  }

  /**
   * `get_prediction_queue_size`: for the inspector's report (worker name to
   * the routing keys of its active tasks), count the tasks routed to the
   * prediction queue, visiting the workers in whatever order. When no worker
   * replies the report is None and `.values()` raises; the result is then None.
   */
  method GetPredictionQueueSize(report: Option<map<string, seq<string>>>) returns (count: Option<nat>)
    ensures count.None? <==> report.None?
    ensures report.Some? ==> count == Some(PredictionTasks(report.value))
    ensures report.Some? ==> count.value <= TotalTasks(report.value)
  {
    if report.None? {
      return None;
    }
    var active := report.value;
    var n := 0;
    var pending := active;
    while |pending| > 0
      invariant n + PredictionTasks(pending) == PredictionTasks(active)
      decreases |pending|
    {
      var w :| w in pending;
      var tasks := pending[w];
      ghost var before := n;
      var j := 0;
      while j < |tasks|
        invariant 0 <= j <= |tasks|
        invariant n == before + CountPrediction(tasks[..j])
      {
        assert tasks[..j + 1][..j] == tasks[..j];
        if tasks[j] == PREDICTION_QUEUE {
          n := n + 1;
        }
        j := j + 1;
      }
      assert tasks[..|tasks|] == tasks;
      TallyAnyWorkerFirst(pending, w, true);
      pending := pending - {w};
    }
    PredictionTasksBounded(active);
    count := Some(n);
  }

  // ---- The record a prediction task sends back ------------------------------

  datatype SensorReading = SensorReading(uuid: string, values: seq<real>)
  datatype InferenceDescriptor = InferenceDescriptor(sendTimestamp: string)
  datatype PredictionRequest = PredictionRequest(reading: SensorReading, inferenceDescriptor: InferenceDescriptor)
  /** The caller's metadata, carried through unread. */
  datatype Metadata = Metadata(fields: map<string, string>)

  datatype TaskPrediction = TaskPrediction(readingUuid: string, sendTimestamp: string, inferenceLayer: int, prediction: int)
  datatype CeleryTaskResult = CeleryTaskResult(metadata: Metadata, request: PredictionRequest, result: TaskPrediction)

  /**
   * The record `compute_prediction_task` builds around the model's
   * prediction: it names the gateway as the inference layer and echoes the
   * reading's identity, its send timestamp and the caller's metadata.
   */
  function ComputePredictionResult(metadata: Metadata, request: PredictionRequest, prediction: int): (r: CeleryTaskResult)
    ensures r.result.inferenceLayer == GATEWAY_INFERENCE_LAYER && IsTier(r.result.inferenceLayer)
    ensures r.result.readingUuid == request.reading.uuid
    ensures r.result.sendTimestamp == request.inferenceDescriptor.sendTimestamp
    ensures r.result.prediction == prediction
    ensures r.metadata == metadata && r.request == request
  {
    CeleryTaskResult(
      metadata,
      request,
      TaskPrediction(request.reading.uuid, request.inferenceDescriptor.sendTimestamp, GATEWAY_INFERENCE_LAYER, prediction))
  }
}
