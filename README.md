# Gateway adaptive inference: a Dafny model

This project models the core of an edge gateway's inference service. For each
prediction made at the gateway, the service decides which tier should run
inference on the device's next reading: the sensor (0), the gateway (1) or
the cloud (2).

The model has six modules:

- `Wrappers` (wrappers.dfy): the `Option` type used for values that may be
  absent.

- `GatewayConfig` (config.dfy): the tier codes and the settings loaded from
  the environment. The normal threshold phi_g is clamped to at least 1 and the
  abnormal threshold psi_g to at most the history length m.
- `DecisionState` (store.dfy): the per-device state in the key-value store.
  Each device has a warm-up counter under `counter:{gateway}:{sensor}` and a
  bounded FIFO of 0/1 abnormality flags under `history:{gateway}:{sensor}`.
  The store is a class with two maps from key string to value. A key-value
  `get`, `set` or `delete` becomes a map read, update or removal.
- `Heuristic` (heuristic.dfy): the adaptive inference heuristic.
  - `Decide` is the first-match decision table as a pure function.
  - `Advance` and `Evaluate` give the record one call writes and the outcome
    it returns, including the two ways the call can raise.
  - `GatewayAdaptiveInferenceHeuristic` runs the store operations in the
    source's order and is proved equal to `Evaluate`.
  - `Replay` and `Outcomes` describe a sequence of calls for one device.
- `Routing` (routing.dfy): the Celery route table, the count of active
  prediction tasks (a loop over workers and their tasks), and the result
  record a prediction task builds.
- `ModelHandler` (handler.dfy): the per-class singleton cache and the handler
  whose `load_model` installs a backend that `predict` forwards to.

Behaviour of the code worth knowing:

- The code never clears a device's state when the verdict changes tier.
  `NormalReadingsVerdicts` shows the consequence. A new device that reports
  only normal predictions, while the queue stays below psi_q and m >= 0,
  gets GATEWAY during warm-up and then SENSOR (or GATEWAY on a low battery)
  for every later reading. Warm-up never restarts.
- Inverted thresholds (phi_g > psi_g) are loaded without complaint.
  `InvertedThresholdsAccepted` shows this.
- A failed invariant check raises AssertionError, and the call returns no
  verdict. A negative history length makes `deque` raise ValueError after
  the counter has already been written. `Evaluate` returns `Raised(...)` in
  both cases.
- The queue depth the heuristic reads is the broker list length of
  `prediction_queue` (app/utils.py:34-38). It is an input of the model.
  The separate active-task count of app/tasks/celery_app.py is modelled by
  `Routing.GetPredictionQueueSize`.
- Model updates are not broadcast to every worker (see Findings).

## Model

| member | source | states |
|---|---|---|
| GatewayConfig.TierCodesOrdered | app/core/config.py:13-16 | SENSOR 0 < GATEWAY 1 < CLOUD 2, and the error code -1 is none of them |
| GatewayConfig.Load | app/core/config.py:18-32 | phi_g >= 1 and equals the given value when that is >= 1, else 1; psi_g <= m and equals the given value when that is <= m, else m; adaptive inference is on exactly when the given flag (default 0) is non-zero, as `bool(int(v))` reads it; other settings take the given value or the default |
| GatewayConfig.DefaultSettings | app/core/config.py:18-32 | with nothing set: adaptive inference off, m = 16, phi_g = 2, psi_g = 8, labels [2, 3], 1 worker, psi_q = 10 |
| GatewayConfig.LoadIsIdempotent | app/core/config.py:20-21 | loading already-clamped settings again changes nothing |
| GatewayConfig.InvertedThresholdsAccepted | app/core/config.py:19-21 | m = 1 with default thresholds loads phi_g = 2 > psi_g = 1; nothing rejects it |
| DecisionState.CounterKey | app/utils.py:52 | the key is "counter:", then the gateway name, then ':' and the sensor name |
| DecisionState.HistoryKey | app/utils.py:85 | the key is "history:", then the gateway name, then ':' and the sensor name |
| DecisionState.NamespacesDisjoint | app/utils.py:52-85 | no counter key equals any history key |
| DecisionState.KeysIdentifyDevice | app/utils.py:52 | for gateway names without ':', two devices share a counter (or history) key iff they are the same device |
| DecisionState.ColonNamesShareRecord | app/utils.py:52 | devices ("a:b", "c") and ("a", "b:c") share both keys |
| DecisionState.Flag | app/utils.py:41-45 | the flag is 1 iff the prediction is an abnormal label, else 0 |
| DecisionState.LastN | app/utils.py:87-91 | loading into `deque(maxlen=n)` keeps the last min(len, n) entries in order |
| DecisionState.DequeAppend | app/utils.py:113 | below capacity the flag is appended; at capacity the oldest entry is dropped first; the length never exceeds m |
| DecisionState.DequeAppendKeepsWindow | app/utils.py:113 | one append equals the last m entries of history + [flag] |
| DecisionState.Recorded | app/utils.py:108-116 | the written history is the last m of stored + [flag]; its length is at most m and at most the stored length + 1 |
| DecisionState.Sum | app/utils.py:158 | over 0/1 flags, sum(history) lies in [0, len(history)] |
| DecisionState.SumCountsAbnormal | app/utils.py:158 | over 0/1 flags, sum(history) is the number of 1 entries and lies in [0, len] |
| DecisionState.RecordedKeepsFlags | app/utils.py:113 | appending a 0/1 flag to a 0/1 history keeps it 0/1 |
| DecisionState.ClearIsIdempotent | app/utils.py:119-132 | after a delete the counter reads 0 and the history reads empty; deleting twice equals deleting once |
| DecisionState.Store.Counter | app/utils.py:48-56 | the stored counter of the device, or 0 when its key is absent |
| DecisionState.Store.StoredHistory | app/utils.py:81-90 | the stored history list of the device, or empty when its key is absent |
| DecisionState.Store.LoadHistory | app/utils.py:81-93 | the last m stored flags (empty when absent); raises for m < 0 |
| DecisionState.Store.SetCounter | app/utils.py:59-68 | only the device's counter key changes, to the given value |
| DecisionState.Store.UpdateCounter | app/utils.py:48-78 | returns the stored counter + 1 (0 + 1 when absent) and stores exactly that; no other key changes |
| DecisionState.Store.SetHistory | app/utils.py:96-105 | only the device's history key changes, to the given list |
| DecisionState.Store.UpdateHistory | app/utils.py:108-116 | writes and returns the bounded append of the prediction's flag; raises and writes nothing for m < 0; counters untouched |
| DecisionState.Store.ClearCounter | app/utils.py:119-124 | removes only the device's counter key; it then reads 0 |
| DecisionState.Store.ClearHistory | app/utils.py:127-132 | removes only the device's history key; it then reads empty |
| Heuristic.Decide | app/utils.py:182-196 | the verdict is always SENSOR, GATEWAY or CLOUD, never the error code |
| Heuristic.SaturationDominates | app/utils.py:182-183 | q >= psi_q gives CLOUD whatever u, sigma and the battery are |
| Heuristic.WarmupDominates | app/utils.py:184-186 | q < psi_q and u < m give GATEWAY whatever sigma and the battery are |
| Heuristic.SettledVerdict | app/utils.py:187-196 | for q < psi_q and u >= m: sigma < phi_g gives GATEWAY on low battery, else SENSOR; phi_g <= sigma < psi_g gives GATEWAY; otherwise CLOUD |
| Heuristic.SensorExactly | app/utils.py:182-192 | SENSOR iff q < psi_q, u >= m, sigma < phi_g and the battery is not low |
| Heuristic.CloudExactly | app/utils.py:182-196 | CLOUD iff q >= psi_q, or u >= m and sigma >= max(phi_g, psi_g) |
| Heuristic.MonotoneInSigma | app/utils.py:187-196 | a larger sigma never gives a lower tier, even with inverted thresholds |
| Heuristic.MonotoneInQueue | app/utils.py:182-186 | a longer queue never gives a lower tier |
| Heuristic.LowBatteryOnlyLiftsSensor | app/utils.py:188-192 | a low battery changes the verdict only from SENSOR to GATEWAY |
| Heuristic.Advance | app/utils.py:153-156 | the counter advances by one even when the history load raises; the history becomes the last m of stored + [flag], or stays unchanged for m < 0 |
| Heuristic.Evaluate | app/utils.py:153-196 | raises ValueError iff m < 0; otherwise returns a verdict iff counter >= len(history) after the write, and that verdict is the table applied to the written record; a coherent record stays coherent |
| Heuristic.ReplayCountsAndWindows | app/utils.py:153-156 | for m >= 0 and with no clears, after n readings the counter has grown by n and the history is the last m flags of the stored list followed by all readings' flags; a stored list longer than m (left by a larger earlier m) is allowed once at least one reading is processed |
| Heuristic.ReplayNeverViolates | app/utils.py:153-157 | starting from counter >= len(history), no call along any reading sequence fails the assertion |
| Heuristic.ZeroHistoryLength | app/utils.py:182-192 | with m = 0, a queue below psi_q and phi_g >= 1, the verdict comes at once from the empty history: GATEWAY on low battery, else SENSOR |
| Heuristic.FreshDeviceSaturated | app/utils.py:182-183 | for m >= 0, on a saturated queue a device seen for the first time gets CLOUD |
| Heuristic.ClearingCounterAloneBreaksAssertion | app/utils.py:153-157 | under the default settings (m = 16), a record with counter 0 and a two-flag history fails the assertion on its next call |
| Heuristic.OutcomeAt | app/utils.py:135-196 | the i-th call's result is the call on reading i from the record the first i readings left |
| Heuristic.NormalReadingsVerdicts | app/utils.py:153-196 | for m >= 0 and phi_g >= 1, a new device with only normal predictions below queue saturation gets GATEWAY on calls 1..m-1 and afterwards SENSOR, or GATEWAY when its battery is low; nothing resets it |
| Heuristic.NormalReplayFromFresh | app/utils.py:153-156 | after n normal readings a new device's counter is n and its history holds at most n flags, all 0 |
| Heuristic.CalmDecision | app/utils.py:182-192 | below saturation, with phi_g >= 1 and a zero history sum, the table gives GATEWAY during warm-up or on a low battery and SENSOR otherwise |
| Heuristic.GatewayAdaptiveInferenceHeuristic | app/utils.py:135-196 | outcome and new counter/history maps are those of `Evaluate` on the old record; only the device's two keys change; for m >= 0 a coherent device gets a verdict and stays coherent |
| Routing.NatToStringInjective | app/tasks/celery_app.py:23 | distinct worker numbers print as distinct strings |
| Routing.ModelQueueName | app/tasks/celery_app.py:23 | a model queue name starts with "model_queue_" and is longer than that prefix; `ModelQueueNames` shows that distinct worker numbers give distinct names |
| Routing.ModelQueueNames | app/tasks/celery_app.py:23-24 | model_queue_k is never prediction_queue, and model_queue_k = model_queue_j iff k = j |
| Routing.QueueComprehension | app/tasks/celery_app.py:23 | after i iterations the dict has no key but 'queue', and has 'queue' exactly when i >= 1 |
| Routing.ComprehensionKeepsLastWorker | app/tasks/celery_app.py:23 | the comprehension over range(N) is {'queue': 'model_queue_N'} for N >= 1 and empty for N <= 0 |
| Routing.TaskRoutes | app/tasks/celery_app.py:22-25 | the table routes exactly update_tf_model_task and compute_prediction_task; the update entry names a queue exactly when N >= 1 |
| Routing.TaskRoutesAsWritten | app/tasks/celery_app.py:22-25 | the table has the two task entries; prediction tasks route to prediction_queue; model updates route to model_queue_N only; when N = 0 their entry names no queue, so Celery's default queue applies |
| Routing.EarlierWorkersUnreached | app/tasks/celery_app.py:23 | for 1 <= k < N, model_queue_k is not a route of update_tf_model_task |
| Routing.ThreeWorkersRouteToOne | app/tasks/celery_app.py:23 | with 3 workers the route reaches only model_queue_3, while the broadcast list is model_queue_1..3 |
| Routing.BroadcastQueues | app/tasks/celery_app.py:23 | the corrected target list has N entries, entry i being model_queue_{i+1} |
| Routing.BroadcastReachesEachWorkerOnce | app/tasks/celery_app.py:23 | the corrected broadcast lists every model_queue_k for 1 <= k <= N exactly once and never prediction_queue |
| Routing.CountPrediction | app/tasks/celery_app.py:37-39 | one worker's prediction-task count is at most its number of active tasks |
| Routing.CountIsMultiplicity | app/tasks/celery_app.py:36-39 | a worker's count is the multiplicity of prediction_queue among its routing keys |
| Routing.TaskOrderIrrelevant | app/tasks/celery_app.py:37-39 | reordering a worker's tasks does not change its count |
| Routing.TallyAnyWorkerFirst | app/tasks/celery_app.py:36 | the total is the same whichever worker is visited first |
| Routing.PredictionTasksBounded | app/tasks/celery_app.py:35-41 | the count is at most the number of active tasks |
| Routing.OtherQueueIgnored | app/tasks/celery_app.py:38 | a task routed to any other queue does not change the count |
| Routing.WorkerTaskOrderIrrelevant | app/tasks/celery_app.py:37-39 | permuting one worker's task list does not change the total |
| Routing.GetPredictionQueueSize | app/tasks/celery_app.py:29-41 | with a report, the loop returns the number of active tasks, over all workers, routed to prediction_queue, for any visiting order, and at most the total; with no report (no worker replied) the call fails, as `.values()` on None raises |
| Routing.ComputePredictionResult | app/tasks/celery_app.py:57-72 | the result names the gateway layer, echoes the reading's uuid, its send timestamp and the prediction, and carries metadata and request unchanged |
| ModelHandler.PredictiveModelHandler.constructor | app/celery_worker/tensorflow/__init__.py:13 | a new handler has no backend |
| ModelHandler.PredictiveModelHandler.LoadModel | app/celery_worker/tensorflow/__init__.py:15-22 | a failed backend import leaves the previous backend in place; otherwise installs a TFLite backend when USE_TFLITE, else a Keras one, replacing the old backend before loading; the model is present iff the load completes |
| ModelHandler.PredictiveModelHandler.Predict | app/celery_worker/tensorflow/__init__.py:25-26 | forwards the input to the current backend's model; fails with no backend (before any load) or with a backend whose load did not complete |
| ModelHandler.SingletonRegistry.constructor | app/celery_worker/tensorflow/__init__.py:4 | the cache starts empty |
| ModelHandler.SingletonRegistry.Instance | app/celery_worker/tensorflow/__init__.py:6-10 | the first call for a class creates and caches a fresh instance; later calls return the cached one and change nothing; other classes' entries are untouched |
| ModelHandler.LoadThenPredict | app/celery_worker/tensorflow/__init__.py:6-26 | a load followed by a predict in one process reaches the loaded model through the shared instance |

## Findings

| source | as written | input that shows it | evidently intended | confidence | as-written member | corrected member |
|---|---|---|---|---|---|---|
| app/tasks/celery_app.py:23 | the dict comprehension writes the constant key 'queue' once per worker, so only the last value, model_queue_N, survives | CELERY_NUM_WORKERS = 3: update_tf_model_task routes to model_queue_3 only | a model update reaches each of model_queue_1 .. model_queue_N | medium, not executed | Routing.ThreeWorkersRouteToOne | Routing.BroadcastQueues, Routing.BroadcastReachesEachWorkerOnce |

The as-written route table is `Routing.TaskRoutes`, built through
`Routing.QueueComprehension`. The intended target list is
`Routing.BroadcastQueues`.

## Left out

- Connection handling (`RedisContextManager`, app/utils.py:24-32) and the wire calls. The store is two in-memory maps.
- The queue-depth read `llen("prediction_queue")` (app/utils.py:34-38). It is I/O, so the heuristic takes the depth as a parameter `q`.
- JSON encoding of the history and `int()` of the stored counter. Both are treated as identity on well-formed values; values written by other programs are not modelled.
- The debug `print` block (app/utils.py:166-180).
- Cross-process races on the non-atomic read-modify-write of counter and history. Execution is sequential.
- Python's `assert` is removed under `python -O`. The model always checks it.
- `HEURISTIC_ERROR_CODE` is imported but never returned. The model has it only as a constant.
- Environment strings that `int()` or `json.loads` cannot parse raise at import time. The environment is given already parsed.
- The connection settings of app/core/config.py (lines 8-11, 24-28, 31, 34-38) are not part of this model.
- The broker inspector call (app/tasks/celery_app.py:30-33). Its report is a parameter: None when no worker replies, else a map from worker name to the routing keys of its active tasks; other task fields are dropped.
- `httpx.put` (app/tasks/celery_app.py:74-77), the task decorators, and the body of `update_tf_model_task` (model decoding and the size check). These are transport or library calls.
- `model_manager.predict` and the `int(...)` of its output (app/tasks/celery_app.py:59, 66). The prediction is a parameter of `ComputePredictionResult`.
- TensorFlow Lite and Keras backends: decoding, interpreters, tensors, floating point. A backend is its kind plus the payload it holds, and a prediction is the forwarded call.
- ModelHandler.PredictiveModelHandler.LoadModel: a backend whose own load raises after setting its model is treated as holding no model.
- `USE_TFLITE` (read by app/config.py) is a parameter.
- ModelHandler.SingletonRegistry.Instance: the cache is keyed by class name and holds only `PredictiveModelHandler`, the one class using the metaclass. That class takes no constructor arguments, so "later arguments are ignored" has nothing to model.
- Names that do not resolve as the code is written. The model assumes every imported name exists. app/tasks/celery_app.py:4 imports `REDIS_DB_CELERY`, but app/core/config.py defines only `REDIS_DB_CELERY_BROKER` and `REDIS_DB_CELERY_BACKEND` (lines 26-27). Importing celery_app.py therefore raises ImportError, and the route table, `get_prediction_queue_size` and `compute_prediction_task` never run. Likewise app/utils.py:4 and app/tasks/celery_app.py:51-68 use schema classes (`PredictionResult`, `PredictionRequestExport`, `Metadata`, `SensorReading`, `CeleryTaskResult`, `InferenceLayer`) that app/api/schemas.py does not define; it has only `PredictiveModel` and a `PredictionRequest` with other fields. The model gives these records the fields the code reads from them.
- Task naming. The tasks at app/tasks/celery_app.py:45 and :49 are decorated without `name=`, so Celery registers them under module-qualified names. The route table's bare keys apply only to senders that use the bare names. The model assumes tasks are sent under the names the table uses.
- app/celery_worker/tasks.py and app/celery_worker/utils.py (task glue and queue pushes) are not part of this model. The same goes for the HTTP routes, app entry point, schemas and env loading.
- Heuristic.ReplayCountsAndWindows: it assumes that no clear happens between readings, since the heuristic never clears.
