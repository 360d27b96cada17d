/**
 * The worker's model handler of app/celery_worker/tensorflow/__init__.py: a
 * metaclass that caches one instance per class, and a handler object whose
 * `load_model` installs a TensorFlow Lite or Keras backend and whose
 * `predict` forwards to whichever backend is installed.
 *
 * The backends themselves (decoding, interpreters, tensors) are outside the
 * model: a backend is its kind and the model payload it holds, and a
 * prediction is the call forwarded to it.
 */
module ModelHandler {
  import opened Wrappers

  datatype BackendKind = TFLite | Keras

  /** An installed backend; `model` is None until its own `load_model` completes. */
  datatype Backend = Backend(kind: BackendKind, model: Option<string>)

  /** The call `predict` forwards: which backend, holding which model, on which input. */
  datatype Invocation = Invocation(kind: BackendKind, model: string, input: real)

  datatype HandlerError =
    | NoHandler      // `_handler` is still None: AttributeError on `None.predict`
    | NoModelLoaded  // the backend never finished loading: AttributeError on `self.model`

  /** How `load_model` ended: it returned, or the import or the backend's load raised. */
  datatype LoadOutcome = Loaded | ImportFailed | LoadFailed

  datatype PredictResult = Forwarded(call: Invocation) | Failed(error: HandlerError)

  /** `PredictiveModelHandler`. */
  class PredictiveModelHandler {
    var handler: Option<Backend>

    /** A new instance sees the class attribute `_handler = None`. */
    constructor ()
      ensures handler == None
    {
      handler := None;
    }

    /**
     * `load_model`: import the backend module USE_TFLITE selects, install a
     * fresh backend of that kind, then load `encoded` into it. `imports`
     * says whether the import succeeds: when it raises, `_handler` has not
     * been reassigned yet and the previous backend stays. `loads` says
     * whether the backend's own load completes: when it raises, the fresh
     * backend stays installed without a model and the previous one is gone.
     */
    method LoadModel(encoded: string, useTflite: bool, imports: bool, loads: bool) returns (r: LoadOutcome)
      modifies this
      ensures !imports ==> r == ImportFailed && handler == old(handler)
      ensures imports ==> r == (if loads then Loaded else LoadFailed)
      ensures imports ==>
                handler == Some(Backend(if useTflite then TFLite else Keras, if loads then Some(encoded) else None))
    {
      if !imports {
        return ImportFailed;
      }
      handler := Some(Backend(if useTflite then TFLite else Keras, None));
      if !loads {
        return LoadFailed;
      }
      handler := Some(handler.value.(model := Some(encoded)));
      r := Loaded;
    }

    /** `predict`: forward the input to the current backend. */
    method Predict(input: real) returns (r: PredictResult)
      ensures handler.None? ==> r == Failed(NoHandler)
      ensures handler.Some? && handler.value.model.None? ==> r == Failed(NoModelLoaded)
      ensures handler.Some? && handler.value.model.Some? ==>
                r == Forwarded(Invocation(handler.value.kind, handler.value.model.value, input))
    {
      match handler
      case None =>
        r := Failed(NoHandler);
      case Some(backend) =>
        if backend.model.None? {
          r := Failed(NoModelLoaded);
        } else {
          r := Forwarded(Invocation(backend.kind, backend.model.value, input));
        }
    }
  }

  /** `SingletonMeta._instances`: the cached instance of each class, by class name. */
  class SingletonRegistry {
    var instances: map<string, PredictiveModelHandler>

    constructor ()
      ensures instances == map[]
    {
      instances := map[];
    }

    /**
     * `SingletonMeta.__call__`: the first call for a class constructs and
     * caches an instance; every later call returns the cached one and
     * constructs nothing. Other classes' entries are untouched.
     */
    method Instance(cls: string) returns (h: PredictiveModelHandler)
      modifies this
      ensures cls in old(instances) ==> h == old(instances)[cls] && instances == old(instances)
      ensures cls !in old(instances) ==> fresh(h) && h.handler == None && instances == old(instances)[cls := h]
      ensures cls in instances && instances[cls] == h
    {
      if cls !in instances {
        var instance := new PredictiveModelHandler();
        instances := instances[cls := instance];
      }
      h := instances[cls];
    }
  }

  /**
   * A model-loading task followed by a prediction task in the same worker
   * process: both obtain the one cached handler, so the prediction reaches
   * the backend the load installed.
   */
  method LoadThenPredict(registry: SingletonRegistry, encoded: string, useTflite: bool, input: real)
    returns (r: PredictResult)
    modifies registry, registry.instances.Values
    ensures r == Forwarded(Invocation(if useTflite then TFLite else Keras, encoded, input))
  {
    var loader := registry.Instance("PredictiveModelHandler");
    var _ := loader.LoadModel(encoded, useTflite, true, true);
    var predictor := registry.Instance("PredictiveModelHandler");
    assert predictor == loader;
    r := predictor.Predict(input);
  }
}
