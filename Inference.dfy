/** The loaders of `InferenceModel` (pyzoo/zoo/pipeline/inference/inference_model.py).
    Each loader forwards one command to the JVM engine; the model captures
    that command, or the exception raised instead of sending it. */
module Inference {
  import opened Wrappers
  import opened Ascii
  import opened Engine

  /** An `InferenceModel` after construction: the JVM object it wraps
      (`self.value`) and its numeric type (`self.bigdl_type`). */
  datatype InferenceModel = InferenceModel(value: JavaRef, bigdlType: string)

  /** Which `float(...)` conversion raised. */
  datatype FloatSite = MeanValue(index: nat) | Scale

  const UnsupportedBackendMessage := "Currently only tensorflow and openvino are supported as backend"
  const OpenVINOConfigMessage :=
    "For openvino backend, you must provide either model_type or both pipeline_config_path and extensions_config_path"

  /** The exceptions the loaders raise before any command reaches the engine. */
  datatype Error =
    | UnsupportedBackend(message: string)     // ValueError
    | OpenVINOConfigMissing(message: string)  // Exception
    | NotAFloat(site: FloatSite)              // raised by float(), usually ValueError

  /** Python truthiness of a string-or-None: `None` and `""` are false. */
  predicate Truthy(o: Option<string>): (b: bool)
    ensures b ==> o.Some? && |o.value| > 0
    ensures !b ==> o == None || o == Some("")
  {
    o.Some? && o.value != ""
  }

  /** The lowered backend names that select TensorFlow; each is its own
      lower-case form. */
  predicate IsTensorFlowBackend(lowered: string): (b: bool)
    ensures b ==> IsLowerWord(lowered) && ToLower(lowered) == lowered
  {
    lowered == "tensorflow" || lowered == "tf"
  }

  /** The lowered backend names that select OpenVINO; each is its own
      lower-case form, and none of them selects TensorFlow. */
  predicate IsOpenVINOBackend(lowered: string): (b: bool)
    ensures b ==> IsLowerWord(lowered) && ToLower(lowered) == lowered
    ensures b ==> !IsTensorFlowBackend(lowered)
  {
    lowered == "openvino" || lowered == "ov"
  }

  /** `load`: a native Analytics Zoo or BigDL model; `weight_path` defaults to `None`. */
  function Load(m: InferenceModel, modelPath: string, weightPath: Option<string> := None): (cmd: Command)
    ensures Decode(cmd) == Some(Call(m.bigdlType, m.value, Native(modelPath, weightPath)))
  {
    Command(m.bigdlType, LoadName, [Ref(m.value), Str(modelPath), OptStr(weightPath)])
  }

  /** `load_caffe`: a prototxt file and a Caffe model file. */
  function LoadCaffe(m: InferenceModel, modelPath: string, weightPath: string): (cmd: Command)
    ensures Decode(cmd) == Some(Call(m.bigdlType, m.value, Caffe(modelPath, weightPath)))
  {
    Command(m.bigdlType, LoadCaffeName, [Ref(m.value), Str(modelPath), Str(weightPath)])
  }

  /** `load_openvino`: an OpenVINO IR xml file and its bin file. */
  function LoadOpenVINO(m: InferenceModel, modelPath: string, weightPath: string): (cmd: Command)
    ensures Decode(cmd) == Some(Call(m.bigdlType, m.value, OpenVINO(modelPath, weightPath)))
  {
    Command(m.bigdlType, LoadOpenVINOName, [Ref(m.value), Str(modelPath), Str(weightPath)])
  }

  /** `load_openvino_int8`: an int8 OpenVINO IR and the batch size of the input. */
  function LoadOpenVINOInt8(m: InferenceModel, modelPath: string, weightPath: string,
                            batchSize: int): (cmd: Command)
    ensures Decode(cmd) == Some(Call(m.bigdlType, m.value, OpenVINOInt8(modelPath, weightPath, batchSize)))
  {
    Command(m.bigdlType, LoadOpenVINOInt8Name,
            [Ref(m.value), Str(modelPath), Str(weightPath), Int(batchSize)])
  }

  /** `load_tf`: lower-cases the backend name, then picks the TensorFlow
      loader or one of the three OpenVINO argument shapes, or raises. */
  function LoadTf(m: InferenceModel, modelPath: string, backend: string := "tensorflow",
                  intraOpParallelismThreads: int := 1, interOpParallelismThreads: int := 1,
                  usePerSessionThreads: bool := true, modelType: Option<string> := None,
                  ovPipelineConfigPath: Option<string> := None,
                  ovExtensionsConfigPath: Option<string> := None): (r: Result<Command, Error>)
    ensures r.Failure? <==>
      !IsTensorFlowBackend(ToLower(backend)) &&
      (IsOpenVINOBackend(ToLower(backend)) ==>
         !Truthy(modelType) && ovPipelineConfigPath.None? && ovExtensionsConfigPath.None?)
    ensures r.Failure? ==>
      r.error == if IsOpenVINOBackend(ToLower(backend)) then OpenVINOConfigMissing(OpenVINOConfigMessage)
                 else UnsupportedBackend(UnsupportedBackendMessage)
    ensures r.Success? ==>
      Decode(r.value).Some? &&
      Decode(r.value).value.bigdlType == m.bigdlType &&
      Decode(r.value).value.target == m.value &&
      Decode(r.value).value.request.modelPath == modelPath &&
      (Decode(r.value).value.request.TensorFlow? <==> IsTensorFlowBackend(ToLower(backend)))
  {
    var lowered := ToLower(backend);
    if IsTensorFlowBackend(lowered) then
      Success(Command(m.bigdlType, TensorFlowLoadTFName,
                      [Ref(m.value), Str(modelPath), Int(intraOpParallelismThreads),
                       Int(interOpParallelismThreads), Bool(usePerSessionThreads)]))
    else if IsOpenVINOBackend(lowered) then
      if Truthy(modelType) then
        if Truthy(ovPipelineConfigPath) then
          Success(Command(m.bigdlType, OpenVINOLoadTFName,
                          [Ref(m.value), Str(modelPath), Str(modelType.value),
                           Str(ovPipelineConfigPath.value), NoneArg]))
        else
          Success(Command(m.bigdlType, OpenVINOLoadTFName,
                          [Ref(m.value), Str(modelPath), Str(modelType.value)]))
      else if ovPipelineConfigPath.None? && ovExtensionsConfigPath.None? then
        Failure(OpenVINOConfigMissing(OpenVINOConfigMessage))
      else
        Success(Command(m.bigdlType, OpenVINOLoadTFName,
                        [Ref(m.value), Str(modelPath), OptStr(ovPipelineConfigPath),
                         OptStr(ovExtensionsConfigPath)]))
    else
      Failure(UnsupportedBackend(UnsupportedBackendMessage))
  }

  /** `load_tf_object_detection_as_openvino`: all four arguments forwarded in order. */
  function LoadTfObjectDetectionAsOpenVINO(m: InferenceModel, modelPath: string,
                                           objectDetectionModelType: string,
                                           pipelineConfigPath: string,
                                           extensionsConfigPath: string): (cmd: Command)
    ensures Decode(cmd) == Some(Call(m.bigdlType, m.value,
              TfAsOpenVINOByTypeAndConfig(modelPath, objectDetectionModelType,
                                          pipelineConfigPath, Some(extensionsConfigPath))))
  {
    Command(m.bigdlType, OpenVINOLoadTFName,
            [Ref(m.value), Str(modelPath), Str(objectDetectionModelType),
             Str(pipelineConfigPath), Str(extensionsConfigPath)])
  }

  /** `[float(value) for value in values]`: `toFloat` stands for Python's
      `float`, `None` where it raises. The list is converted left to right,
      so a failure reports the first value that does not convert. */
  function CoerceFloats<V>(toFloat: V -> Option<real>, values: seq<V>): (r: Result<seq<real>, nat>)
    ensures r.Success? <==> forall i :: 0 <= i < |values| ==> toFloat(values[i]).Some?
    ensures r.Success? ==>
      |r.value| == |values| &&
      forall i :: 0 <= i < |values| ==> r.value[i] == toFloat(values[i]).value
    ensures r.Failure? ==>
      r.error < |values| && toFloat(values[r.error]).None? &&
      forall i :: 0 <= i < r.error ==> toFloat(values[i]).Some?
  {
    if values == [] then Success([])
    else
      var init :- CoerceFloats(toFloat, values[..|values| - 1]);
      match toFloat(values[|values| - 1])
      case None => Failure(|values| - 1)
      case Some(x) => Success(init + [x])
  }

  /** The `mean_values` list and the `scale`, converted in the order Python
      evaluates the call's arguments: the list first, then the scale. */
  function CoerceMeansAndScale<V>(toFloat: V -> Option<real>, meanValues: seq<V>, scale: V):
    (r: Result<(seq<real>, real), Error>)
    ensures r.Success? <==>
      (forall i :: 0 <= i < |meanValues| ==> toFloat(meanValues[i]).Some?) && toFloat(scale).Some?
    ensures r.Success? ==>
      |r.value.0| == |meanValues| &&
      (forall i :: 0 <= i < |meanValues| ==> r.value.0[i] == toFloat(meanValues[i]).value) &&
      r.value.1 == toFloat(scale).value
    ensures r.Failure? ==> r.error.NotAFloat?
    ensures r.Failure? && r.error.site.MeanValue? ==>
      var k := r.error.site.index;
      k < |meanValues| && toFloat(meanValues[k]).None? &&
      forall i :: 0 <= i < k ==> toFloat(meanValues[i]).Some?
    ensures r.Failure? && r.error.site.Scale? ==>
      forall i :: 0 <= i < |meanValues| ==> toFloat(meanValues[i]).Some?
  {
    match CoerceFloats(toFloat, meanValues)
    case Failure(k) => Failure(NotAFloat(MeanValue(k)))
    case Success(means) =>
      match toFloat(scale)
      case None => Failure(NotAFloat(Scale))
      case Some(s) => Success((means, s))
  }

  /** `load_tf_image_classification_as_openvino`. */
  function LoadTfImageClassificationAsOpenVINO<V>(m: InferenceModel, modelPath: string,
                                                  imageClassificationModelType: string,
                                                  checkpointPath: string, inputShape: seq<int>,
                                                  ifReverseInputChannels: bool,
                                                  meanValues: seq<V>, scale: V,
                                                  toFloat: V -> Option<real>): (r: Result<Command, Error>)
    ensures r.Success? <==> CoerceMeansAndScale(toFloat, meanValues, scale).Success?
    ensures r.Failure? ==> r.error == CoerceMeansAndScale(toFloat, meanValues, scale).error
    ensures r.Success? ==>
      var (means, s) := CoerceMeansAndScale(toFloat, meanValues, scale).value;
      Decode(r.value) == Some(Call(m.bigdlType, m.value,
        TfImageClassificationAsOpenVINO(modelPath, imageClassificationModelType, checkpointPath,
                                        inputShape, ifReverseInputChannels, means, s)))
  {
    var (means, s) :- CoerceMeansAndScale(toFloat, meanValues, scale);
    Success(Command(m.bigdlType, OpenVINOLoadTFName,
                    [Ref(m.value), Str(modelPath), Str(imageClassificationModelType),
                     Str(checkpointPath), IntList(inputShape), Bool(ifReverseInputChannels),
                     FloatList(means), Float(s)]))
  }

  /** `load_tf_as_calibrated_openvino`; `network_type` is forwarded unchecked. */
  function LoadTfAsCalibratedOpenVINO<V>(m: InferenceModel, modelPath: string, modelType: string,
                                         checkpointPath: string, inputShape: seq<int>,
                                         ifReverseInputChannels: bool,
                                         meanValues: seq<V>, scale: V, networkType: string,
                                         validationFilePath: string, subset: string,
                                         opencvLibPath: string,
                                         toFloat: V -> Option<real>): (r: Result<Command, Error>)
    ensures r.Success? <==> CoerceMeansAndScale(toFloat, meanValues, scale).Success?
    ensures r.Failure? ==> r.error == CoerceMeansAndScale(toFloat, meanValues, scale).error
    ensures r.Success? ==>
      var (means, s) := CoerceMeansAndScale(toFloat, meanValues, scale).value;
      Decode(r.value) == Some(Call(m.bigdlType, m.value,
        TfAsCalibratedOpenVINO(modelPath, modelType, checkpointPath, inputShape,
                               ifReverseInputChannels, means, s, networkType,
                               validationFilePath, subset, opencvLibPath)))
  {
    var (means, s) :- CoerceMeansAndScale(toFloat, meanValues, scale);
    Success(Command(m.bigdlType, LoadTFAsCalibratedName,
                    [Ref(m.value), Str(modelPath), Str(modelType), Str(checkpointPath),
                     IntList(inputShape), Bool(ifReverseInputChannels), FloatList(means),
                     Float(s), Str(networkType), Str(validationFilePath), Str(subset),
                     Str(opencvLibPath)]))
  }
}
