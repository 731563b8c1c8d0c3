/** What `InferenceModel.load_tf` does on each path of its dispatch, stated
    over all inputs of the model in Inference. */
module LoadTfProperties {
  import opened Wrappers
  import opened Ascii
  import opened Engine
  import opened Inference

  /** The backend name is compared only after lower-casing: two names with
      the same lower-case form give the same outcome. */
  lemma CaseInsensitive(m: InferenceModel, modelPath: string, backend1: string, backend2: string,
                        intra: int, inter: int, perSession: bool, modelType: Option<string>,
                        pipeline: Option<string>, extensions: Option<string>)
    requires ToLower(backend1) == ToLower(backend2)
    ensures LoadTf(m, modelPath, backend1, intra, inter, perSession, modelType, pipeline, extensions)
         == LoadTf(m, modelPath, backend2, intra, inter, perSession, modelType, pipeline, extensions)
  {
  }

  /** Lower-casing the backend name first changes nothing. */
  lemma LoweredBackendSameOutcome(m: InferenceModel, modelPath: string, backend: string,
                                  intra: int, inter: int, perSession: bool,
                                  modelType: Option<string>, pipeline: Option<string>,
                                  extensions: Option<string>)
    ensures LoadTf(m, modelPath, ToLower(backend), intra, inter, perSession, modelType, pipeline, extensions)
         == LoadTf(m, modelPath, backend, intra, inter, perSession, modelType, pipeline, extensions)
  {
    ToLowerIdempotent(backend);
  }

  /** The TensorFlow path is taken exactly for the spellings of "tensorflow"
      and "tf" in any mix of cases, the OpenVINO path exactly for those of
      "openvino" and "ov". */
  lemma BackendSpellings(backend: string)
    ensures IsTensorFlowBackend(ToLower(backend)) <==>
      SpellsIgnoringCase(backend, "tensorflow") || SpellsIgnoringCase(backend, "tf")
    ensures IsOpenVINOBackend(ToLower(backend)) <==>
      SpellsIgnoringCase(backend, "openvino") || SpellsIgnoringCase(backend, "ov")
  {
    ToLowerIsWord(backend, "tensorflow");
    ToLowerIsWord(backend, "tf");
    ToLowerIsWord(backend, "openvino");
    ToLowerIsWord(backend, "ov");
  }

  /** "TF", "Tf", "tf" and "TensorFlow" all load the same TensorFlow command
      as the default backend. */
  lemma TensorFlowAliases(m: InferenceModel, modelPath: string)
    ensures LoadTf(m, modelPath, "TF") == LoadTf(m, modelPath)
    ensures LoadTf(m, modelPath, "Tf") == LoadTf(m, modelPath)
    ensures LoadTf(m, modelPath, "tf") == LoadTf(m, modelPath)
    ensures LoadTf(m, modelPath, "TensorFlow") == LoadTf(m, modelPath)
    ensures LoadTf(m, modelPath).Success? &&
            LoadTf(m, modelPath).value.name == TensorFlowLoadTFName
  {
    BackendSpellings("TF");
    BackendSpellings("Tf");
    BackendSpellings("tf");
    BackendSpellings("TensorFlow");
    BackendSpellings("tensorflow");
  }

  /** TensorFlow path: the model path and the three threading options, in
      that order; `model_type` and both OpenVINO paths are ignored. */
  lemma TensorFlowPath(m: InferenceModel, modelPath: string, backend: string,
                       intra: int, inter: int, perSession: bool, modelType: Option<string>,
                       pipeline: Option<string>, extensions: Option<string>)
    requires IsTensorFlowBackend(ToLower(backend))
    ensures LoadTf(m, modelPath, backend, intra, inter, perSession, modelType, pipeline, extensions)
         == Success(Command(m.bigdlType, TensorFlowLoadTFName,
                            [Ref(m.value), Str(modelPath), Int(intra), Int(inter), Bool(perSession)]))
  {
  }

  /** OpenVINO path with a non-empty `model_type` and a non-empty pipeline
      path: four arguments after the reference, the last one `None`; the
      extensions path is dropped and the threading options are ignored. */
  lemma OpenVINOTypeAndPipeline(m: InferenceModel, modelPath: string, backend: string,
                                intra: int, inter: int, perSession: bool, modelType: string,
                                pipeline: string, extensions: Option<string>)
    requires IsOpenVINOBackend(ToLower(backend))
    requires modelType != "" && pipeline != ""
    ensures LoadTf(m, modelPath, backend, intra, inter, perSession, Some(modelType), Some(pipeline), extensions)
         == Success(Command(m.bigdlType, OpenVINOLoadTFName,
                            [Ref(m.value), Str(modelPath), Str(modelType), Str(pipeline), NoneArg]))
  {
  }

  /** OpenVINO path with a non-empty `model_type` and an absent or empty
      pipeline path: just the model path and the model type. */
  lemma OpenVINOTypeOnly(m: InferenceModel, modelPath: string, backend: string,
                         intra: int, inter: int, perSession: bool, modelType: string,
                         pipeline: Option<string>, extensions: Option<string>)
    requires IsOpenVINOBackend(ToLower(backend))
    requires modelType != "" && !Truthy(pipeline)
    ensures LoadTf(m, modelPath, backend, intra, inter, perSession, Some(modelType), pipeline, extensions)
         == Success(Command(m.bigdlType, OpenVINOLoadTFName,
                            [Ref(m.value), Str(modelPath), Str(modelType)]))
  {
  }

  /** OpenVINO path without a (non-empty) `model_type`: it raises exactly
      when both paths are `None`, and otherwise forwards both paths as given,
      `None` and `""` included. */
  lemma OpenVINOByConfig(m: InferenceModel, modelPath: string, backend: string,
                         intra: int, inter: int, perSession: bool, modelType: Option<string>,
                         pipeline: Option<string>, extensions: Option<string>)
    requires IsOpenVINOBackend(ToLower(backend))
    requires !Truthy(modelType)
    ensures var r := LoadTf(m, modelPath, backend, intra, inter, perSession, modelType, pipeline, extensions);
      if pipeline.None? && extensions.None? then
        r == Failure(OpenVINOConfigMissing(OpenVINOConfigMessage))
      else
        r == Success(Command(m.bigdlType, OpenVINOLoadTFName,
                             [Ref(m.value), Str(modelPath), OptStr(pipeline), OptStr(extensions)]))
  {
  }

  /** Any other backend name raises `ValueError`, whatever the other options. */
  lemma UnsupportedBackendRaises(m: InferenceModel, modelPath: string, backend: string,
                                 intra: int, inter: int, perSession: bool,
                                 modelType: Option<string>, pipeline: Option<string>,
                                 extensions: Option<string>)
    requires !IsTensorFlowBackend(ToLower(backend)) && !IsOpenVINOBackend(ToLower(backend))
    ensures LoadTf(m, modelPath, backend, intra, inter, perSession, modelType, pipeline, extensions)
         == Failure(UnsupportedBackend(UnsupportedBackendMessage))
  {
  }

  /** `model_type` is tested for truthiness, the two paths by the `is None` test:
      an empty `model_type` counts as absent, one empty path is enough to get
      past the check, and one path alone is accepted. */
  lemma TruthinessEdgeCases(m: InferenceModel, modelPath: string)
    ensures LoadTf(m, modelPath, "openvino", modelType := Some(""), ovPipelineConfigPath := Some("p"))
         == LoadTf(m, modelPath, "openvino", modelType := None, ovPipelineConfigPath := Some("p"))
    ensures LoadTf(m, modelPath, "OV", modelType := Some("")).Failure?
    ensures LoadTf(m, modelPath, "OV", ovExtensionsConfigPath := Some(""))
         == Success(Command(m.bigdlType, OpenVINOLoadTFName,
                            [Ref(m.value), Str(modelPath), NoneArg, Str("")]))
    ensures LoadTf(m, modelPath, "ov", ovPipelineConfigPath := Some("p"))
         == Success(Command(m.bigdlType, OpenVINOLoadTFName,
                            [Ref(m.value), Str(modelPath), Str("p"), NoneArg]))
  {
    BackendSpellings("OV");
    BackendSpellings("ov");
    BackendSpellings("openvino");
  }
}
