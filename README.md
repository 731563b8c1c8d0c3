# InferenceModel loaders, modelled in Dafny

This project models the load paths of Analytics Zoo's Python `InferenceModel`
(`pyzoo/zoo/pipeline/inference/inference_model.py`). That class is a facade
over a JVM inference engine. Each `load*` method either forwards a single
command to the engine through `callBigDlFunc` or raises before sending
anything. The model captures that outcome as a value: a `Command` (numeric
type tag, command name, ordered argument list) or an `Error`.

- `Wrappers.dfy`: `Option` (a Python value or `None`) and `Result` (a value or
  the exception raised).
- `Ascii.dfy`: ASCII lower-casing, which stands in for `str.lower()` in the
  backend match, with its characterisation.
- `Engine.dfy`: the call protocol. It holds the `Arg` and `Command` types and
  the engine command names. It also holds `LoadRequest`, a typed view of what
  each command asks the engine to load, and `Decode`, which reads a command
  back into a `LoadRequest` by name and arity. `Decode` is the
  specification each loader's contract is stated against: the contract says
  that the loader's command decodes to the request its parameters describe,
  on this model's JVM object.
- `Inference.dfy`: the `InferenceModel` value (`self.value`,
  `self.bigdl_type`), the exceptions, and every loader, including the
  `load_tf` dispatch.
- `LoadTfProperties.dfy`: what `load_tf` does on each path of its dispatch.

Python truthiness is written out. `if model_type:` and
`if ov_pipeline_config_path:` treat `""` like `None`. The test at line 119
uses `is None`, so there `""` counts as a supplied path. ASCII lower-casing
is exact for this dispatch: the only non-ASCII characters that Python
lower-cases to ASCII letters are U+0130, which becomes two characters, and
U+212A, which becomes `k`. Neither can produce "tensorflow", "tf",
"openvino" or "ov".

Two behaviours of the code are easy to misread:
- The docstring of `load_tf` (lines 87-88 and 102-103) and the message of the
  exception it raises (lines 120-121) ask for both `ov_pipeline_config_path`
  and `ov_extensions_config_path` when `model_type` is not given. The test at
  line 119 raises only when both are `None`. One path on its own is accepted
  and forwarded with `None` for the other; the model follows line 119.
- `InferenceModel` keeps no loaded flag and accepts repeated loads. It checks
  neither path emptiness nor `network_type`. The model claims none of these
  checks.

## Model

| member | source | states |
|---|---|---|
| Ascii.ToLower | pyzoo/zoo/pipeline/inference/inference_model.py:105 | the lowered name has the same length and each character is the ASCII lower-case of the original one |
| Ascii.LowerChar | pyzoo/zoo/pipeline/inference/inference_model.py:105 | an upper-case ASCII letter becomes its lower-case letter; every other character is unchanged |
| Ascii.LowerCharTo | pyzoo/zoo/pipeline/inference/inference_model.py:105 | a character lower-cases to a lower-case letter exactly when it is that letter or its upper-case form |
| Ascii.ToLowerIdempotent | pyzoo/zoo/pipeline/inference/inference_model.py:105 | lower-casing twice is the same as lower-casing once |
| Ascii.ToLowerIsWord | pyzoo/zoo/pipeline/inference/inference_model.py:105-106 | a name lowers to a lower-case word exactly when it spells that word in any mix of cases |
| Engine.OptStr | pyzoo/zoo/pipeline/inference/inference_model.py:41-42 | an optional string reaches the engine as `None` exactly when it is absent, and otherwise as that string |
| Inference.Truthy | pyzoo/zoo/pipeline/inference/inference_model.py:111-112 | an optional string is falsy exactly when it is `None` or `""` |
| Inference.IsTensorFlowBackend | pyzoo/zoo/pipeline/inference/inference_model.py:106 | the names that select TensorFlow are lower-case words that lowering leaves unchanged |
| Inference.IsOpenVINOBackend | pyzoo/zoo/pipeline/inference/inference_model.py:110 | the names that select OpenVINO are lower-case words that lowering leaves unchanged, and none of them selects TensorFlow |
| Inference.Load | pyzoo/zoo/pipeline/inference/inference_model.py:34-42 | the command decodes to a native-model load on this model object, carrying model_path and weight_path, with weight_path `None` when omitted |
| Inference.LoadCaffe | pyzoo/zoo/pipeline/inference/inference_model.py:44-52 | the command decodes to a Caffe load on this model object with the prototxt and model paths in order |
| Inference.LoadOpenVINO | pyzoo/zoo/pipeline/inference/inference_model.py:54-62 | the command decodes to an OpenVINO IR load on this model object with the xml and bin paths in order |
| Inference.LoadOpenVINOInt8 | pyzoo/zoo/pipeline/inference/inference_model.py:64-73 | the command decodes to an int8 OpenVINO IR load on this model object with both paths and the batch size |
| Inference.LoadTf | pyzoo/zoo/pipeline/inference/inference_model.py:75-126 | it raises exactly when the lowered backend is neither TensorFlow nor OpenVINO, or is OpenVINO with no truthy model_type and both paths `None`; the exception is the config `Exception` on the OpenVINO path and `ValueError` otherwise, each with the source's message; a command always decodes to a load on this model with the given model path, and to the TensorFlow load exactly on the TensorFlow path |
| Inference.LoadTfObjectDetectionAsOpenVINO | pyzoo/zoo/pipeline/inference/inference_model.py:128-148 | the command decodes to a TF-as-OpenVINO load with model type, pipeline path and the extensions path all forwarded |
| Inference.CoerceFloats | pyzoo/zoo/pipeline/inference/inference_model.py:180 | it succeeds exactly when every value converts, keeping length, order and each converted value; otherwise it names the first value that does not convert |
| Inference.CoerceMeansAndScale | pyzoo/zoo/pipeline/inference/inference_model.py:180-181 | the mean values are converted before the scale: a failure names the first bad mean value, or the scale only when every mean value converts |
| Inference.LoadTfImageClassificationAsOpenVINO | pyzoo/zoo/pipeline/inference/inference_model.py:150-181 | it raises exactly when a conversion raises, with that error; otherwise the command decodes to an image-classification load carrying every parameter in order and the converted means and scale |
| Inference.LoadTfAsCalibratedOpenVINO | pyzoo/zoo/pipeline/inference/inference_model.py:183-233 | it raises exactly when a conversion raises, with that error; otherwise the command decodes to a calibrated-OpenVINO load carrying all eleven parameters in order, the network type unchecked |
| LoadTfProperties.CaseInsensitive | pyzoo/zoo/pipeline/inference/inference_model.py:105-106 | two backend names with the same lower-case form give the same outcome |
| LoadTfProperties.LoweredBackendSameOutcome | pyzoo/zoo/pipeline/inference/inference_model.py:105 | passing the already-lowered backend name gives the same outcome as the name itself |
| LoadTfProperties.BackendSpellings | pyzoo/zoo/pipeline/inference/inference_model.py:105-110 | the TensorFlow path is taken exactly for case variants of "tensorflow" and "tf", the OpenVINO path exactly for case variants of "openvino" and "ov" |
| LoadTfProperties.TensorFlowAliases | pyzoo/zoo/pipeline/inference/inference_model.py:105-109 | "TF", "Tf", "tf" and "TensorFlow" give the same TensorFlow command as the default backend |
| LoadTfProperties.TensorFlowPath | pyzoo/zoo/pipeline/inference/inference_model.py:106-109 | the TensorFlow command carries exactly model_path and the three threading options, whatever model_type and the OpenVINO paths are |
| LoadTfProperties.OpenVINOTypeAndPipeline | pyzoo/zoo/pipeline/inference/inference_model.py:111-114 | a non-empty model_type with a non-empty pipeline path gives (model_path, model_type, pipeline, None), dropping the extensions path |
| LoadTfProperties.OpenVINOTypeOnly | pyzoo/zoo/pipeline/inference/inference_model.py:115-117 | a non-empty model_type with an absent or empty pipeline path gives (model_path, model_type) |
| LoadTfProperties.OpenVINOByConfig | pyzoo/zoo/pipeline/inference/inference_model.py:118-124 | without a truthy model_type it raises exactly when both paths are `None`, and otherwise forwards both paths unchanged |
| LoadTfProperties.UnsupportedBackendRaises | pyzoo/zoo/pipeline/inference/inference_model.py:125-126 | any other lowered backend raises `ValueError` with the source's message, whatever the other options |
| LoadTfProperties.TruthinessEdgeCases | pyzoo/zoo/pipeline/inference/inference_model.py:111-124 | an empty model_type acts as absent; an empty extensions path alone passes the `None` test; a pipeline path alone is forwarded with `None` |

## Left out

- `predict` (lines 235-247): the input and output conversion lives in `Layer.check_input` and `KerasNet.convert_output`, which are not part of this model. What remains is one foreign call.
- Construction (lines 31-32): `JavaValue` is not part of this model. A model is given as its JVM reference and `bigdl_type`. `supported_concurrent_num` is only passed on to the JVM constructor, and concurrency is out of scope.
- The effect of `callBigDlFunc` (loading, execution, JVM-side errors) is a foreign call. Only the command it receives is modelled.
- Python's `float(...)` (lines 180-181 and 228-229) is the parameter `toFloat`. It returns `None` where `float` would raise. The model reports every such failure as `NotAFloat`, labelled `ValueError`, although `float(None)` raises `TypeError` and `float(10**400)` raises `OverflowError`. Its rounding and parsing are not modelled, and converted values are `real`s, so `float("nan")` and `float("inf")`, which succeed in Python, have no value in the model.
- Arguments are typed: paths and names are strings, threading options and `batch_size` are integers, and `input_shape` is a list of integers. Python's dynamic typing lets callers pass other objects, for example `None` for a required path or a non-string `backend`, which would make `.lower()` raise `AttributeError`. Those calls are not modelled.
- `Ascii.ToLower` lower-cases ASCII letters only. Full Unicode `str.lower()` is not modelled; as explained above, this does not change the dispatch.
- The JVM's integer widths are not modelled: integers are unbounded.
