/** The call protocol between the Python `InferenceModel` wrapper and the JVM
    engine: a command is the numeric type tag, a command name and an ordered
    list of arguments, exactly what `callBigDlFunc` receives. `Decode` is the
    typed reading of a command by name and arity: the loader request it
    stands for, or `None` for a command of no loader's name and arity. */
module Engine {
  import opened Wrappers

  /** An opaque reference to the model instance living in the JVM (`self.value`). */
  datatype JavaRef = JavaRef(id: nat)

  datatype Arg =
    | NoneArg                    // Python `None`
    | Ref(target: JavaRef)       // the JVM-side model object
    | Str(s: string)
    | Int(n: int)
    | Bool(b: bool)
    | Float(x: real)
    | IntList(ns: seq<int>)
    | FloatList(xs: seq<real>)

  datatype Command = Command(bigdlType: string, name: string, args: seq<Arg>)

  const LoadName := "inferenceModelLoad"
  const LoadCaffeName := "inferenceModelLoadCaffe"
  const LoadOpenVINOName := "inferenceModelLoadOpenVINO"
  const LoadOpenVINOInt8Name := "inferenceModelLoadOpenVINOInt8"
  const TensorFlowLoadTFName := "inferenceModelTensorFlowLoadTF"
  const OpenVINOLoadTFName := "inferenceModelOpenVINOLoadTF"
  const LoadTFAsCalibratedName := "inferenceModelOpenVINOLoadTFAsCalibratedOpenVINO"

  /** A string-or-None value as it is passed to the engine. */
  function OptStr(o: Option<string>): (a: Arg)
    ensures a.NoneArg? <==> o.None?
    ensures a.Str? ==> o == Some(a.s)
    ensures o.Some? ==> a == Str(o.value)
  {
    match o
    case None => NoneArg
    case Some(s) => Str(s)
  }

  /** What the engine is asked to load, one variant per argument shape. */
  datatype LoadRequest =
    | Native(modelPath: string, optWeightPath: Option<string>)
    | Caffe(modelPath: string, weightPath: string)
    | OpenVINO(modelPath: string, weightPath: string)
    | OpenVINOInt8(modelPath: string, weightPath: string, batchSize: int)
    | TensorFlow(modelPath: string, intraOpThreads: int, interOpThreads: int,
                 usePerSessionThreads: bool)
    | TfAsOpenVINOByType(modelPath: string, modelType: string)
    | TfAsOpenVINOByConfig(modelPath: string, optPipelineConfigPath: Option<string>,
                           extensionsConfigPath: Option<string>)
    | TfAsOpenVINOByTypeAndConfig(modelPath: string, modelType: string,
                                  pipelineConfigPath: string,
                                  extensionsConfigPath: Option<string>)
    | TfImageClassificationAsOpenVINO(modelPath: string, modelType: string,
                                      checkpointPath: string, inputShape: seq<int>,
                                      reverseInputChannels: bool,
                                      meanValues: seq<real>, scale: real)
    | TfAsCalibratedOpenVINO(modelPath: string, modelType: string,
                             checkpointPath: string, inputShape: seq<int>,
                             reverseInputChannels: bool,
                             meanValues: seq<real>, scale: real,
                             networkType: string, validationFilePath: string,
                             subset: string, opencvLibPath: string)

  /** A decoded command: which model object, at which numeric type, is asked to load what. */
  datatype Call = Call(bigdlType: string, target: JavaRef, request: LoadRequest)

  function AsRef(a: Arg): Option<JavaRef> {
    if a.Ref? then Some(a.target) else None
  }

  function AsStr(a: Arg): Option<string> {
    if a.Str? then Some(a.s) else None
  }

  function AsOptStr(a: Arg): Option<Option<string>> {
    match a
    case NoneArg => Some(None)
    case Str(s) => Some(Some(s))
    case _ => None
  }

  function AsInt(a: Arg): Option<int> {
    if a.Int? then Some(a.n) else None
  }

  function AsBool(a: Arg): Option<bool> {
    if a.Bool? then Some(a.b) else None
  }

  function AsFloat(a: Arg): Option<real> {
    if a.Float? then Some(a.x) else None
  }

  function AsIntList(a: Arg): Option<seq<int>> {
    if a.IntList? then Some(a.ns) else None
  }

  function AsFloatList(a: Arg): Option<seq<real>> {
    if a.FloatList? then Some(a.xs) else None
  }

  /** Reads the arguments that follow the model reference. */
  function DecodeRequest(name: string, xs: seq<Arg>): Option<LoadRequest> {
    if name == LoadName && |xs| == 2 then
      var p :- AsStr(xs[0]);
      var w :- AsOptStr(xs[1]);
      Some(Native(p, w))
    else if name == LoadCaffeName && |xs| == 2 then
      var p :- AsStr(xs[0]);
      var w :- AsStr(xs[1]);
      Some(Caffe(p, w))
    else if name == LoadOpenVINOName && |xs| == 2 then
      var p :- AsStr(xs[0]);
      var w :- AsStr(xs[1]);
      Some(OpenVINO(p, w))
    else if name == LoadOpenVINOInt8Name && |xs| == 3 then
      var p :- AsStr(xs[0]);
      var w :- AsStr(xs[1]);
      var b :- AsInt(xs[2]);
      Some(OpenVINOInt8(p, w, b))
    else if name == TensorFlowLoadTFName && |xs| == 4 then
      var p :- AsStr(xs[0]);
      var intra :- AsInt(xs[1]);
      var inter :- AsInt(xs[2]);
      var perSession :- AsBool(xs[3]);
      Some(TensorFlow(p, intra, inter, perSession))
    else if name == OpenVINOLoadTFName && |xs| == 2 then
      var p :- AsStr(xs[0]);
      var t :- AsStr(xs[1]);
      Some(TfAsOpenVINOByType(p, t))
    else if name == OpenVINOLoadTFName && |xs| == 3 then
      var p :- AsStr(xs[0]);
      var pipeline :- AsOptStr(xs[1]);
      var extensions :- AsOptStr(xs[2]);
      Some(TfAsOpenVINOByConfig(p, pipeline, extensions))
    else if name == OpenVINOLoadTFName && |xs| == 4 then
      var p :- AsStr(xs[0]);
      var t :- AsStr(xs[1]);
      var pipeline :- AsStr(xs[2]);
      var extensions :- AsOptStr(xs[3]);
      Some(TfAsOpenVINOByTypeAndConfig(p, t, pipeline, extensions))
    else if name == OpenVINOLoadTFName && |xs| == 7 then
      var p :- AsStr(xs[0]);
      var t :- AsStr(xs[1]);
      var checkpoint :- AsStr(xs[2]);
      var shape :- AsIntList(xs[3]);
      var reverse :- AsBool(xs[4]);
      var means :- AsFloatList(xs[5]);
      var scale :- AsFloat(xs[6]);
      Some(TfImageClassificationAsOpenVINO(p, t, checkpoint, shape, reverse, means, scale))
    else if name == LoadTFAsCalibratedName && |xs| == 11 then
      var p :- AsStr(xs[0]);
      var t :- AsStr(xs[1]);
      var checkpoint :- AsStr(xs[2]);
      var shape :- AsIntList(xs[3]);
      var reverse :- AsBool(xs[4]);
      var means :- AsFloatList(xs[5]);
      var scale :- AsFloat(xs[6]);
      var network :- AsStr(xs[7]);
      var validation :- AsStr(xs[8]);
      var subset :- AsStr(xs[9]);
      var opencv :- AsStr(xs[10]);
      Some(TfAsCalibratedOpenVINO(p, t, checkpoint, shape, reverse, means, scale,
                                  network, validation, subset, opencv))
    else
      None
  }

  /** The load request a command stands for; every loader puts the model
      reference first. */
  function Decode(cmd: Command): Option<Call> {
    if |cmd.args| == 0 then None
    else
      var target :- AsRef(cmd.args[0]);
      var request :- DecodeRequest(cmd.name, cmd.args[1..]);
      Some(Call(cmd.bigdlType, target, request))
  }
}
