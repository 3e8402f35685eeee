/*
 * Process model discovery with Split Miner (simod/control_flow/discovery.py):
 * the java command lines for Split Miner v1 and v2 and for the BPMN layout
 * tool, and the dispatch on the discovery algorithm.
 *
 * The platform test is the parameter `isWindows`. Running a command is not
 * modelled: what discover_process_model checks afterwards, that the output
 * model exists, is the parameter `produced`, which says whether running a
 * given command line leaves the model file in place. Paths are their text;
 * the directory the module lives in is the parameter `moduleDir`.
 */
module Discovery {
  import opened Python
  import opened Values

  /** The algorithms of ProcessModelDiscoveryAlgorithm; members other than the two Split Miners are opaque. */
  datatype ProcessModelDiscoveryAlgorithm = SplitMinerV1 | SplitMinerV2 | OtherAlgorithm(name: string)

  /** The fields of HyperoptIterationParams the dispatch reads; eta and epsilon are loaded values (a float or None). */
  datatype HyperoptIterationParams = HyperoptIterationParams(
    miningAlgorithm: ProcessModelDiscoveryAlgorithm,
    eta: Value,
    epsilon: Value,
    prioritizeParallelism: bool,
    replaceOrJoins: bool)

  datatype SplitMinerV1Settings = SplitMinerV1Settings(
    logPath: string,
    outputModelPath: string,
    eta: Value,
    epsilon: Value,
    parallelismFirst: bool,
    replaceOrJoins: bool,
    removeLoopActivityMarkers: bool)

  datatype SplitMinerV2Settings = SplitMinerV2Settings(logPath: string, outputModelPath: string, epsilon: Value)

  /** What _prepare_split_miner_params returns: the start of the command and the three path arguments. */
  datatype Prepared = Prepared(args: seq<string>, splitMinerPath: string, inputLogPath: string, modelOutputPath: string)

  function SplitMinerJar(moduleDir: string): string {
    Join(moduleDir, "lib/split-miner-1.7.1-all.jar")
  }

  function BpmnLayoutJar(moduleDir: string): string {
    Join(moduleDir, "lib/bpmn-layout-1.0.6-jar-with-dependencies.jar")
  }

  const HeadlessFlag := "-Djava.awt.headless=true"

  // ------------------------------------------------------------ add_bpmn_diagram_to_model

  /** The layout command: java -jar and the layout jar and the model, each in double quotes. */
  function BpmnDiagramArgs(layoutJar: string, modelPath: string): (r: seq<string>)
    ensures |r| == 4 && r[0] == "java" && r[1] == "-jar"
    ensures Unquote(r[2]) == Some(layoutJar) && Unquote(r[3]) == Some(modelPath)
  {
    UnquoteQuote(layoutJar);
    UnquoteQuote(modelPath);
    ["java", "-jar", Quote(layoutJar), Quote(modelPath)]
  }

  // ------------------------------------------------------------ _prepare_split_miner_params

  /** The java launcher and its flags: memory limits off Windows, and the headless flag when asked for. */
  function JavaPrefix(isWindows: bool, headless: bool): (r: seq<string>)
    ensures |r| == (if isWindows then 1 else 3) + (if headless then 1 else 0)
    ensures r[0] == "java"
    ensures !isWindows ==> r[..3] == ["java", "-Xmx2G", "-Xms1024M"]
    ensures "-Xmx2G" in r <==> !isWindows
    ensures "-Xms1024M" in r <==> !isWindows
    ensures HeadlessFlag in r <==> headless
    ensures headless ==> r[|r| - 1] == HeadlessFlag
  {
    var java := if isWindows then ["java"] else ["java", "-Xmx2G", "-Xms1024M"];
    java + if headless then [HeadlessFlag] else []
  }

  /** A path argument: in double quotes on Windows, bare elsewhere. */
  function PathArg(isWindows: bool, path: string): string {
    if isWindows then Quote(path) else path
  }

  lemma PathArgQuoting(isWindows: bool, path: string)
    ensures isWindows ==> Unquote(PathArg(isWindows, path)) == Some(path)
    ensures !isWindows ==> PathArg(isWindows, path) == path
  {
    UnquoteQuote(path);
  }

  /** The output model argument: stripped of its suffix, given the suffix ".bpmn", or kept. */
  function OutputPathArg(isWindows: bool, outputModelPath: string, stripOutputSuffix: bool): Result<string> {
    if stripOutputSuffix then
      var stripped :- WithSuffix(outputModelPath, "");
      Ok(PathArg(isWindows, stripped))
    else if !Contains(outputModelPath, ".bpmn") then
      WithSuffix(outputModelPath, ".bpmn")
    else Ok(PathArg(isWindows, outputModelPath))
  }

  /** Working out the output argument fails, with ValueError, exactly when with_suffix is called on a path with an empty name. */
  lemma OutputPathArgFails(isWindows: bool, outputModelPath: string, stripOutputSuffix: bool)
    ensures OutputPathArg(isWindows, outputModelPath, stripOutputSuffix).Err? <==>
      PathName(outputModelPath) == "" && (stripOutputSuffix || !Contains(outputModelPath, ".bpmn"))
    ensures OutputPathArg(isWindows, outputModelPath, stripOutputSuffix).Err? ==>
      OutputPathArg(isWindows, outputModelPath, stripOutputSuffix).error == ValueError
  {
  }

  /** With the suffix stripped, the argument is the path without the suffix of its name: putting the suffix back gives the path. */
  lemma OutputPathArgStripped(isWindows: bool, outputModelPath: string)
    requires OutputPathArg(isWindows, outputModelPath, true).Ok?
    ensures var stripped := WithSuffix(outputModelPath, "").value;
      && OutputPathArg(isWindows, outputModelPath, true).value == PathArg(isWindows, stripped)
      && stripped + NameSuffix(PathName(outputModelPath)) == outputModelPath
  {
    StripSuffixRoundTrip(outputModelPath);
  }

  /**
   * A path without ".bpmn" anywhere gets the suffix ".bpmn", which its name
   * then reads back, and is not quoted even on Windows.
   */
  lemma OutputPathArgBpmn(isWindows: bool, outputModelPath: string)
    requires !Contains(outputModelPath, ".bpmn") && PathName(outputModelPath) != ""
    ensures var r := OutputPathArg(isWindows, outputModelPath, false);
      && r == WithSuffix(outputModelPath, ".bpmn")
      && r.Ok?
      && NameSuffix(PathName(r.value)) == ".bpmn"
      && PathName(r.value) == NameStem(PathName(outputModelPath)) + ".bpmn"
      && Contains(r.value, ".bpmn")
  {
    assert PlainSuffix(".bpmn");
    WithSuffixName(outputModelPath, ".bpmn");
    WithSuffixEndsWith(outputModelPath, ".bpmn");
  }

  /** A path that already has ".bpmn" in it is kept, quoted on Windows. */
  lemma OutputPathArgKept(isWindows: bool, outputModelPath: string)
    requires Contains(outputModelPath, ".bpmn")
    ensures OutputPathArg(isWindows, outputModelPath, false) == Ok(PathArg(isWindows, outputModelPath))
  {
  }

  /** What _prepare_split_miner_params returns, or the error with_suffix raises. */
  function Prepare(isWindows: bool, splitMiner: string, logPath: string, outputModelPath: string,
                   stripOutputSuffix: bool, headless: bool): Result<Prepared> {
    var output :- OutputPathArg(isWindows, outputModelPath, stripOutputSuffix);
    Ok(Prepared(JavaPrefix(isWindows, headless), PathArg(isWindows, splitMiner), PathArg(isWindows, logPath), output))
  }

  /** The prepared command starts with the java launcher and its flags; the jar and log arguments are quoted exactly on Windows. */
  lemma PrepareSpec(isWindows: bool, splitMiner: string, logPath: string, outputModelPath: string,
                    stripOutputSuffix: bool, headless: bool)
    ensures var r := Prepare(isWindows, splitMiner, logPath, outputModelPath, stripOutputSuffix, headless);
      && (r.Err? <==> OutputPathArg(isWindows, outputModelPath, stripOutputSuffix).Err?)
      && (r.Err? ==> r.error == ValueError)
      && (r.Ok? ==> r.value.args == JavaPrefix(isWindows, headless))
      && (r.Ok? && isWindows ==> Unquote(r.value.splitMinerPath) == Some(splitMiner) && Unquote(r.value.inputLogPath) == Some(logPath))
      && (r.Ok? && !isWindows ==> r.value.splitMinerPath == splitMiner && r.value.inputLogPath == logPath)
      && (r.Ok? ==> r.value.modelOutputPath == OutputPathArg(isWindows, outputModelPath, stripOutputSuffix).value)
  {
    OutputPathArgFails(isWindows, outputModelPath, stripOutputSuffix);
    PathArgQuoting(isWindows, splitMiner);
    PathArgQuoting(isWindows, logPath);
  }

  /** The output model argument as _prepare_split_miner_params works it out on each platform. */
  method ModelOutputPath(outputModelPath: string, stripOutputSuffix: bool, isWindows: bool) returns (r: Result<string>)
    ensures r == OutputPathArg(isWindows, outputModelPath, stripOutputSuffix)
  {
    if isWindows {
      if stripOutputSuffix {
        var stripped :- WithSuffix(outputModelPath, "");
        return Ok("\"" + stripped + "\"");
      } else if !Contains(outputModelPath, ".bpmn") {
        r := WithSuffix(outputModelPath, ".bpmn");
      } else {
        return Ok("\"" + outputModelPath + "\"");
      }
    } else {
      if stripOutputSuffix {
        r := WithSuffix(outputModelPath, "");
      } else if !Contains(outputModelPath, ".bpmn") {
        r := WithSuffix(outputModelPath, ".bpmn");
      } else {
        return Ok(outputModelPath);
      }
    }
  }

  /** _prepare_split_miner_params: the launcher and path arguments of the two platforms. */
  method PrepareSplitMinerParams(splitMiner: string, logPath: string, outputModelPath: string,
                                 stripOutputSuffix: bool, headless: bool, isWindows: bool) returns (r: Result<Prepared>)
    ensures r == Prepare(isWindows, splitMiner, logPath, outputModelPath, stripOutputSuffix, headless)
  {
    var args: seq<string>;
    var splitMinerPath: string;
    var inputLogPath: string;
    if isWindows {
      args := ["java"];
      if headless {
        args := args + [HeadlessFlag];
      }
      splitMinerPath := "\"" + splitMiner + "\"";
      inputLogPath := "\"" + logPath + "\"";
    } else {
      args := ["java", "-Xmx2G", "-Xms1024M"];
      if headless {
        args := args + [HeadlessFlag];
      }
      splitMinerPath := splitMiner;
      inputLogPath := logPath;
    }
    assert args == JavaPrefix(isWindows, headless);
    assert splitMinerPath == PathArg(isWindows, splitMiner) && inputLogPath == PathArg(isWindows, logPath);
    var modelOutputPath :- ModelOutputPath(outputModelPath, stripOutputSuffix, isWindows);
    return Ok(Prepared(args, splitMinerPath, inputLogPath, modelOutputPath));
  }

  // ------------------------------------------------------------ Split Miner v1 and v2

  lemma ConcatSlices<T>(a: seq<T>, b: seq<T>, c: seq<T>)
    ensures (a + b + c)[..|a|] == a
    ensures (a + b + c)[|a|..|a| + |b|] == b
    ensures (a + b + c)[|a| + |b|..] == c
  {
    assert (a + b + c)[..|a|] == a;
    assert (a + b + c)[|a|..|a| + |b|] == b;
    assert (a + b + c)[|a| + |b|..] == c;
  }

  /** The order of the optional v1 flags. */
  function FlagRank(flag: string): int {
    if flag == "--parallelismFirst" then 0
    else if flag == "--replaceIORs" then 1
    else if flag == "--removeLoopActivityMarkers" then 2
    else 3
  }

  /** The optional v1 flags: each exactly when its setting is on, in a fixed order. */
  function V1Flags(settings: SplitMinerV1Settings): (r: seq<string>)
    ensures "--parallelismFirst" in r <==> settings.parallelismFirst
    ensures "--replaceIORs" in r <==> settings.replaceOrJoins
    ensures "--removeLoopActivityMarkers" in r <==> settings.removeLoopActivityMarkers
    ensures forall i :: 0 <= i < |r| ==> FlagRank(r[i]) < 3
    ensures forall i, j :: 0 <= i < j < |r| ==> FlagRank(r[i]) < FlagRank(r[j])
  {
    (if settings.parallelismFirst then ["--parallelismFirst"] else [])
    + (if settings.replaceOrJoins then ["--replaceIORs"] else [])
    + (if settings.removeLoopActivityMarkers then ["--removeLoopActivityMarkers"] else [])
  }

  /** The tail of discover_process_model_with_split_miner_v1's command: each flag appended when its setting is on. */
  method AppendV1Flags(args: seq<string>, settings: SplitMinerV1Settings) returns (r: seq<string>)
    ensures r == args + V1Flags(settings)
  {
    r := args;
    if settings.parallelismFirst {
      r := r + ["--parallelismFirst"];
    }
    if settings.replaceOrJoins {
      r := r + ["--replaceIORs"];
    }
    if settings.removeLoopActivityMarkers {
      r := r + ["--removeLoopActivityMarkers"];
    }
  }

  /** The options every v1 command carries: the jar, log and output arguments, and eta and epsilon as str() renders them. */
  function V1Options(p: Prepared, settings: SplitMinerV1Settings): seq<string> {
    ["-jar", p.splitMinerPath, "--logPath", p.inputLogPath, "--outputPath", p.modelOutputPath,
     "--eta", Str(settings.eta), "--epsilon", Str(settings.epsilon)]
  }

  /** The v1 command line: the prepared start, the fixed options and then the optional flags. */
  function V1Args(p: Prepared, settings: SplitMinerV1Settings): (r: seq<string>)
    ensures |r| == |p.args| + 10 + |V1Flags(settings)|
    ensures r[..|p.args|] == p.args
    ensures r[|p.args|..|p.args| + 10] == V1Options(p, settings)
    ensures r[|p.args| + 6] == "--eta" && r[|p.args| + 7] == Str(settings.eta)
    ensures r[|p.args| + 8] == "--epsilon" && r[|p.args| + 9] == Str(settings.epsilon)
    ensures r[|p.args| + 10..] == V1Flags(settings)
  {
    ConcatSlices(p.args, V1Options(p, settings), V1Flags(settings));
    p.args + V1Options(p, settings) + V1Flags(settings)
  }

  lemma V1ArgsDisplay(p: Prepared, settings: SplitMinerV1Settings)
    ensures V1Args(p, settings) == p.args + [
      "-jar", p.splitMinerPath, "--logPath", p.inputLogPath, "--outputPath", p.modelOutputPath,
      "--eta", Str(settings.eta), "--epsilon", Str(settings.epsilon)] + V1Flags(settings)
  {
  }

  function V1Command(isWindows: bool, jar: string, settings: SplitMinerV1Settings): Result<seq<string>> {
    var p :- Prepare(isWindows, jar, settings.logPath, settings.outputModelPath, false, true);
    Ok(V1Args(p, settings))
  }

  /** discover_process_model_with_split_miner_v1, up to the launch: the command it runs. */
  method SplitMinerV1Command(settings: SplitMinerV1Settings, jar: string, isWindows: bool) returns (r: Result<seq<string>>)
    ensures r == V1Command(isWindows, jar, settings)
  {
    var prepared :- PrepareSplitMinerParams(jar, settings.logPath, settings.outputModelPath, false, true, isWindows);
    var args := prepared.args;
    args := args + [
      "-jar", prepared.splitMinerPath,
      "--logPath", prepared.inputLogPath,
      "--outputPath", prepared.modelOutputPath,
      "--eta", Str(settings.eta),
      "--epsilon", Str(settings.epsilon)];
    args := AppendV1Flags(args, settings);
    V1ArgsDisplay(prepared, settings);
    return Ok(args);
  }

  /** The options of a v2 command: the jar, log and output arguments and epsilon; there is no eta. */
  function V2Options(p: Prepared, settings: SplitMinerV2Settings): seq<string> {
    ["-jar", p.splitMinerPath, "--logPath", p.inputLogPath, "--outputPath", p.modelOutputPath,
     "--epsilon", Str(settings.epsilon)]
  }

  /** The v2 command line: the prepared start, the options and, last, the flag that selects Split Miner 2. */
  function V2Args(p: Prepared, settings: SplitMinerV2Settings): (r: seq<string>)
    ensures |r| == |p.args| + 9
    ensures r[..|p.args|] == p.args
    ensures r[|p.args|..|p.args| + 8] == V2Options(p, settings)
    ensures forall i :: 0 <= i < 4 ==> r[|p.args| + 2 * i] != "--eta"
    ensures r[|r| - 1] == "--splitminer2"
  {
    ConcatSlices(p.args, V2Options(p, settings), ["--splitminer2"]);
    p.args + V2Options(p, settings) + ["--splitminer2"]
  }

  lemma V2ArgsDisplay(p: Prepared, settings: SplitMinerV2Settings)
    ensures V2Args(p, settings) == p.args + [
      "-jar", p.splitMinerPath, "--logPath", p.inputLogPath, "--outputPath", p.modelOutputPath,
      "--epsilon", Str(settings.epsilon), "--splitminer2"]
  {
    assert V2Options(p, settings) + ["--splitminer2"] == [
      "-jar", p.splitMinerPath, "--logPath", p.inputLogPath, "--outputPath", p.modelOutputPath,
      "--epsilon", Str(settings.epsilon), "--splitminer2"];
  }

  /** The v2 command, after the assertion that epsilon is given. */
  function V2Command(isWindows: bool, jar: string, settings: SplitMinerV2Settings): Result<seq<string>> {
    if settings.epsilon == VNone then Err(AssertionError)
    else
      var p :- Prepare(isWindows, jar, settings.logPath, settings.outputModelPath, false, true);
      Ok(V2Args(p, settings))
  }

  /** discover_process_model_with_split_miner_v2, up to the launch: the command it runs. */
  method SplitMinerV2Command(settings: SplitMinerV2Settings, jar: string, isWindows: bool) returns (r: Result<seq<string>>)
    ensures r == V2Command(isWindows, jar, settings)
  {
    if settings.epsilon == VNone {
      return Err(AssertionError);
    }
    var prepared :- PrepareSplitMinerParams(jar, settings.logPath, settings.outputModelPath, false, true, isWindows);
    var args := prepared.args;
    args := args + [
      "-jar", prepared.splitMinerPath,
      "--logPath", prepared.inputLogPath,
      "--outputPath", prepared.modelOutputPath,
      "--epsilon", Str(settings.epsilon),
      "--splitminer2"];
    V2ArgsDisplay(prepared, settings);
    return Ok(args);
  }

  /**
   * The v1 command fails, with ValueError, exactly when the output path has
   * an empty name and no ".bpmn" in it; otherwise it is the headless java
   * launcher followed by the v1 arguments.
   */
  lemma V1CommandSpec(isWindows: bool, jar: string, settings: SplitMinerV1Settings)
    ensures var r := V1Command(isWindows, jar, settings);
      && (r.Err? <==> PathName(settings.outputModelPath) == "" && !Contains(settings.outputModelPath, ".bpmn"))
      && (r.Err? ==> r.error == ValueError)
      && (r.Ok? ==> r.value[..|JavaPrefix(isWindows, true)|] == JavaPrefix(isWindows, true))
  {
    PrepareSpec(isWindows, jar, settings.logPath, settings.outputModelPath, false, true);
    OutputPathArgFails(isWindows, settings.outputModelPath, false);
  }

  /**
   * The v2 command fails with AssertionError without epsilon, and otherwise
   * exactly as the v1 command does; when it succeeds it is the headless java
   * launcher followed by the v2 arguments.
   */
  lemma V2CommandSpec(isWindows: bool, jar: string, settings: SplitMinerV2Settings)
    ensures var r := V2Command(isWindows, jar, settings);
      && (settings.epsilon == VNone ==> r == Err(AssertionError))
      && (settings.epsilon != VNone ==>
            (r.Err? <==> PathName(settings.outputModelPath) == "" && !Contains(settings.outputModelPath, ".bpmn")))
      && (settings.epsilon != VNone && r.Err? ==> r.error == ValueError)
      && (r.Ok? ==> r.value[..|JavaPrefix(isWindows, true)|] == JavaPrefix(isWindows, true))
  {
    PrepareSpec(isWindows, jar, settings.logPath, settings.outputModelPath, false, true);
    OutputPathArgFails(isWindows, settings.outputModelPath, false);
  }

  // ------------------------------------------------------------ discover_process_model

  /**
   * discover_process_model: Split Miner v1 gets eta, epsilon and the two
   * flags from the parameters (loop markers stay off), v2 only epsilon, and
   * any other algorithm raises ValueError; a command that leaves no model
   * behind fails the final assertion. The result is the command that ran.
   */
  method DiscoverProcessModel(logPath: string, outputModelPath: string, params: HyperoptIterationParams,
                              moduleDir: string, isWindows: bool, produced: seq<string> -> bool)
    returns (r: Result<seq<string>>)
    ensures params.miningAlgorithm.OtherAlgorithm? ==> r == Err(ValueError)
    ensures params.miningAlgorithm == SplitMinerV1 ==>
      var c := V1Command(isWindows, SplitMinerJar(moduleDir), SplitMinerV1Settings(
        logPath, outputModelPath, params.eta, params.epsilon, params.prioritizeParallelism, params.replaceOrJoins, false));
      r == if c.Ok? && !produced(c.value) then Err(AssertionError) else c
    ensures params.miningAlgorithm == SplitMinerV2 ==>
      var c := V2Command(isWindows, SplitMinerJar(moduleDir), SplitMinerV2Settings(logPath, outputModelPath, params.epsilon));
      r == if c.Ok? && !produced(c.value) then Err(AssertionError) else c
    ensures r.Ok? ==> produced(r.value)
  {
    var command: seq<string>;
    if params.miningAlgorithm == SplitMinerV1 {
      command :- SplitMinerV1Command(SplitMinerV1Settings(
        logPath, outputModelPath, params.eta, params.epsilon, params.prioritizeParallelism, params.replaceOrJoins, false),
        SplitMinerJar(moduleDir), isWindows);
    } else if params.miningAlgorithm == SplitMinerV2 {
      command :- SplitMinerV2Command(SplitMinerV2Settings(logPath, outputModelPath, params.epsilon),
        SplitMinerJar(moduleDir), isWindows);
    } else {
      return Err(ValueError);
    }
    if !produced(command) {
      return Err(AssertionError);
    }
    return Ok(command);
  }
}
