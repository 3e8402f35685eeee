/*
 * The structure miner (simod/process_structure/miner.py): its settings as
 * read from a loaded YAML mapping and written back to a dict, and the
 * StructureMiner that picks a Split Miner version and builds its java
 * command line.
 *
 * The mapping yaml.load returns is the parameter of FromStream. The
 * gateway-probabilities enum is not part of this model: its from_str is the
 * parameter `parseGateway` and a member is known by its `.value`. The
 * platform test is `isWindows`, the project directory is `projectDir`, and
 * whether the model file exists after a command has run is `produced`.
 */
module Miner {
  import opened Python
  import opened Enums
  import opened Values

  /** A member of GatewayProbabilitiesDiscoveryMethod, known by its `.value`. */
  datatype GatewayMethod = GatewayMethod(value: Value)

  /**
   * The structure-miner settings. epsilon, eta and concurrency are the loaded
   * values (a float, None, ...); and_prior and or_rep are None or a list.
   */
  datatype Settings = Settings(
    gatewayProbabilitiesMethod: Option<GatewayMethod>,
    miningAlgorithm: StructureMiningAlgorithm,
    epsilon: Value,
    eta: Value,
    concurrency: Value,
    andPrior: Value,
    orRep: Value)

  // ------------------------------------------------------------ Settings.from_stream

  /** The assertion that a setting is a single value and not a list. */
  function Single(v: Value): (r: Result<Value>)
    ensures r.Ok? <==> !v.VList?
    ensures r.Ok? ==> r.value == v
    ensures r.Err? ==> r.error == AssertionError
  {
    if v.VList? then Err(AssertionError) else Ok(v)
  }

  /**
   * How from_stream reads and_prior and or_rep: None stays None, a string
   * becomes the one-element list telling whether it is "true" in any case,
   * a list is kept, and anything else raises ValueError.
   */
  function BoolList(v: Value): (r: Result<Value>)
    ensures r.Ok? <==> v.VNone? || v.VStr? || v.VList?
    ensures r.Err? ==> r.error == ValueError
    ensures v.VStr? ==> r == Ok(VList([VBool(Lower(v.s) == "true")]))
    ensures v.VNone? || v.VList? ==> r == Ok(v)
  {
    match v
    case VNone => Ok(VNone)
    case VStr(s) => Ok(VList([VBool(Lower(s) == "true")]))
    case VList(_) => Ok(v)
    case _ => Err(ValueError)
  }

  /** The algorithm key: 'mining_algorithm', or the legacy 'mining_alg' when that one is missing or None. */
  function AlgorithmValue(settings: Dict): (r: Value)
    ensures GetOr(settings, "mining_algorithm", VNone) != VNone ==> r == GetOr(settings, "mining_algorithm", VNone)
    ensures GetOr(settings, "mining_algorithm", VNone) == VNone ==> r == GetOr(settings, "mining_alg", VNone)
  {
    var algorithm := GetOr(settings, "mining_algorithm", VNone);
    if algorithm == VNone then GetOr(settings, "mining_alg", VNone) else algorithm
  }

  /** The part of from_stream after the section is chosen: None when no algorithm is given. */
  function FromSection(settings: Dict, parseGateway: Value -> Result<GatewayMethod>): Result<Option<Settings>> {
    var gatewayValue := GetOr(settings, "gateway_probabilities_method", VNone);
    var gateway :- if gatewayValue == VNone then Ok(None)
      else var g :- parseGateway(gatewayValue); Ok(Some(g));
    FromAlgorithm(settings, gateway)
  }

  /** The rest of from_stream once the gateway method is read: None when no algorithm is given. */
  function FromAlgorithm(settings: Dict, gateway: Option<GatewayMethod>): Result<Option<Settings>> {
    var algorithmValue := AlgorithmValue(settings);
    if algorithmValue == VNone then Ok(None)
    else
      var algorithm :- ParseItem(algorithmValue, StructureMiningAlgorithm.FromStr);
      var read :- ReadOptions(settings, gateway, algorithm);
      Ok(Some(read))
  }

  /** The rest of from_stream once the algorithm is known: the assertions on single values and the and_prior and or_rep coercions. */
  function ReadOptions(settings: Dict, gateway: Option<GatewayMethod>, algorithm: StructureMiningAlgorithm): Result<Settings> {
    var epsilon :- Single(GetOr(settings, "epsilon", VNone));
    var eta :- Single(GetOr(settings, "eta", VNone));
    var concurrency :- Single(GetOr(settings, "concurrency", VFloat(0.0, "0.0")));
    var andPrior :- BoolList(GetOr(settings, "and_prior", VNone));
    var orRep :- BoolList(GetOr(settings, "or_rep", VNone));
    Ok(Settings(gateway, algorithm, epsilon, eta, concurrency, andPrior, orRep))
  }

  /**
   * Settings.from_stream on the loaded mapping: the settings are read from
   * the 'structure_optimizer' section when there is one, and from the
   * mapping itself otherwise; a section that is not a mapping has no .get.
   */
  function FromStream(loaded: Dict, parseGateway: Value -> Result<GatewayMethod>): (r: Result<Option<Settings>>)
    ensures "structure_optimizer" in Keys(loaded) && !Get(loaded, "structure_optimizer").value.VDict? ==> r == Err(AttributeError)
    ensures "structure_optimizer" in Keys(loaded) && Get(loaded, "structure_optimizer").value.VDict? ==>
      r == FromSection(Get(loaded, "structure_optimizer").value.entries, parseGateway)
    ensures "structure_optimizer" !in Keys(loaded) ==> r == FromSection(loaded, parseGateway)
  {
    match Get(loaded, "structure_optimizer")
    case None => FromSection(loaded, parseGateway)
    case Some(section) =>
      if section.VDict? then FromSection(section.entries, parseGateway) else Err(AttributeError)
  }

  /** Without a gateway method the gateway parser is never called. */
  lemma FromSectionNoGateway(settings: Dict, parseGateway: Value -> Result<GatewayMethod>)
    requires GetOr(settings, "gateway_probabilities_method", VNone) == VNone
    ensures FromSection(settings, parseGateway) == FromAlgorithm(settings, None)
  {
  }

  /** No settings come out exactly when neither algorithm key holds a value. */
  lemma FromAlgorithmNone(settings: Dict, gateway: Option<GatewayMethod>)
    ensures FromAlgorithm(settings, gateway) == Ok(None) <==>
      GetOr(settings, "mining_algorithm", VNone) == VNone && GetOr(settings, "mining_alg", VNone) == VNone
  {
    if AlgorithmValue(settings) != VNone {
      assert FromAlgorithm(settings, gateway) != Ok(None);
    }
  }

  /**
   * With an algorithm given, reading fails exactly as parsing the algorithm
   * fails, and settings read carry the parsed algorithm, which the
   * lower-cased string names by one of its aliases.
   */
  lemma FromAlgorithmParsed(settings: Dict, gateway: Option<GatewayMethod>)
    requires AlgorithmValue(settings) != VNone
    ensures var algorithm := ParseItem(AlgorithmValue(settings), StructureMiningAlgorithm.FromStr);
      && (algorithm.Err? ==> FromAlgorithm(settings, gateway) == Err(algorithm.error))
      && (algorithm.Ok? ==> AlgorithmValue(settings).VStr? && Lower(AlgorithmValue(settings).s) in algorithm.value.Aliases())
      && (algorithm.Ok? ==>
            (FromAlgorithm(settings, gateway) ==
               match ReadOptions(settings, gateway, algorithm.value)
               case Ok(s) => Ok(Some(s))
               case Err(e) => Err(e)))
  {
  }

  /** epsilon, eta and concurrency are read as given and are not lists; concurrency is 0.0 when missing. */
  lemma ReadOptionsScalars(settings: Dict, gateway: Option<GatewayMethod>, algorithm: StructureMiningAlgorithm)
    requires ReadOptions(settings, gateway, algorithm).Ok?
    ensures var s := ReadOptions(settings, gateway, algorithm).value;
      && s.gatewayProbabilitiesMethod == gateway && s.miningAlgorithm == algorithm
      && s.epsilon == GetOr(settings, "epsilon", VNone) && !s.epsilon.VList?
      && s.eta == GetOr(settings, "eta", VNone) && !s.eta.VList?
      && s.concurrency == GetOr(settings, "concurrency", VFloat(0.0, "0.0")) && !s.concurrency.VList?
      && ("concurrency" !in Keys(settings) ==> s.concurrency == VFloat(0.0, "0.0"))
  {
  }

  /** and_prior and or_rep come out as None or a list, a string s having become [s.lower() == 'true']. */
  lemma ReadOptionsBoolLists(settings: Dict, gateway: Option<GatewayMethod>, algorithm: StructureMiningAlgorithm)
    requires ReadOptions(settings, gateway, algorithm).Ok?
    ensures var s := ReadOptions(settings, gateway, algorithm).value;
      && (s.andPrior.VNone? || s.andPrior.VList?) && (s.orRep.VNone? || s.orRep.VList?)
      && BoolList(GetOr(settings, "and_prior", VNone)) == Ok(s.andPrior)
      && BoolList(GetOr(settings, "or_rep", VNone)) == Ok(s.orRep)
  {
  }

  /** A list-valued epsilon, eta or concurrency fails its assertion once the algorithm parses. */
  lemma FromSectionRejectsLists(settings: Dict, parseGateway: Value -> Result<GatewayMethod>)
    requires GetOr(settings, "gateway_probabilities_method", VNone) == VNone
    requires AlgorithmValue(settings) != VNone && ParseItem(AlgorithmValue(settings), StructureMiningAlgorithm.FromStr).Ok?
    requires GetOr(settings, "epsilon", VNone).VList?
      || GetOr(settings, "eta", VNone).VList?
      || GetOr(settings, "concurrency", VFloat(0.0, "0.0")).VList?
    ensures FromSection(settings, parseGateway) == Err(AssertionError)
  {
  }

  // ------------------------------------------------------------ Settings.to_dict

  /** The `.value` of a StructureMiningAlgorithm member (auto() numbers them from 1). */
  function AlgorithmNumber(a: StructureMiningAlgorithm): (r: int)
    ensures 1 <= r <= 3
  {
    match a
    case SplitMiner1 => 1
    case SplitMiner2 => 2
    case SplitMiner3 => 3
  }

  /** Settings.to_dict: seven keys in order, the enums by their `.value`. */
  function ToDict(s: Settings): (r: Dict)
    ensures Keys(r) == ["mining_algorithm", "gateway_probabilities_method", "epsilon", "eta", "concurrency", "and_prior", "or_rep"]
  {
    [("mining_algorithm", VInt(AlgorithmNumber(s.miningAlgorithm))),
     ("gateway_probabilities_method", match s.gatewayProbabilitiesMethod case None => VNone case Some(g) => g.value),
     ("epsilon", s.epsilon),
     ("eta", s.eta),
     ("concurrency", s.concurrency),
     ("and_prior", s.andPrior),
     ("or_rep", s.orRep)]
  }

  /** Each key of the dict reads back its setting; the algorithm reads as its number, which tells the three apart. */
  lemma ToDictReads(s: Settings, t: Settings)
    ensures Get(ToDict(s), "epsilon") == Some(s.epsilon)
    ensures Get(ToDict(s), "eta") == Some(s.eta)
    ensures Get(ToDict(s), "concurrency") == Some(s.concurrency)
    ensures Get(ToDict(s), "and_prior") == Some(s.andPrior)
    ensures Get(ToDict(s), "or_rep") == Some(s.orRep)
    ensures s.gatewayProbabilitiesMethod == None ==> Get(ToDict(s), "gateway_probabilities_method") == Some(VNone)
    ensures s.gatewayProbabilitiesMethod.Some? ==>
      Get(ToDict(s), "gateway_probabilities_method") == Some(s.gatewayProbabilitiesMethod.value.value)
    ensures Get(ToDict(s), "mining_algorithm") == Get(ToDict(t), "mining_algorithm") <==> s.miningAlgorithm == t.miningAlgorithm
  {
    var d := ToDict(s);
    assert Keys(d)[2] == "epsilon" && Keys(d)[3] == "eta" && Keys(d)[4] == "concurrency";
    assert Keys(d)[5] == "and_prior" && Keys(d)[6] == "or_rep";
  }

  /**
   * to_dict is not read back by from_stream: the algorithm is written as its
   * number, and from_str calls .lower() on it.
   */
  lemma ToDictNotReloadable(s: Settings, parseGateway: Value -> Result<GatewayMethod>)
    requires s.gatewayProbabilitiesMethod == None
    ensures FromStream(ToDict(s), parseGateway) == Err(AttributeError)
  {
    var d := ToDict(s);
    assert Keys(d)[0] == "mining_algorithm" && Keys(d)[1] == "gateway_probabilities_method";
    assert "structure_optimizer" !in Keys(d);
    assert AlgorithmValue(d) == VInt(AlgorithmNumber(s.miningAlgorithm));
  }

  // ------------------------------------------------------------ command lines

  function Sm2Jar(projectDir: string): string {
    Join(projectDir, "external_tools/splitminer2/sm2.jar")
  }

  function Sm3Jar(projectDir: string): string {
    Join(projectDir, "external_tools/splitminer3/bpmtk.jar")
  }

  /** A directory whose name ends in lib, joined with the wildcard, ends in lib, a slash and the wildcard. */
  lemma JoinAllOfLib(lib: string)
    requires EndsWith(lib, "lib")
    ensures EndsWith(Join(lib, "*"), "lib/*")
  {
    assert lib[|lib| - 1] == lib[|lib| - 3..][2] == 'b';
    assert "*"[..1][0] != "/"[0];
    var all := Join(lib, "*");
    assert all == lib + "/*";
    assert all[|all| - 5..] == lib[|lib| - 3..] + "/*";
  }

  /** The java class path: the jar, the platform's separator, and every jar in the lib directory beside it. */
  function ClassPath(jar: string, isWindows: bool): (r: string)
    ensures StartsWith(r, jar + [if isWindows then ';' else ':'])
    ensures EndsWith(r, "lib/*")
    ensures r == jar + [if isWindows then ';' else ':'] + Join(Dirname(jar), "lib") + "/*"
  {
    var sep := if isWindows then ';' else ':';
    var lib := Join(Dirname(jar), "lib");
    var all := Join(lib, "*");
    JoinAllOfLib(lib);
    var r := jar + [sep] + all;
    assert r[..|jar| + 1] == jar + [sep];
    assert r[|r| - 5..] == all[|all| - 5..];
    r
  }

  /** The miners _get_miner can hand out. */
  datatype MinerBuilder = Sm2Builder | Sm3Builder

  /** _get_miner: Split Miner 1 is no longer supported. */
  function GetMiner(miner: StructureMiningAlgorithm): (r: Result<MinerBuilder>)
    ensures r.Err? <==> miner == SplitMiner1
    ensures r.Err? ==> r.error == NotImplementedError
    ensures miner == SplitMiner2 ==> r == Ok(Sm2Builder)
    ensures miner == SplitMiner3 ==> r == Ok(Sm3Builder)
  {
    match miner
    case SplitMiner1 => Err(NotImplementedError)
    case SplitMiner2 => Ok(Sm2Builder)
    case SplitMiner3 => Ok(Sm3Builder)
  }

  /** _model_path_without_suffix: no output path raises ValueError; otherwise the path without its suffix. */
  function ModelPathWithoutSuffix(outputModelPath: Option<string>): (r: Result<string>)
    ensures outputModelPath == None ==> r == Err(ValueError)
    ensures outputModelPath.Some? ==> (r.Err? <==> PathName(outputModelPath.value) == "")
    ensures r.Err? ==> r.error == ValueError
    ensures r.Ok? ==> r.value + NameSuffix(PathName(outputModelPath.value)) == outputModelPath.value
  {
    match outputModelPath
    case None => Err(ValueError)
    case Some(p) =>
      var stripped :- WithSuffix(p, "");
      StripSuffixRoundTrip(p);
      Ok(stripped)
  }

  /** The launcher of the SM2 command: java, and a memory limit off Windows. */
  function Sm2Launcher(isWindows: bool): (r: seq<string>)
    ensures |r| == if isWindows then 1 else 2
    ensures r[0] == "java"
    ensures "-Xmx2G" in r <==> !isWindows
    ensures "-Xms1024M" !in r
  {
    if isWindows then ["java"] else ["java", "-Xmx2G"]
  }

  function Sm2Options(classPath: string, xesPath: string, outputPath: string, concurrency: string): seq<string> {
    ["-cp", classPath, "au.edu.unimelb.services.ServiceProvider", "SM2", xesPath, outputPath, concurrency]
  }

  /** The SM2 command line after its launcher: the class path, and SM2 with the log, the output and the concurrency. */
  function Sm2Args(launcher: seq<string>, classPath: string, xesPath: string, outputPath: string, settings: Settings): (r: seq<string>)
    ensures |r| == |launcher| + 7
    ensures r[..|launcher|] == launcher
    ensures r[|launcher|] == "-cp" && r[|launcher| + 1] == classPath
    ensures r[|launcher| + 2] == "au.edu.unimelb.services.ServiceProvider"
    ensures r[|launcher| + 3..] == ["SM2", xesPath, outputPath, Str(settings.concurrency)]
  {
    var options := Sm2Options(classPath, xesPath, outputPath, Str(settings.concurrency));
    assert (launcher + options)[|launcher|..] == options;
    launcher + options
  }

  /** _sm2_miner's command, or the ValueError of a missing output model. */
  function Sm2Command(isWindows: bool, projectDir: string, xesPath: string, outputModelPath: Option<string>,
                      settings: Settings): Result<seq<string>> {
    var outputPath :- ModelPathWithoutSuffix(outputModelPath);
    Ok(Sm2Args(Sm2Launcher(isWindows), ClassPath(Sm2Jar(projectDir), isWindows), xesPath, outputPath, settings))
  }

  /** The launcher of the SM3 command: java, and both memory flags off Windows. */
  function Sm3Launcher(isWindows: bool): (r: seq<string>)
    ensures |r| == if isWindows then 1 else 3
    ensures r[0] == "java"
    ensures "-Xmx2G" in r <==> !isWindows
    ensures "-Xms1024M" in r <==> !isWindows
    ensures !isWindows ==> r == ["java", "-Xmx2G", "-Xms1024M"]
  {
    if isWindows then ["java"] else ["java", "-Xmx2G", "-Xms1024M"]
  }

  function Sm3Options(classPath: string, epsilon: string, eta: string, andPrior: string, orRep: string,
                      xesPath: string, outputPath: string): seq<string> {
    ["-cp", classPath, "au.edu.unimelb.services.ServiceProvider", "SMD", epsilon, eta, andPrior, orRep, "false",
     xesPath, outputPath]
  }

  /**
   * The SM3 command line after its launcher: the class path, SMD with
   * epsilon and eta, and_prior and or_rep as their str() lower-cased, the
   * fixed 'false', the log and the output.
   */
  function Sm3Args(launcher: seq<string>, classPath: string, xesPath: string, outputPath: string, settings: Settings): (r: seq<string>)
    ensures |r| == |launcher| + 11
    ensures r[..|launcher|] == launcher
    ensures r[|launcher|] == "-cp" && r[|launcher| + 1] == classPath
    ensures r[|launcher| + 2] == "au.edu.unimelb.services.ServiceProvider" && r[|launcher| + 3] == "SMD"
    ensures r[|launcher| + 4] == Str(settings.epsilon) && r[|launcher| + 5] == Str(settings.eta)
    ensures r[|launcher| + 6] == Lower(Str(settings.andPrior)) && r[|launcher| + 7] == Lower(Str(settings.orRep))
    ensures r[|launcher| + 8..] == ["false", xesPath, outputPath]
  {
    var options := Sm3Options(classPath, Str(settings.epsilon), Str(settings.eta),
                              Lower(Str(settings.andPrior)), Lower(Str(settings.orRep)), xesPath, outputPath);
    assert (launcher + options)[|launcher|..] == options;
    launcher + options
  }

  lemma Sm3ArgsDisplay(launcher: seq<string>, classPath: string, xesPath: string, outputPath: string, settings: Settings)
    ensures Sm3Args(launcher, classPath, xesPath, outputPath, settings) == launcher + [
      "-cp", classPath, "au.edu.unimelb.services.ServiceProvider", "SMD", Str(settings.epsilon), Str(settings.eta),
      Lower(Str(settings.andPrior)), Lower(Str(settings.orRep)), "false", xesPath, outputPath]
  {
  }

  /** _sm3_miner's command, or the ValueError of a missing output model. */
  function Sm3Command(isWindows: bool, projectDir: string, xesPath: string, outputModelPath: Option<string>,
                      settings: Settings): Result<seq<string>> {
    var outputPath :- ModelPathWithoutSuffix(outputModelPath);
    Ok(Sm3Args(Sm3Launcher(isWindows), ClassPath(Sm3Jar(projectDir), isWindows), xesPath, outputPath, settings))
  }

  /**
   * An and_prior read from the string s reaches Split Miner 3 as "[true]"
   * or "[false]", brackets included.
   */
  lemma Sm3AndPriorFromString(launcher: seq<string>, classPath: string, xesPath: string, outputPath: string,
                              settings: Settings, s: string)
    requires BoolList(VStr(s)) == Ok(settings.andPrior)
    ensures Sm3Args(launcher, classPath, xesPath, outputPath, settings)[|launcher| + 6]
      == if Lower(s) == "true" then "[true]" else "[false]"
  {
    LoweredSingletonBool(Lower(s) == "true");
  }

  // ------------------------------------------------------------ StructureMiner

  /** StructureMiner: the settings, the log and the output model path, and what mining them came to. */
  class StructureMiner {
    var settings: Settings
    var xesPath: string
    var outputModelPath: Option<string>
    /** The command that ran, or the exception the constructor raised. */
    var outcome: Result<seq<string>>

    /** __init__: stores its arguments, then mines the structure. */
    constructor(settings: Settings, xesPath: string, outputModelPath: Option<string>,
                isWindows: bool, projectDir: string, produced: seq<string> -> bool)
      ensures this.settings == settings && this.xesPath == xesPath && this.outputModelPath == outputModelPath
      ensures outcome == Mined(isWindows, projectDir, produced)
    {
      this.settings := settings;
      this.xesPath := xesPath;
      this.outputModelPath := outputModelPath;
      new;
      outcome := Run(isWindows, projectDir, produced);
    }

    /** What _run comes to: the chosen miner's command, which must leave the model file behind. */
    ghost function Mined(isWindows: bool, projectDir: string, produced: seq<string> -> bool): Result<seq<string>>
      reads this
    {
      var builder :- GetMiner(settings.miningAlgorithm);
      var command :- if builder == Sm2Builder then Sm2Command(isWindows, projectDir, xesPath, outputModelPath, settings)
        else Sm3Command(isWindows, projectDir, xesPath, outputModelPath, settings);
      if produced(command) then Ok(command) else Err(AssertionError)
    }

    /**
     * _run and _mining_structure: Split Miner 1 raises NotImplementedError,
     * versions 2 and 3 run their command, and a missing model file then
     * fails the assertion.
     */
    method Run(isWindows: bool, projectDir: string, produced: seq<string> -> bool) returns (r: Result<seq<string>>)
      ensures r == Mined(isWindows, projectDir, produced)
      ensures settings.miningAlgorithm == SplitMiner1 ==> r == Err(NotImplementedError)
      ensures r.Ok? ==> produced(r.value)
    {
      var builder :- GetMiner(settings.miningAlgorithm);
      var command: seq<string>;
      if builder == Sm2Builder {
        command :- Sm2Miner(xesPath, settings, isWindows, projectDir);
      } else {
        command :- Sm3Miner(xesPath, settings, isWindows, projectDir);
      }
      if !produced(command) {
        return Err(AssertionError);
      }
      return Ok(command);
    }

    /** _sm2_miner, up to the launch: the command it runs. */
    method Sm2Miner(xesPath: string, settings: Settings, isWindows: bool, projectDir: string) returns (r: Result<seq<string>>)
      ensures r == Sm2Command(isWindows, projectDir, xesPath, outputModelPath, settings)
    {
      var outputPath :- ModelPathWithoutSuffix(outputModelPath);
      var sep := if isWindows then ';' else ':';
      var args := ["java"];
      if !isWindows {
        args := args + ["-Xmx2G"];
      }
      assert args == Sm2Launcher(isWindows);
      var jar := Sm2Jar(projectDir);
      var classPath := jar + [sep] + Join(Join(Dirname(jar), "lib"), "*");
      assert classPath == ClassPath(jar, isWindows);
      args := args + [
        "-cp",
        classPath,
        "au.edu.unimelb.services.ServiceProvider",
        "SM2",
        xesPath,
        outputPath,
        Str(settings.concurrency)];
      return Ok(args);
    }

    /** _sm3_miner, up to the launch: the command it runs. */
    method Sm3Miner(xesPath: string, settings: Settings, isWindows: bool, projectDir: string) returns (r: Result<seq<string>>)
      ensures r == Sm3Command(isWindows, projectDir, xesPath, outputModelPath, settings)
    {
      var outputPath :- ModelPathWithoutSuffix(outputModelPath);
      var sep := if isWindows then ';' else ':';
      var args := ["java"];
      if !isWindows {
        args := args + ["-Xmx2G", "-Xms1024M"];
      }
      assert args == Sm3Launcher(isWindows);
      var andPriorSetting := Lower(Str(settings.andPrior));
      var orRepSetting := Lower(Str(settings.orRep));
      var jar := Sm3Jar(projectDir);
      var classPath := jar + [sep] + Join(Join(Dirname(jar), "lib"), "*");
      assert classPath == ClassPath(jar, isWindows);
      args := args + [
        "-cp",
        classPath,
        "au.edu.unimelb.services.ServiceProvider",
        "SMD",
        Str(settings.epsilon),
        Str(settings.eta),
        andPriorSetting, orRepSetting, "false",
        xesPath,
        outputPath];
      Sm3ArgsDisplay(Sm3Launcher(isWindows), classPath, xesPath, outputPath, settings);
      return Ok(args);
    }
  }
}
