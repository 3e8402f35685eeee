/*
 * The configuration-loading part of simod/configuration.py: the enum
 * parsers that take a loaded yaml value (a str, a bool, a list), the
 * normaliser config_data_with_datastructures that turns the loaded dict's
 * known keys into Paths and enum members, config_data_from_yaml that also
 * moves the optimiser sections to the keys the rest of the program reads,
 * Configuration.__post_init__ and ProjectSettings.from_dict.
 *
 * PROJECT_DIR is a parameter (`projectDir`, an absolute directory).
 */
module Config {
  import opened Python
  import opened Enums
  import opened Values

  // ----------------------------------------------- parsers of loaded values

  /** AndPriorORemove.from_str: a str or a bool gives one member, a list one member per item. */
  function AndPriorFromValue(v: Value): (r: Result<OneOrMany<AndPriorORemove>>)
    ensures v.VStr? ==> (r.Ok? <==> AndPriorORemove.FromStr(v.s).Ok?)
    ensures v.VStr? && r.Ok? ==> r.value.One? && r.value.one.ToString() == Lower(v.s)
    ensures v.VBool? ==> r.Ok? && r.value.One? && (r.value.one == True <==> v.b)
    ensures v.VList? ==> (r.Ok? <==> forall i :: 0 <= i < |v.items| ==> ParseItem(v.items[i], AndPriorORemove.FromStr).Ok?)
    ensures v.VList? && r.Ok? ==> (r.value.Many? && |r.value.many| == |v.items| &&
      forall i :: 0 <= i < |v.items| ==> v.items[i].VStr? && r.value.many[i].ToString() == Lower(v.items[i].s))
    ensures !(v.VStr? || v.VBool? || v.VList?) ==> r == Err(ValueError)
  {
    match v
    case VStr(s) =>
      var x :- AndPriorORemove.FromStr(s);
      Ok(One(x))
    case VBool(b) => Ok(One(AndPriorORemove.FromBool(b)))
    case VList(items) =>
      var xs :- ParseAll(items, AndPriorORemove.FromStr);
      Ok(Many(xs))
    case _ => Err(ValueError)
  }

  /** AndPriorORemove.to_str: str() of the member, or of each member of the list. */
  function AndPriorToStr(x: OneOrMany<AndPriorORemove>): (r: OneOrMany<string>)
    ensures x.One? <==> r.One?
    ensures x.Many? ==> |r.many| == |x.many|
  {
    match x
    case One(a) => One(a.ToString())
    case Many(xs) => Many(seq(|xs|, i requires 0 <= i < |xs| => xs[i].ToString()))
  }

  /** The loaded value a str or a list of strs is. */
  function StrsValue(x: OneOrMany<string>): Value {
    match x
    case One(s) => VStr(s)
    case Many(ss) => VList(seq(|ss|, i requires 0 <= i < |ss| => VStr(ss[i])))
  }

  /** to_str inverts from_str on members and on lists of them. */
  lemma AndPriorToStrRoundTrip(x: OneOrMany<AndPriorORemove>)
    ensures AndPriorFromValue(StrsValue(AndPriorToStr(x))) == Ok(x)
  {
    match x
    case One(a) =>
      AndPriorRoundTrip(a);
    case Many(xs) =>
      var v := StrsValue(AndPriorToStr(x));
      forall i | 0 <= i < |xs| ensures ParseItem(v.items[i], AndPriorORemove.FromStr) == Ok(xs[i]) {
        AndPriorRoundTrip(xs[i]);
      }
      var r := ParseAll(v.items, AndPriorORemove.FromStr);
      assert r.value == xs;
  }

  /** GateManagement.from_str: a str or a list; any other value gives None instead of raising. */
  function GateFromValue(v: Value): (r: Result<Option<OneOrMany<GateManagement>>>)
    ensures r == Ok(None) <==> !(v.VStr? || v.VList?)
    ensures v.VStr? ==> (r.Ok? <==> GateManagement.FromStr(v.s).Ok?)
    ensures v.VStr? && r.Ok? ==> r.value.Some? && r.value.value.One? && r.value.value.one.ToString() == Lower(v.s)
    ensures v.VStr? && r.Ok? ==> r.value == Some(One(GateManagement.FromStr(v.s).value))
    ensures v.VList? ==> (r.Ok? <==> forall i :: 0 <= i < |v.items| ==> ParseItem(v.items[i], GateManagement.FromStr).Ok?)
    ensures v.VList? && r.Ok? ==> (r.value.Some? && r.value.value.Many? && |r.value.value.many| == |v.items| &&
      forall i :: 0 <= i < |v.items| ==> r.value.value.many[i] == ParseItem(v.items[i], GateManagement.FromStr).value)
  {
    match v
    case VStr(s) =>
      var g :- GateManagement.FromStr(s);
      Ok(Some(One(g)))
    case VList(items) =>
      var gs :- ParseAll(items, GateManagement.FromStr);
      Ok(Some(Many(gs)))
    case _ => Ok(None)
  }

  /** DataType.from_str: a str or a list; any other value raises ValueError. */
  function DataTypeFromValue(v: Value): (r: Result<OneOrMany<DataType>>)
    ensures !(v.VStr? || v.VList?) ==> r == Err(ValueError)
    ensures v.VStr? ==> (r.Ok? <==> DataType.FromStr(v.s).Ok?)
    ensures v.VStr? && r.Ok? ==> r.value == One(DataType.FromStr(v.s).value)
    ensures v.VList? ==> (r.Ok? <==> forall i :: 0 <= i < |v.items| ==> ParseItem(v.items[i], DataType.FromStr).Ok?)
    ensures v.VList? && r.Ok? ==> (r.value.Many? && |r.value.many| == |v.items| &&
      forall i :: 0 <= i < |v.items| ==> r.value.many[i] == ParseItem(v.items[i], DataType.FromStr).value)
  {
    match v
    case VStr(s) =>
      var d :- DataType.FromStr(s);
      Ok(One(d))
    case VList(items) =>
      var ds :- ParseAll(items, DataType.FromStr);
      Ok(Many(ds))
    case _ => Err(ValueError)
  }

  /** Metric.from_str: a str or a list; any other value gives None instead of raising. */
  function MetricFromValue(v: Value): (r: Result<Option<OneOrMany<Metric>>>)
    ensures r == Ok(None) <==> !(v.VStr? || v.VList?)
    ensures v.VStr? ==> (r.Ok? <==> Metric.FromStr(v.s).Ok?)
    ensures v.VStr? && r.Ok? ==> r.value == Some(One(Metric.FromStr(v.s).value))
    ensures v.VList? ==> (r.Ok? <==> forall i :: 0 <= i < |v.items| ==> ParseItem(v.items[i], Metric.FromStr).Ok?)
    ensures v.VList? && r.Ok? ==> (r.value.Some? && r.value.value.Many? && |r.value.value.many| == |v.items| &&
      forall i :: 0 <= i < |v.items| ==> r.value.value.many[i] == ParseItem(v.items[i], Metric.FromStr).value)
  {
    match v
    case VStr(s) =>
      var m :- Metric.FromStr(s);
      Ok(Some(One(m)))
    case VList(items) =>
      var ms :- ParseAll(items, Metric.FromStr);
      Ok(Some(Many(ms)))
    case _ => Ok(None)
  }

  /** The value the dict holds for a member or a list of members. */
  function MembersValue<T>(x: OneOrMany<T>, wrap: T -> Member): Value {
    match x
    case One(a) => VEnum(wrap(a))
    case Many(xs) => VList(seq(|xs|, i requires 0 <= i < |xs| => VEnum(wrap(xs[i]))))
  }

  /** What a None-or-members result of from_str is stored as. */
  function OptionalMembersValue<T>(x: Option<OneOrMany<T>>, wrap: T -> Member): Value {
    match x
    case None => VNone
    case Some(m) => MembersValue(m, wrap)
  }

  /** Path(v): a str or a Path; anything else raises TypeError. */
  function PathText(v: Value): (r: Result<string>)
    ensures r.Err? <==> !(v.VStr? || v.VPath?)
    ensures r.Err? ==> r.error == TypeError
  {
    match v
    case VStr(s) => Ok(s)
    case VPath(p) => Ok(p)
    case _ => Err(TypeError)
  }


  // ------------------------------------------ config_data_with_datastructures

  /** The keys config_data_with_datastructures looks at. */
  datatype Key =
    | ModelPathKey | LogPathKey | InputKey | MiningAlgorithmKey | AndPriorKey | OrRepKey
    | GateManagementKey | ResCalMetKey | ResDtypeKey | ArrDtypeKey | PdefMethodKey
    | ExecModeKey | SimMetricKey | AddMetricsKey | SimulatorKey
  {
    function Name(): string {
      match this
      case ModelPathKey => "model_path"
      case LogPathKey => "log_path"
      case InputKey => "input"
      case MiningAlgorithmKey => "structure_mining_algorithm"
      case AndPriorKey => "and_prior"
      case OrRepKey => "or_rep"
      case GateManagementKey => "gate_management"
      case ResCalMetKey => "res_cal_met"
      case ResDtypeKey => "res_dtype"
      case ArrDtypeKey => "arr_dtype"
      case PdefMethodKey => "pdef_method"
      case ExecModeKey => "exec_mode"
      case SimMetricKey => "sim_metric"
      case AddMetricsKey => "add_metrics"
      case SimulatorKey => "simulator"
    }
  }

  /** The keys in the order config_data_with_datastructures visits them. */
  const RewriteKeys: seq<Key> := [
    ModelPathKey, LogPathKey, InputKey, MiningAlgorithmKey, AndPriorKey, OrRepKey,
    GateManagementKey, ResCalMetKey, ResDtypeKey, ArrDtypeKey, PdefMethodKey,
    ExecModeKey, SimMetricKey, AddMetricsKey, SimulatorKey]

  /** No two of `keys` name the same dict key. */
  predicate DistinctNames(keys: seq<Key>) {
    forall a, b :: 0 <= a < b < |keys| ==> keys[a].Name() != keys[b].Name()
  }

  /** `k` is the name of none of `keys`. */
  predicate Unlisted(keys: seq<Key>, k: string) {
    forall i :: 0 <= i < |keys| ==> keys[i].Name() != k
  }

  lemma RewriteKeysDistinct()
    ensures DistinctNames(RewriteKeys)
  {
  }

  /**
   * The value config_data_with_datastructures gives key `key` when it holds
   * `v`, or None when it leaves it alone: a falsy value is never touched, and
   * and_prior, gate_management and arr_dtype are touched only when they hold
   * a str or a list.
   */
  function Rewrite(projectDir: string, key: Key, v: Value): Result<Option<Value>> {
    if !Truthy(v) then Ok(None)
    else
      match key
      case ModelPathKey =>
        var p :- PathText(v);
        Ok(Some(VPath(if StartsWith(p, "/") then p else Join(projectDir, p))))
      case LogPathKey =>
        var p :- PathText(v);
        Ok(Some(VPath(p)))
      case InputKey =>
        var p :- PathText(v);
        Ok(Some(VPath(p)))
      case MiningAlgorithmKey =>
        var m :- ParseItem(v, StructureMiningAlgorithm.FromStr);
        Ok(Some(VEnum(MiningAlgorithm(m))))
      case AndPriorKey =>
        if !(v.VStr? || v.VList?) then Ok(None)
        else
          var x :- AndPriorFromValue(v);
          Ok(Some(MembersValue(x, (a: AndPriorORemove) => AndPrior(a))))
      case OrRepKey =>
        var x :- AndPriorFromValue(v);
        Ok(Some(MembersValue(x, (a: AndPriorORemove) => AndPrior(a))))
      case GateManagementKey =>
        if !(v.VStr? || v.VList?) then Ok(None)
        else
          var g :- GateFromValue(v);
          Ok(Some(OptionalMembersValue(g, (a: GateManagement) => Gate(a))))
      case ResCalMetKey =>
        var c :- ParseItem(v, CalendarType.FromStr);
        Ok(Some(VEnum(Calendar(c))))
      case ResDtypeKey =>
        var d :- DataTypeFromValue(v);
        Ok(Some(MembersValue(d, (a: DataType) => Data(a))))
      case ArrDtypeKey =>
        if !(v.VStr? || v.VList?) then Ok(None)
        else
          var d :- DataTypeFromValue(v);
          Ok(Some(MembersValue(d, (a: DataType) => Data(a))))
      case PdefMethodKey =>
        var p :- ParseItem(v, PDFMethod.FromStr);
        Ok(Some(VEnum(Pdf(p))))
      case ExecModeKey =>
        var e :- ParseItem(v, ExecutionMode.FromStr);
        Ok(Some(VEnum(Execution(e))))
      case SimMetricKey =>
        var m :- MetricFromValue(v);
        Ok(Some(OptionalMembersValue(m, (a: Metric) => MetricMember(a))))
      case AddMetricsKey =>
        var m :- MetricFromValue(v);
        Ok(Some(OptionalMembersValue(m, (a: Metric) => MetricMember(a))))
      case SimulatorKey =>
        var s :- ParseItem(v, SimulatorKind.FromStr);
        Ok(Some(VEnum(Simulator(s))))
  }

  /** One block of the normaliser: key `key` of `data` rewritten, if present and rewritten at all. */
  function RewriteEntry(projectDir: string, data: Dict, key: Key): Result<Dict> {
    match Get(data, key.Name())
    case None => Ok(data)
    case Some(v) =>
      var w :- Rewrite(projectDir, key, v);
      if w.None? then Ok(data) else Ok(Set(data, key.Name(), w.value))
  }

  /** The blocks for `keys` one after another; the first that raises ends the run. */
  function RewriteAll(projectDir: string, data: Dict, keys: seq<Key>): Result<Dict>
    decreases |keys|, 1
  {
    if keys == [] then Ok(data) else RewriteFirst(projectDir, data, keys)
  }

  /** The block for the first of `keys`, then the rest. */
  function RewriteFirst(projectDir: string, data: Dict, keys: seq<Key>): Result<Dict>
    requires keys != []
    decreases |keys|, 0
  {
    var next :- RewriteEntry(projectDir, data, keys[0]);
    RewriteAll(projectDir, next, keys[1..])
  }

  /** One step of RewriteAll. */
  lemma RewriteAllUnfold(projectDir: string, data: Dict, keys: seq<Key>)
    requires keys != []
    ensures RewriteEntry(projectDir, data, keys[0]).Err? ==>
      RewriteAll(projectDir, data, keys) == Err(RewriteEntry(projectDir, data, keys[0]).error)
    ensures RewriteEntry(projectDir, data, keys[0]).Ok? ==>
      RewriteAll(projectDir, data, keys) == RewriteAll(projectDir, RewriteEntry(projectDir, data, keys[0]).value, keys[1..])
  {
    assert RewriteAll(projectDir, data, keys) == RewriteFirst(projectDir, data, keys);
  }

  /** What config_data_with_datastructures returns for `data`. */
  function Normalised(projectDir: string, data: Dict): Result<Dict> {
    RewriteAll(projectDir, data, RewriteKeys)
  }

  /** What key `key` reads once normalised: the rewritten value, or the value as it was. */
  function Expected(projectDir: string, data: Dict, key: Key): Option<Value> {
    match Get(data, key.Name())
    case None => None
    case Some(v) =>
      var w := Rewrite(projectDir, key, v);
      if w.Ok? && w.value.Some? then w.value else Some(v)
  }

  /** Key `key` of `data` raises when rewritten. */
  predicate Fails(projectDir: string, data: Dict, key: Key) {
    Get(data, key.Name()).Some? && Rewrite(projectDir, key, Get(data, key.Name()).value).Err?
  }

  /** `keys[i]` is the first of `keys` that raises. */
  predicate FirstFailure(projectDir: string, data: Dict, keys: seq<Key>, i: nat) {
    && i < |keys|
    && Fails(projectDir, data, keys[i])
    && forall j :: 0 <= j < i ==> !Fails(projectDir, data, keys[j])
  }

  /** A block keeps the dict's keys and changes no key but its own. */
  lemma RewriteEntryFrame(projectDir: string, data: Dict, key: Key, k: string)
    requires RewriteEntry(projectDir, data, key).Ok?
    ensures Keys(RewriteEntry(projectDir, data, key).value) == Keys(data)
    ensures Get(RewriteEntry(projectDir, data, key).value, k) ==
      if k == key.Name() then Expected(projectDir, data, key) else Get(data, k)
  {
    match Get(data, key.Name())
    case None =>
    case Some(v) =>
      var w := Rewrite(projectDir, key, v);
      if w.value.Some? {
        GetSet(data, key.Name(), w.value.value, k);
      }
  }

  /** A block for one key leaves what another key reads, fails with and becomes as it was. */
  lemma StepKeepsOthers(projectDir: string, data: Dict, key: Key, next: Dict, other: Key)
    requires RewriteEntry(projectDir, data, key) == Ok(next)
    requires key.Name() != other.Name()
    ensures Get(next, other.Name()) == Get(data, other.Name())
    ensures Fails(projectDir, next, other) == Fails(projectDir, data, other)
    ensures Expected(projectDir, next, other) == Expected(projectDir, data, other)
  {
    RewriteEntryFrame(projectDir, data, key, other.Name());
  }

  lemma DistinctTail(keys: seq<Key>)
    requires keys != [] && DistinctNames(keys)
    ensures DistinctNames(keys[1..])
    ensures Unlisted(keys[1..], keys[0].Name())
  {
    forall a, b | 0 <= a < b < |keys| - 1 ensures keys[1..][a].Name() != keys[1..][b].Name() {
      assert keys[1..][a] == keys[a + 1] && keys[1..][b] == keys[b + 1];
    }
    forall a | 0 <= a < |keys| - 1 ensures keys[1..][a].Name() != keys[0].Name() {
      assert keys[1..][a] == keys[a + 1];
    }
  }

  /** Running the blocks for distinct keys succeeds exactly when none of them raises. */
  lemma {:induction false} RewriteAllSucceeds(projectDir: string, data: Dict, keys: seq<Key>)
    requires DistinctNames(keys)
    ensures RewriteAll(projectDir, data, keys).Ok? <==> forall i :: 0 <= i < |keys| ==> !Fails(projectDir, data, keys[i])
    decreases |keys|
  {
    if keys != [] {
      RewriteAllUnfold(projectDir, data, keys);
      var step := RewriteEntry(projectDir, data, keys[0]);
      if step.Ok? {
        DistinctTail(keys);
        RewriteAllSucceeds(projectDir, step.value, keys[1..]);
        FailsShift(projectDir, data, keys, step.value);
        if RewriteAll(projectDir, data, keys).Ok? {
          forall i | 0 <= i < |keys| ensures !Fails(projectDir, data, keys[i]) {
          }
        } else {
          var i :| 0 <= i < |keys| - 1 && Fails(projectDir, step.value, keys[1..][i]);
          assert Fails(projectDir, data, keys[i + 1]);
        }
      } else {
        assert Fails(projectDir, data, keys[0]);
      }
    }
  }

  /** A failing run of the blocks for distinct keys raises what the first failing one raises. */
  lemma {:induction false} RewriteAllFails(projectDir: string, data: Dict, keys: seq<Key>) returns (failing: nat)
    requires DistinctNames(keys)
    requires RewriteAll(projectDir, data, keys).Err?
    ensures FirstFailure(projectDir, data, keys, failing)
    ensures RewriteAll(projectDir, data, keys).error == Rewrite(projectDir, keys[failing], Get(data, keys[failing].Name()).value).error
    decreases |keys|
  {
    failing := 0;
    RewriteAllUnfold(projectDir, data, keys);
    var step := RewriteEntry(projectDir, data, keys[0]);
    if step.Ok? {
      DistinctTail(keys);
      var f := RewriteAllFails(projectDir, step.value, keys[1..]);
      failing := f + 1;
      FailsShift(projectDir, data, keys, step.value);
      assert keys[failing] == keys[1..][f];
      forall j | 0 <= j < failing ensures !Fails(projectDir, data, keys[j]) {
      }
    }
  }

  /** After the first block succeeds, the other keys fail in the result exactly as they did before it. */
  lemma FailsShift(projectDir: string, data: Dict, keys: seq<Key>, next: Dict)
    requires keys != [] && DistinctNames(keys)
    requires RewriteEntry(projectDir, data, keys[0]) == Ok(next)
    ensures !Fails(projectDir, data, keys[0])
    ensures forall i :: 1 <= i < |keys| ==> Fails(projectDir, next, keys[1..][i - 1]) == Fails(projectDir, data, keys[i])
  {
    RewriteEntryFrame(projectDir, data, keys[0], keys[0].Name());
    forall i | 1 <= i < |keys| ensures Fails(projectDir, next, keys[1..][i - 1]) == Fails(projectDir, data, keys[i]) {
      assert keys[1..][i - 1] == keys[i];
      StepKeepsOthers(projectDir, data, keys[0], next, keys[i]);
    }
  }

  /**
   * A successful run of the blocks for distinct keys keeps the dict's keys in
   * their order, gives each listed key its rewritten value and leaves every
   * other key as it was.
   */
  lemma {:induction false} RewriteAllEffect(projectDir: string, data: Dict, keys: seq<Key>)
    requires DistinctNames(keys)
    requires RewriteAll(projectDir, data, keys).Ok?
    ensures Keys(RewriteAll(projectDir, data, keys).value) == Keys(data)
    ensures forall i :: 0 <= i < |keys| ==>
      Get(RewriteAll(projectDir, data, keys).value, keys[i].Name()) == Expected(projectDir, data, keys[i])
    ensures forall k :: Unlisted(keys, k) ==> Get(RewriteAll(projectDir, data, keys).value, k) == Get(data, k)
    decreases |keys|
  {
    if keys != [] {
      RewriteAllUnfold(projectDir, data, keys);
      var key, rest := keys[0], keys[1..];
      var next := RewriteEntry(projectDir, data, key).value;
      var r := RewriteAll(projectDir, next, rest).value;
      DistinctTail(keys);
      RewriteAllEffect(projectDir, next, rest);
      RewriteEntryFrame(projectDir, data, key, key.Name());
      forall i | 0 <= i < |keys| ensures Get(r, keys[i].Name()) == Expected(projectDir, data, keys[i]) {
        if i > 0 {
          assert keys[i] == rest[i - 1];
          StepKeepsOthers(projectDir, data, key, next, rest[i - 1]);
        }
      }
      forall k | Unlisted(keys, k) ensures Get(r, k) == Get(data, k) {
        assert keys[0] == key;
        assert Unlisted(rest, k) by {
          forall j | 0 <= j < |rest| ensures rest[j].Name() != k {
            assert keys[j + 1] == rest[j];
          }
        }
        RewriteEntryFrame(projectDir, data, key, k);
      }
    }
  }

  /** Running one more block: its error is the result, or the rest runs on what it gives. */
  lemma Step(projectDir: string, data0: Dict, data: Dict, rest: seq<Key>, step: Result<Dict>) returns (rest': seq<Key>)
    requires Normalised(projectDir, data0) == RewriteAll(projectDir, data, rest)
    requires rest != [] && step == RewriteEntry(projectDir, data, rest[0])
    ensures rest' == rest[1..]
    ensures step.Err? ==> Normalised(projectDir, data0) == Err(step.error)
    ensures step.Ok? ==> Normalised(projectDir, data0) == RewriteAll(projectDir, step.value, rest')
  {
    RewriteAllUnfold(projectDir, data, rest);
    rest' := rest[1..];
  }

  // One method per block of config_data_with_datastructures, each proved
  // to do what RewriteEntry says that block does.

  method ConvertModelPath(data: Dict, projectDir: string) returns (r: Result<Dict>)
    ensures r == RewriteEntry(projectDir, data, ModelPathKey)
  {
    var modelPath := GetOr(data, "model_path", VNone);
    if Truthy(modelPath) {
      var path :- PathText(modelPath);
      return Ok(Set(data, "model_path", VPath(if StartsWith(path, "/") then path else Join(projectDir, path))));
    }
    return Ok(data);
  }

  /** The log_path and input blocks, which differ only in the key. */
  method ConvertPath(data: Dict, projectDir: string, key: Key) returns (r: Result<Dict>)
    requires key == LogPathKey || key == InputKey
    ensures r == RewriteEntry(projectDir, data, key)
  {
    var path := GetOr(data, key.Name(), VNone);
    if Truthy(path) {
      var text :- PathText(path);
      return Ok(Set(data, key.Name(), VPath(text)));
    }
    return Ok(data);
  }

  method ConvertMiningAlgorithm(data: Dict, projectDir: string) returns (r: Result<Dict>)
    ensures r == RewriteEntry(projectDir, data, MiningAlgorithmKey)
  {
    var algorithm := GetOr(data, "structure_mining_algorithm", VNone);
    if Truthy(algorithm) {
      var m :- ParseItem(algorithm, StructureMiningAlgorithm.FromStr);
      return Ok(Set(data, "structure_mining_algorithm", VEnum(MiningAlgorithm(m))));
    }
    return Ok(data);
  }

  method ConvertAndPrior(data: Dict, projectDir: string) returns (r: Result<Dict>)
    ensures r == RewriteEntry(projectDir, data, AndPriorKey)
  {
    var andPrior := GetOr(data, "and_prior", VNone);
    if Truthy(andPrior) && (andPrior.VStr? || andPrior.VList?) {
      var x :- AndPriorFromValue(andPrior);
      return Ok(Set(data, "and_prior", MembersValue(x, (a: AndPriorORemove) => AndPrior(a))));
    }
    return Ok(data);
  }

  method ConvertOrRep(data: Dict, projectDir: string) returns (r: Result<Dict>)
    ensures r == RewriteEntry(projectDir, data, OrRepKey)
  {
    var orRep := GetOr(data, "or_rep", VNone);
    if Truthy(orRep) {
      var x :- AndPriorFromValue(orRep);
      return Ok(Set(data, "or_rep", MembersValue(x, (a: AndPriorORemove) => AndPrior(a))));
    }
    return Ok(data);
  }

  method ConvertGateManagement(data: Dict, projectDir: string) returns (r: Result<Dict>)
    ensures r == RewriteEntry(projectDir, data, GateManagementKey)
  {
    var gateManagement := GetOr(data, "gate_management", VNone);
    if Truthy(gateManagement) && (gateManagement.VStr? || gateManagement.VList?) {
      var g :- GateFromValue(gateManagement);
      return Ok(Set(data, "gate_management", OptionalMembersValue(g, (a: GateManagement) => Gate(a))));
    }
    return Ok(data);
  }

  method ConvertResCalMet(data: Dict, projectDir: string) returns (r: Result<Dict>)
    ensures r == RewriteEntry(projectDir, data, ResCalMetKey)
  {
    var resCalMet := GetOr(data, "res_cal_met", VNone);
    if Truthy(resCalMet) {
      var c :- ParseItem(resCalMet, CalendarType.FromStr);
      return Ok(Set(data, "res_cal_met", VEnum(Calendar(c))));
    }
    return Ok(data);
  }

  method ConvertResDtype(data: Dict, projectDir: string) returns (r: Result<Dict>)
    ensures r == RewriteEntry(projectDir, data, ResDtypeKey)
  {
    var resDtype := GetOr(data, "res_dtype", VNone);
    if Truthy(resDtype) {
      var d :- DataTypeFromValue(resDtype);
      return Ok(Set(data, "res_dtype", MembersValue(d, (a: DataType) => Data(a))));
    }
    return Ok(data);
  }

  method ConvertArrDtype(data: Dict, projectDir: string) returns (r: Result<Dict>)
    ensures r == RewriteEntry(projectDir, data, ArrDtypeKey)
  {
    var arrDtype := GetOr(data, "arr_dtype", VNone);
    if Truthy(arrDtype) && (arrDtype.VStr? || arrDtype.VList?) {
      var d :- DataTypeFromValue(arrDtype);
      return Ok(Set(data, "arr_dtype", MembersValue(d, (a: DataType) => Data(a))));
    }
    return Ok(data);
  }

  method ConvertPdefMethod(data: Dict, projectDir: string) returns (r: Result<Dict>)
    ensures r == RewriteEntry(projectDir, data, PdefMethodKey)
  {
    var pdefMethod := GetOr(data, "pdef_method", VNone);
    if Truthy(pdefMethod) {
      var p :- ParseItem(pdefMethod, PDFMethod.FromStr);
      return Ok(Set(data, "pdef_method", VEnum(Pdf(p))));
    }
    return Ok(data);
  }

  method ConvertExecMode(data: Dict, projectDir: string) returns (r: Result<Dict>)
    ensures r == RewriteEntry(projectDir, data, ExecModeKey)
  {
    var execMode := GetOr(data, "exec_mode", VNone);
    if Truthy(execMode) {
      var e :- ParseItem(execMode, ExecutionMode.FromStr);
      return Ok(Set(data, "exec_mode", VEnum(Execution(e))));
    }
    return Ok(data);
  }

  /** The sim_metric and add_metrics blocks, which differ only in the key. */
  method ConvertMetrics(data: Dict, projectDir: string, key: Key) returns (r: Result<Dict>)
    requires key == SimMetricKey || key == AddMetricsKey
    ensures r == RewriteEntry(projectDir, data, key)
  {
    var metrics := GetOr(data, key.Name(), VNone);
    if Truthy(metrics) {
      var m :- MetricFromValue(metrics);
      return Ok(Set(data, key.Name(), OptionalMembersValue(m, (a: Metric) => MetricMember(a))));
    }
    return Ok(data);
  }

  method ConvertSimulator(data: Dict, projectDir: string) returns (r: Result<Dict>)
    ensures r == RewriteEntry(projectDir, data, SimulatorKey)
  {
    var simulator := GetOr(data, "simulator", VNone);
    if Truthy(simulator) {
      var s :- ParseItem(simulator, SimulatorKind.FromStr);
      return Ok(Set(data, "simulator", VEnum(Simulator(s))));
    }
    return Ok(data);
  }

  /**
   * config_data_with_datastructures: a copy of the loaded dict with each
   * known key that holds a truthy value turned into a Path or an enum
   * member, block after block; the first conversion that raises is the
   * error.
   */
  method ConfigDataWithDatastructures(data0: Dict, projectDir: string) returns (r: Result<Dict>)
    ensures r == Normalised(projectDir, data0)
  {
    var data := data0;
    // the blocks still to run; running them on `data` gives the result
    ghost var rest := RewriteKeys;
    var step;
    step := ConvertModelPath(data, projectDir);
    rest := Step(projectDir, data0, data, rest, step);
    data :- step;
    step := ConvertPath(data, projectDir, LogPathKey);
    rest := Step(projectDir, data0, data, rest, step);
    data :- step;
    step := ConvertPath(data, projectDir, InputKey);
    rest := Step(projectDir, data0, data, rest, step);
    data :- step;
    step := ConvertMiningAlgorithm(data, projectDir);
    rest := Step(projectDir, data0, data, rest, step);
    data :- step;
    step := ConvertAndPrior(data, projectDir);
    rest := Step(projectDir, data0, data, rest, step);
    data :- step;
    step := ConvertOrRep(data, projectDir);
    rest := Step(projectDir, data0, data, rest, step);
    data :- step;
    step := ConvertGateManagement(data, projectDir);
    rest := Step(projectDir, data0, data, rest, step);
    data :- step;
    step := ConvertResCalMet(data, projectDir);
    rest := Step(projectDir, data0, data, rest, step);
    data :- step;
    step := ConvertResDtype(data, projectDir);
    rest := Step(projectDir, data0, data, rest, step);
    data :- step;
    step := ConvertArrDtype(data, projectDir);
    rest := Step(projectDir, data0, data, rest, step);
    data :- step;
    step := ConvertPdefMethod(data, projectDir);
    rest := Step(projectDir, data0, data, rest, step);
    data :- step;
    step := ConvertExecMode(data, projectDir);
    rest := Step(projectDir, data0, data, rest, step);
    data :- step;
    step := ConvertMetrics(data, projectDir, SimMetricKey);
    rest := Step(projectDir, data0, data, rest, step);
    data :- step;
    step := ConvertMetrics(data, projectDir, AddMetricsKey);
    rest := Step(projectDir, data0, data, rest, step);
    data :- step;
    step := ConvertSimulator(data, projectDir);
    rest := Step(projectDir, data0, data, rest, step);
    data :- step;
    return Ok(data);
  }

  /** Keys read after normalising that the normaliser does not list. */
  lemma OtherKeysUnlisted()
    ensures Unlisted(RewriteKeys, "structure_optimizer") && Unlisted(RewriteKeys, "time_optimizer")
    ensures Unlisted(RewriteKeys, "project_name")
  {
  }

  /** The normaliser keeps the dict's keys, and its result reads like its input at every key it does not list. */
  lemma NormalisedKeepsOthers(projectDir: string, data: Dict, k: string)
    requires Normalised(projectDir, data).Ok?
    requires Unlisted(RewriteKeys, k)
    ensures Keys(Normalised(projectDir, data).value) == Keys(data)
    ensures Get(Normalised(projectDir, data).value, k) == Get(data, k)
  {
    RewriteKeysDistinct();
    RewriteAllEffect(projectDir, data, RewriteKeys);
  }

  // ---------------------------------------------------- config_data_from_yaml

  /**
   * The optimiser section at `from`, when truthy, normalised and moved to
   * `to`; a truthy value that is not a dict has no .copy()/.get() and raises
   * AttributeError.
   */
  function MoveSection(projectDir: string, data: Dict, from: string, to: string): Result<Dict> {
    var section := GetOr(data, from, VNone);
    if !Truthy(section) then Ok(data)
    else if !section.VDict? then Err(AttributeError)
    else
      var normalised :- Normalised(projectDir, section.entries);
      Ok(Set(Pop(data, from), to, VDict(normalised)))
  }

  /** The two optimiser sections moved, the structure one first. */
  function MoveSections(projectDir: string, data: Dict): Result<Dict> {
    var moved :- MoveSection(projectDir, data, "structure_optimizer", "strc");
    MoveSection(projectDir, moved, "time_optimizer", "tm")
  }

  /** What config_data_from_yaml returns for `data`. */
  function FromYaml(projectDir: string, data: Dict): Result<Dict> {
    var normalised :- Normalised(projectDir, data);
    MoveSections(projectDir, normalised)
  }

  /**
   * A section move keeps the keys distinct, leaves a falsy section where it
   * is, and otherwise removes `from` and puts the normalised section at
   * `to`; every other key reads as before.
   */
  lemma MoveSectionEffect(projectDir: string, data: Dict, from: string, to: string)
    requires DistinctKeys(data) && from != to
    requires MoveSection(projectDir, data, from, to).Ok?
    ensures DistinctKeys(MoveSection(projectDir, data, from, to).value)
    ensures !Truthy(GetOr(data, from, VNone)) ==> MoveSection(projectDir, data, from, to).value == data
    ensures Truthy(GetOr(data, from, VNone)) ==>
      && Get(MoveSection(projectDir, data, from, to).value, from) == None
      && Get(MoveSection(projectDir, data, from, to).value, to) ==
         Some(VDict(Normalised(projectDir, GetOr(data, from, VNone).entries).value))
    ensures forall k :: k != from && k != to ==>
      Get(MoveSection(projectDir, data, from, to).value, k) == Get(data, k)
  {
    var section := GetOr(data, from, VNone);
    if Truthy(section) {
      var popped := Pop(data, from);
      var value := VDict(Normalised(projectDir, section.entries).value);
      PopDistinct(data, from);
      SetDistinct(popped, to, value);
      forall k ensures Get(Set(popped, to, value), k) == if k == to then Some(value) else if k == from then None else Get(data, k) {
        GetSet(popped, to, value, k);
        GetPop(data, from, k);
      }
    }
  }

  /**
   * config_data_from_yaml: the normalised dict, with the structure_optimizer
   * and time_optimizer sections, when truthy, normalised in turn and moved to
   * the keys strc and tm.
   */
  method ConfigDataFromYaml(data: Dict, projectDir: string) returns (r: Result<Dict>)
    ensures r == FromYaml(projectDir, data)
  {
    var config :- ConfigDataWithDatastructures(data, projectDir);

    var structureOptimizer := GetOr(config, "structure_optimizer", VNone);
    if Truthy(structureOptimizer) {
      if !structureOptimizer.VDict? {
        return Err(AttributeError);
      }
      var strc :- ConfigDataWithDatastructures(structureOptimizer.entries, projectDir);
      config := Pop(config, "structure_optimizer");
      config := Set(config, "strc", VDict(strc));
    }

    var timeOptimizer := GetOr(config, "time_optimizer", VNone);
    if Truthy(timeOptimizer) {
      if !timeOptimizer.VDict? {
        return Err(AttributeError);
      }
      var tm :- ConfigDataWithDatastructures(timeOptimizer.entries, projectDir);
      config := Pop(config, "time_optimizer");
      config := Set(config, "tm", VDict(tm));
    }

    return Ok(config);
  }

  /**
   * Moving both sections of a dict with distinct keys: each truthy section
   * ends up normalised under strc or tm and gone from its own key, and every
   * other key reads as before.
   */
  lemma MoveSectionsEffect(projectDir: string, data: Dict, r: Dict)
    requires DistinctKeys(data)
    requires MoveSections(projectDir, data) == Ok(r)
    ensures var section := GetOr(data, "structure_optimizer", VNone);
      Truthy(section) ==> (section.VDict? && Normalised(projectDir, section.entries).Ok? &&
        Get(r, "structure_optimizer") == None &&
        Get(r, "strc") == Some(VDict(Normalised(projectDir, section.entries).value)))
    ensures var section := GetOr(data, "time_optimizer", VNone);
      Truthy(section) ==> (section.VDict? && Normalised(projectDir, section.entries).Ok? &&
        Get(r, "time_optimizer") == None &&
        Get(r, "tm") == Some(VDict(Normalised(projectDir, section.entries).value)))
    ensures forall k :: k != "structure_optimizer" && k != "strc" && k != "time_optimizer" && k != "tm" ==>
      Get(r, k) == Get(data, k)
    ensures DistinctKeys(r)
  {
    var moved := MoveSection(projectDir, data, "structure_optimizer", "strc").value;
    MoveSectionEffect(projectDir, data, "structure_optimizer", "strc");
    MoveSectionEffect(projectDir, moved, "time_optimizer", "tm");
  }

  /**
   * On a loaded dict, a successful config_data_from_yaml leaves the two
   * sections of the input, when truthy, normalised under strc and tm and
   * gone from their own keys, and every other key as the normaliser left it.
   */
  lemma FromYamlEffect(projectDir: string, data: Dict, n: Dict, r: Dict)
    requires DistinctKeys(data)
    requires Normalised(projectDir, data) == Ok(n) && MoveSections(projectDir, n) == Ok(r)
    ensures GetOr(n, "structure_optimizer", VNone) == GetOr(data, "structure_optimizer", VNone)
    ensures GetOr(n, "time_optimizer", VNone) == GetOr(data, "time_optimizer", VNone)
    ensures DistinctKeys(n)
  {
    OtherKeysUnlisted();
    NormalisedKeepsOthers(projectDir, data, "structure_optimizer");
    NormalisedKeepsOthers(projectDir, data, "time_optimizer");
    SameKeysDistinct(data, n);
  }

  // ------------------------------------------------------------ Configuration

  /** The project name __post_init__ derives from a log path: its file name without the extension. */
  function ProjectName(logPath: string): (r: string)
    ensures '/' !in r
    ensures |r| <= |Basename(logPath)| && r == Basename(logPath)[..|r|]
  {
    var base := Basename(logPath);
    var name := SplitExt(base).0;
    assert base == name + SplitExt(base).1;
    assert forall i :: 0 <= i < |name| ==> name[i] == base[i];
    name
  }

  /** os.path.splitext of `stem.ext`, where the stem has no dot and no slash. */
  lemma SplitExtPlain(stem: string, ext: string)
    requires stem != "" && '.' !in stem && '/' !in stem && PlainSuffix(ext)
    ensures SplitExt(stem + ext) == (stem, ext)
  {
    var name := stem + ext;
    assert '/' !in name by {
      forall i | 0 <= i < |name| ensures name[i] != '/' {
        if i >= |stem| {
          assert name[i] == ext[i - |stem|];
        }
      }
    }
    assert LastIndexOf(name, '/') == -1;
    PlainSuffixLastDot(stem, ext);
    assert name[0] == stem[0] != '.';
    assert name[..|stem|] == stem && name[|stem|..] == ext;
  }

  /** The name of a log `dir/stem.ext` is `stem` when the stem has neither a dot nor a slash. */
  lemma ProjectNameOfLog(front: string, stem: string, ext: string)
    requires front == "" || EndsWith(front, "/")
    requires stem != "" && '.' !in stem && '/' !in stem && PlainSuffix(ext)
    ensures ProjectName(front + stem + ext) == stem
  {
    var name := stem + ext;
    SplitExtPlain(stem, ext);
    assert '/' !in name by {
      assert SplitExt(name).0 + SplitExt(name).1 == name;
    }
    assert front + stem + ext == front + name;
    BasenameAppend(front, name);
    if front != "" {
      assert front[|front| - 1] == '/';
      assert LastIndexOf(front, '/') == |front| - 1;
    }
    assert Basename(front) == "";
  }

  /** The Configuration fields __post_init__ reads and writes. */
  class Configuration {
    var projectName: Option<string>
    var logPath: Option<string>
    var pdefMethod: Option<PDFMethod>

    /** The dataclass constructor followed by __post_init__. */
    constructor (projectName: Option<string>, logPath: Option<string>, pdefMethod: Option<PDFMethod>)
      ensures this.logPath == logPath
      ensures this.projectName == if logPath.Some? && logPath.value != "" then Some(ProjectName(logPath.value)) else projectName
      ensures this.pdefMethod == Some(if pdefMethod.Some? then pdefMethod.value else PDFMethod.Default)
    {
      this.projectName := projectName;
      this.logPath := logPath;
      this.pdefMethod := pdefMethod;
      new;
      PostInit();
    }

    /**
     * __post_init__: a truthy log path names the project after its file, and
     * a missing PDF method becomes the default one. The log path is falsy
     * when it is None or the empty str; a Path never has empty text (Path('')
     * is '.'), and an enum member is always truthy.
     */
    method PostInit()
      modifies this
      ensures logPath == old(logPath)
      ensures projectName == if logPath.Some? && logPath.value != "" then Some(ProjectName(logPath.value)) else old(projectName)
      ensures pdefMethod == Some(if old(pdefMethod).Some? then old(pdefMethod).value else PDFMethod.Default)
    {
      if logPath.Some? && logPath.value != "" {
        projectName := Some(ProjectName(logPath.value));
      }
      if pdefMethod.None? {
        pdefMethod := Some(PDFMethod.Default);
      }
    }
  }

  // ---------------------------------------------------------- ProjectSettings

  datatype ProjectSettings = ProjectSettings(
    projectName: Value, outputDir: Value, logPath: Value, logIds: Value, modelPath: Value)

  /**
   * ProjectSettings.from_dict: the five keys read as they are, absent ones as
   * None; a missing project name or log path fails its assertion.
   */
  function ProjectSettingsFromDict(data: Dict): (r: Result<ProjectSettings>)
    ensures r.Ok? <==> GetOr(data, "project_name", VNone) != VNone && GetOr(data, "log_path", VNone) != VNone
    ensures r.Err? ==> r.error == AssertionError
    ensures r.Ok? ==> r.value.projectName == GetOr(data, "project_name", VNone) && r.value.logPath == GetOr(data, "log_path", VNone)
    ensures r.Ok? ==> r.value.outputDir == GetOr(data, "output_dir", VNone) && r.value.logIds == GetOr(data, "log_ids", VNone)
    ensures r.Ok? ==> r.value.modelPath == GetOr(data, "model_path", VNone)
  {
    var projectName := GetOr(data, "project_name", VNone);
    if projectName == VNone then Err(AssertionError)
    else
      var outputDir := GetOr(data, "output_dir", VNone);
      var logPath := GetOr(data, "log_path", VNone);
      if logPath == VNone then Err(AssertionError)
      else
        var logIds := GetOr(data, "log_ids", VNone);
        var modelPath := GetOr(data, "model_path", VNone);
        Ok(ProjectSettings(projectName, outputDir, logPath, logIds, modelPath))
  }

  /**
   * Settings read from a normalised dict: a non-empty str log path arrives as
   * a Path, and the project name as it was loaded.
   */
  lemma ProjectSettingsOfNormalised(projectDir: string, data: Dict, logPath: string, n: Dict)
    requires Normalised(projectDir, data) == Ok(n)
    requires Get(data, "log_path") == Some(VStr(logPath)) && logPath != ""
    requires Get(data, "project_name").Some? && Get(data, "project_name").value != VNone
    ensures ProjectSettingsFromDict(n).Ok?
    ensures ProjectSettingsFromDict(n).value.logPath == VPath(logPath)
    ensures ProjectSettingsFromDict(n).value.projectName == Get(data, "project_name").value
  {
    OtherKeysUnlisted();
    NormalisedLogPath(projectDir, data);
    NormalisedKeepsOthers(projectDir, data, "project_name");
    LogPathRewrite(projectDir, data, logPath);
    ProjectSettingsOfReads(n, Get(data, "project_name").value, VPath(logPath));
  }

  lemma LogPathRewrite(projectDir: string, data: Dict, logPath: string)
    requires Get(data, "log_path") == Some(VStr(logPath)) && logPath != ""
    ensures Expected(projectDir, data, LogPathKey) == Some(VPath(logPath))
  {
  }

  lemma ProjectSettingsOfReads(data: Dict, projectName: Value, logPath: Value)
    requires Get(data, "project_name") == Some(projectName) && projectName != VNone
    requires Get(data, "log_path") == Some(logPath) && logPath != VNone
    ensures ProjectSettingsFromDict(data).Ok?
    ensures ProjectSettingsFromDict(data).value.projectName == projectName
    ensures ProjectSettingsFromDict(data).value.logPath == logPath
  {
  }

  /** The normaliser leaves log_path as Expected says. */
  lemma NormalisedLogPath(projectDir: string, data: Dict)
    requires Normalised(projectDir, data).Ok?
    ensures Get(Normalised(projectDir, data).value, "log_path") == Expected(projectDir, data, LogPathKey)
  {
    RewriteKeysDistinct();
    RewriteAllEffect(projectDir, data, RewriteKeys);
    assert RewriteKeys[1] == LogPathKey;
  }
}
