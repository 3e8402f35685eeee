/*
 * The closed enumerations of simod/configuration.py with their string
 * parsers (`from_str` / `_from_str` on a str argument) and their renderings
 * (`__str__` where the class defines one, the member name and value Enum
 * gives every member otherwise).
 *
 * Every parser lower-cases its input and compares it with fixed spellings;
 * its contract relates the result to a per-member spelling (`Alias`,
 * `Aliases`, `ToString`), so that "parses to x" and "is x's spelling" are
 * the same statement, in both directions.
 */
module Enums {
  import opened Python

  // ------------------------------------------------ TraceAlignmentAlgorithm

  datatype TraceAlignmentAlgorithm = Replacement | Repair | Removal {
    /** __str__ */
    function ToString(): string {
      match this
      case Replacement => "replacement"
      case Repair => "repair"
      case Removal => "removal"
    }

    /** from_str: case-insensitive; anything else raises ValueError. */
    static function FromStr(value: string): (r: Result<TraceAlignmentAlgorithm>)
      ensures forall x: TraceAlignmentAlgorithm :: r == Ok(x) <==> x.ToString() == Lower(value)
      ensures r.Err? ==> r.error == ValueError
    {
      var v := Lower(value);
      if v == "replacement" then Ok(Replacement)
      else if v == "repair" then Ok(Repair)
      else if v == "removal" then Ok(Removal)
      else Err(ValueError)
    }
  }

  lemma TraceAlignmentRoundTrip(x: TraceAlignmentAlgorithm)
    ensures TraceAlignmentAlgorithm.FromStr(x.ToString()) == Ok(x)
  {
  }

  lemma TraceAlignmentCaseInsensitive(value: string)
    ensures TraceAlignmentAlgorithm.FromStr(Lower(value)) == TraceAlignmentAlgorithm.FromStr(value)
  {
    LowerIdempotent(value);
  }

  // ----------------------------------------------- StructureMiningAlgorithm

  datatype StructureMiningAlgorithm = SplitMiner1 | SplitMiner2 | SplitMiner3 {
    /** __str__ */
    function ToString(): string {
      match this
      case SplitMiner1 => "Split Miner 1"
      case SplitMiner2 => "Split Miner 2"
      case SplitMiner3 => "Split Miner 3"
    }

    /** The five lower-case spellings from_str accepts for the member. */
    function Aliases(): seq<string> {
      match this
      case SplitMiner1 => ["sm1", "splitminer1", "split miner 1", "split_miner_1", "split-miner-1"]
      case SplitMiner2 => ["sm2", "splitminer2", "split miner 2", "split_miner_2", "split-miner-2"]
      case SplitMiner3 => ["sm3", "splitminer3", "split miner 3", "split_miner_3", "split-miner-3"]
    }

    /** from_str: the lower-cased input must be one of a member's aliases; otherwise ValueError. */
    static function FromStr(value: string): (r: Result<StructureMiningAlgorithm>)
      ensures forall x: StructureMiningAlgorithm :: r == Ok(x) <==> Lower(value) in x.Aliases()
      ensures r.Err? ==> r.error == ValueError
    {
      var v := Lower(value);
      if v in ["sm1", "splitminer1", "split miner 1", "split_miner_1", "split-miner-1"] then Ok(SplitMiner1)
      else if v in ["sm2", "splitminer2", "split miner 2", "split_miner_2", "split-miner-2"] then Ok(SplitMiner2)
      else if v in ["sm3", "splitminer3", "split miner 3", "split_miner_3", "split-miner-3"] then Ok(SplitMiner3)
      else Err(ValueError)
    }
  }

  /** str() of a member, lower-cased, is one of its aliases, so it parses back. */
  lemma StructureMiningRoundTrip(x: StructureMiningAlgorithm)
    ensures StructureMiningAlgorithm.FromStr(x.ToString()) == Ok(x)
  {
    match x
    case SplitMiner1 => assert Lower("Split Miner 1") == "split miner 1";
    case SplitMiner2 => assert Lower("Split Miner 2") == "split miner 2";
    case SplitMiner3 => assert Lower("Split Miner 3") == "split miner 3";
  }

  lemma StructureMiningCaseInsensitive(value: string)
    ensures StructureMiningAlgorithm.FromStr(Lower(value)) == StructureMiningAlgorithm.FromStr(value)
  {
    LowerIdempotent(value);
  }

  // --------------------------------------------------------- AndPriorORemove

  datatype AndPriorORemove = True | False {
    /** __str__ */
    function ToString(): string {
      match this
      case True => "true"
      case False => "false"
    }

    /** _from_str */
    static function FromStr(value: string): (r: Result<AndPriorORemove>)
      ensures forall x: AndPriorORemove :: r == Ok(x) <==> x.ToString() == Lower(value)
      ensures r.Err? ==> r.error == ValueError
    {
      var v := Lower(value);
      if v == "true" then Ok(True)
      else if v == "false" then Ok(False)
      else Err(ValueError)
    }

    /** _from_bool */
    static function FromBool(value: bool): (r: AndPriorORemove)
      ensures r == True <==> value
    {
      if value then True else False
    }

    /** default(): the one-element list [FALSE]. */
    static function Default(): (r: seq<AndPriorORemove>)
      ensures |r| == 1 && r[0].ToString() == "false"
    {
      [False]
    }
  }

  lemma AndPriorRoundTrip(x: AndPriorORemove)
    ensures AndPriorORemove.FromStr(x.ToString()) == Ok(x)
  {
  }

  // ---------------------------------------------------------- GateManagement

  datatype GateManagement = Discovery | Equiprobable | Random {
    /** __str__ */
    function ToString(): string {
      match this
      case Discovery => "discovery"
      case Equiprobable => "equiprobable"
      case Random => "random"
    }

    /** _from_str */
    static function FromStr(value: string): (r: Result<GateManagement>)
      ensures forall x: GateManagement :: r == Ok(x) <==> x.ToString() == Lower(value)
      ensures r.Err? ==> r.error == ValueError
    {
      var v := Lower(value);
      if v == "discovery" then Ok(Discovery)
      else if v == "equiprobable" then Ok(Equiprobable)
      else if v == "random" then Ok(Random)
      else Err(ValueError)
    }
  }

  lemma GateManagementRoundTrip(x: GateManagement)
    ensures GateManagement.FromStr(x.ToString()) == Ok(x)
  {
  }

  // ------------------------------------------------------------ CalendarType

  datatype CalendarType =
    | Default
    | Discovered
    | Pool
    | Undifferentiated
    | DifferentiatedByPool
    | DifferentiatedByResource
  {
    /** The lower-case spelling from_str accepts for the member. */
    function Alias(): string {
      match this
      case Default => "default"
      case Discovered => "discovered"
      case Pool => "pool"
      case Undifferentiated => "undifferentiated"
      case DifferentiatedByPool => "differentiated_by_pool"
      case DifferentiatedByResource => "differentiated_by_resource"
    }

    /** from_str */
    static function FromStr(value: string): (r: Result<CalendarType>)
      ensures forall x: CalendarType :: r == Ok(x) <==> x.Alias() == Lower(value)
      ensures r.Err? ==> r.error == ValueError
    {
      var v := Lower(value);
      if v == "default" then Ok(CalendarType.Default)
      else if v == "discovered" then Ok(Discovered)
      else if v == "pool" then Ok(Pool)
      else if v == "undifferentiated" then Ok(Undifferentiated)
      else if v == "differentiated_by_pool" then Ok(DifferentiatedByPool)
      else if v == "differentiated_by_resource" then Ok(DifferentiatedByResource)
      else Err(ValueError)
    }
  }

  // ---------------------------------------------------------------- DataType

  datatype DataType = Dt247 | Lv917 {
    /** The digits from_str accepts as they are (compared without lower-casing). */
    function Code(): string {
      match this
      case Dt247 => "247"
      case Lv917 => "917"
    }

    /** The spelling from_str accepts in any case. */
    function Alias(): string {
      match this
      case Dt247 => "dt247"
      case Lv917 => "lv917"
    }

    /** _from_str: the exact code, or the alias in any case; otherwise ValueError. */
    static function FromStr(value: string): (r: Result<DataType>)
      ensures forall x: DataType :: r == Ok(x) <==> value == x.Code() || Lower(value) == x.Alias()
      ensures r.Err? ==> r.error == ValueError
    {
      if value == "247" || Lower(value) == "dt247" then Ok(Dt247)
      else if value == "917" || Lower(value) == "lv917" then Ok(Lv917)
      else Err(ValueError)
    }
  }

  /** Both spellings of each member parse to it, the alias also in upper case. */
  lemma DataTypeSpellings(x: DataType)
    ensures DataType.FromStr(x.Code()) == Ok(x)
    ensures DataType.FromStr(x.Alias()) == Ok(x)
  {
  }

  // --------------------------------------------------------------- PDFMethod

  datatype PDFMethod = Automatic | Semiautomatic | Manual | Default {
    /** The lower-case spelling from_str accepts for the member. */
    function Alias(): string {
      match this
      case Automatic => "automatic"
      case Semiautomatic => "semiautomatic"
      case Manual => "manual"
      case Default => "default"
    }

    /** from_str */
    static function FromStr(value: string): (r: Result<PDFMethod>)
      ensures forall x: PDFMethod :: r == Ok(x) <==> x.Alias() == Lower(value)
      ensures r.Err? ==> r.error == ValueError
    {
      var v := Lower(value);
      if v == "automatic" then Ok(Automatic)
      else if v == "semiautomatic" then Ok(Semiautomatic)
      else if v == "manual" then Ok(Manual)
      else if v == "default" then Ok(PDFMethod.Default)
      else Err(ValueError)
    }
  }

  // ----------------------------------------------------------- SimulatorKind

  datatype SimulatorKind = Bimp | Custom {
    /**
     * from_str: 'bimp' and 'qbp' (any case) are recognised but raise
     * NotImplementedError, 'custom' is CUSTOM, anything else ValueError.
     * No input parses to BIMP.
     */
    static function FromStr(value: string): (r: Result<SimulatorKind>)
      ensures r.Ok? <==> Lower(value) == "custom"
      ensures r.Ok? ==> r.value == Custom
      ensures r.Err? ==> (r.error == NotImplementedError <==> Lower(value) == "bimp" || Lower(value) == "qbp")
      ensures r.Err? ==> r.error == NotImplementedError || r.error == ValueError
    {
      var v := Lower(value);
      if v in ["bimp", "qbp"] then Err(NotImplementedError)
      else if v == "custom" then Ok(Custom)
      else Err(ValueError)
    }
  }

  // ------------------------------------------------------------------ Metric

  datatype Metric = Tsd | DayHourEmd | LogMae | Dl | Mae | DayEmd | CalEmd | DlMae | HourEmd {
    /** The lower-case spelling _from_str accepts for the member. */
    function Alias(): string {
      match this
      case Tsd => "tsd"
      case DayHourEmd => "day_hour_emd"
      case LogMae => "log_mae"
      case Dl => "dl"
      case Mae => "mae"
      case DayEmd => "day_emd"
      case CalEmd => "cal_emd"
      case DlMae => "dl_mae"
      case HourEmd => "hour_emd"
    }

    /** _from_str: one of the nine names in any case; distinct names give distinct members. */
    static function FromStr(value: string): (r: Result<Metric>)
      ensures forall x: Metric :: r == Ok(x) <==> x.Alias() == Lower(value)
      ensures r.Err? ==> r.error == ValueError
    {
      var v := Lower(value);
      if v == "tsd" then Ok(Tsd)
      else if v == "day_hour_emd" then Ok(DayHourEmd)
      else if v == "log_mae" then Ok(LogMae)
      else if v == "dl" then Ok(Dl)
      else if v == "mae" then Ok(Mae)
      else if v == "day_emd" then Ok(DayEmd)
      else if v == "cal_emd" then Ok(CalEmd)
      else if v == "dl_mae" then Ok(DlMae)
      else if v == "hour_emd" then Ok(HourEmd)
      else Err(ValueError)
    }
  }

  lemma MetricCaseInsensitive(value: string)
    ensures Metric.FromStr(Lower(value)) == Metric.FromStr(value)
  {
    LowerIdempotent(value);
  }

  // ----------------------------------------------------------- ExecutionMode

  datatype ExecutionMode = Single | Optimizer {
    /** The lower-case spelling from_str accepts for the member. */
    function Alias(): string {
      match this
      case Single => "single"
      case Optimizer => "optimizer"
    }

    /** from_str */
    static function FromStr(value: string): (r: Result<ExecutionMode>)
      ensures forall x: ExecutionMode :: r == Ok(x) <==> x.Alias() == Lower(value)
      ensures r.Err? ==> r.error == ValueError
    {
      var v := Lower(value);
      if v == "single" then Ok(Single)
      else if v == "optimizer" then Ok(Optimizer)
      else Err(ValueError)
    }
  }

  // ------------------------------------------------------- any enum member

  /** A member of one of the enumerations, as it can stand in a configuration dict. */
  datatype Member =
    | MiningAlgorithm(mining: StructureMiningAlgorithm)
    | AndPrior(andPrior: AndPriorORemove)
    | Gate(gate: GateManagement)
    | Calendar(calendar: CalendarType)
    | Data(data: DataType)
    | Pdf(pdf: PDFMethod)
    | Simulator(simulator: SimulatorKind)
    | MetricMember(metric: Metric)
    | Execution(execution: ExecutionMode)
  {
    function ClassName(): string {
      match this
      case MiningAlgorithm(_) => "StructureMiningAlgorithm"
      case AndPrior(_) => "AndPriorORemove"
      case Gate(_) => "GateManagement"
      case Calendar(_) => "CalendarType"
      case Data(_) => "DataType"
      case Pdf(_) => "PDFMethod"
      case Simulator(_) => "SimulatorKind"
      case MetricMember(_) => "Metric"
      case Execution(_) => "ExecutionMode"
    }

    /** The member's name as declared. */
    function Name(): string {
      match this
      case MiningAlgorithm(m) => (match m case SplitMiner1 => "SPLIT_MINER_1" case SplitMiner2 => "SPLIT_MINER_2" case SplitMiner3 => "SPLIT_MINER_3")
      case AndPrior(a) => (match a case True => "TRUE" case False => "FALSE")
      case Gate(g) => (match g case Discovery => "DISCOVERY" case Equiprobable => "EQUIPROBABLE" case Random => "RANDOM")
      case Calendar(c) =>
        (match c
         case Default => "DEFAULT" case Discovered => "DISCOVERED" case Pool => "POOL"
         case Undifferentiated => "UNDIFFERENTIATED" case DifferentiatedByPool => "DIFFERENTIATED_BY_POOL"
         case DifferentiatedByResource => "DIFFERENTIATED_BY_RESOURCE")
      case Data(d) => (match d case Dt247 => "DT247" case Lv917 => "LV917")
      case Pdf(p) => (match p case Automatic => "AUTOMATIC" case Semiautomatic => "SEMIAUTOMATIC" case Manual => "MANUAL" case Default => "DEFAULT")
      case Simulator(s) => (match s case Bimp => "BIMP" case Custom => "CUSTOM")
      case MetricMember(m) =>
        (match m
         case Tsd => "TSD" case DayHourEmd => "DAY_HOUR_EMD" case LogMae => "LOG_MAE" case Dl => "DL" case Mae => "MAE"
         case DayEmd => "DAY_EMD" case CalEmd => "CAL_EMD" case DlMae => "DL_MAE" case HourEmd => "HOUR_EMD")
      case Execution(e) => (match e case Single => "SINGLE" case Optimizer => "OPTIMIZER")
    }

    /** The member's value: auto() numbers members from 1 in declaration order; DataType's are given as 1 and 2. */
    function Number(): nat {
      match this
      case MiningAlgorithm(m) => (match m case SplitMiner1 => 1 case SplitMiner2 => 2 case SplitMiner3 => 3)
      case AndPrior(a) => (match a case True => 1 case False => 2)
      case Gate(g) => (match g case Discovery => 1 case Equiprobable => 2 case Random => 3)
      case Calendar(c) =>
        (match c
         case Default => 1 case Discovered => 2 case Pool => 3
         case Undifferentiated => 4 case DifferentiatedByPool => 5 case DifferentiatedByResource => 6)
      case Data(d) => (match d case Dt247 => 1 case Lv917 => 2)
      case Pdf(p) => (match p case Automatic => 1 case Semiautomatic => 2 case Manual => 3 case Default => 4)
      case Simulator(s) => (match s case Bimp => 1 case Custom => 2)
      case MetricMember(m) =>
        (match m
         case Tsd => 1 case DayHourEmd => 2 case LogMae => 3 case Dl => 4 case Mae => 5
         case DayEmd => 6 case CalEmd => 7 case DlMae => 8 case HourEmd => 9)
      case Execution(e) => (match e case Single => 1 case Optimizer => 2)
    }

    /** str(): the class's own __str__ where it has one, else Enum's "Class.NAME". */
    function ToString(): string {
      match this
      case MiningAlgorithm(m) => m.ToString()
      case AndPrior(a) => a.ToString()
      case Gate(g) => g.ToString()
      case _ => ClassName() + "." + Name()
    }

    /** repr(): Enum's "<Class.NAME: value>". */
    function Repr(): string {
      "<" + ClassName() + "." + Name() + ": " + IntToString(Number()) + ">"
    }
  }
}
