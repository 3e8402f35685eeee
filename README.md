# Simod core, modelled in Dafny

Simod discovers business process simulation models from event logs. This
project models four self-contained pieces of it and proves what they promise.

- **Multitasking duration adjustment** (`src/simod/multitasking/multitasking.py`).
  A resource may work on several events at once. For each resource, a
  sweep line visits the START and END records of its events in time order.
  Every elapsed slice of time is split equally among the events open
  during it. Each event's end timestamp then becomes its start plus the
  time credited to it. The model keeps the source's imperative form: the
  event log is an `array` of rows, the sweep is a method with a loop over
  the sorted records, and the end-timestamp update writes the array in
  place. Each method is proved against a declarative account of the sweep
  (`IsOpen`, `Accrued`, `Busy` in module `MultitaskingSweep`).
- **Configuration parsing** (`src/simod/configuration.py`). This covers:
  - the enumerations, with their case-insensitive `from_str` parsers and
    their `__str__` renderings;
  - the parsers that also take a bool or a list;
  - the normaliser `config_data_with_datastructures`, which copies the
    loaded dict and rewrites fifteen known keys one block at a time;
  - `config_data_from_yaml`, which also moves the two optimiser sections
    to `strc` and `tm`;
  - `Configuration.__post_init__` and `ProjectSettings.from_dict`.
  A loaded YAML document is a `Value`. A dict is a sequence of entries in
  insertion order, as Python keeps it.
- **Split Miner command lines** (`src/simod/control_flow/discovery.py`).
  This covers the algorithm dispatch of `discover_process_model`, the
  platform-dependent JVM flags and quoting of `_prepare_split_miner_params`,
  the `.bpmn` handling of the output path, the v1 and v2 argument lists,
  and the layout command of `add_bpmn_diagram_to_model`.
- **Structure miner** (`src/simod/process_structure/miner.py`). This covers:
  - `Settings.from_stream` on an already-loaded dict: the nested section,
    the legacy key, the scalar assertions and the string-to-list coercion;
  - `Settings.to_dict`;
  - the `StructureMiner` class, whose constructor stores its fields and
    runs the miner chosen by `_get_miner`;
  - the SM2 and SM3 argument lists.

The operating system (`is_windows()`, `pl.system()`) is a parameter
`isWindows`. `PROJECT_DIR` and the directory of `discovery.py` are
parameters too. Launching an external command is modelled by a parameter
`produced: seq<string> -> bool`: it says whether the output file exists
after running that command line. An exception is an `Err` of a `Result`,
named after the Python exception.

Files: `python.dfy` (Python builtins the code relies on: `str.lower`,
`os.path`, `pathlib`'s `with_suffix`), `sorting.dfy` (a stable sort by a
key), `enums.dfy`, `values.dfy` (loaded values, dicts, `str`/`repr`),
`configuration.dfy`, `multitasking_sweep.dfy`, `multitasking.dfy`,
`discovery.dfy`, `miner.dfy`.

## Model

| member | source | states |
|---|---|---|
| Enums.TraceAlignmentAlgorithm.FromStr | src/simod/configuration.py:24-33 | parses to a member exactly when the lower-cased input is that member's `__str__`; ValueError otherwise |
| Enums.TraceAlignmentRoundTrip | src/simod/configuration.py:25-42 | parsing `str(x)` gives back `x` for every member |
| Enums.TraceAlignmentCaseInsensitive | src/simod/configuration.py:25-33 | the parser gives the same result on an input and on its lower-cased form |
| Enums.StructureMiningAlgorithm.FromStr | src/simod/configuration.py:50-59 | parses to a member exactly when the lower-cased input is one of that member's five aliases; ValueError otherwise |
| Enums.StructureMiningRoundTrip | src/simod/configuration.py:51-68 | parsing `str(x)` ('Split Miner N') gives back `x`, because its lower-cased form is an alias |
| Enums.StructureMiningCaseInsensitive | src/simod/configuration.py:51-59 | the parser gives the same result on an input and on its lower-cased form |
| Enums.AndPriorORemove.FromStr | src/simod/configuration.py:86-93 | `_from_str`: TRUE or FALSE exactly when the lower-cased input is 'true' or 'false'; ValueError otherwise |
| Enums.AndPriorORemove.FromBool | src/simod/configuration.py:95-100 | `_from_bool`: TRUE exactly when the bool is true |
| Enums.AndPriorORemove.Default | src/simod/configuration.py:102-104 | `default()` is the one-element list holding FALSE |
| Enums.AndPriorRoundTrip | src/simod/configuration.py:86-120 | `_from_str(str(x))` gives back `x` |
| Enums.GateManagement.FromStr | src/simod/configuration.py:135-144 | `_from_str`: a member exactly when the lower-cased input is its `__str__`; ValueError otherwise |
| Enums.GateManagementRoundTrip | src/simod/configuration.py:135-153 | `_from_str(str(x))` gives back `x` |
| Enums.CalendarType.FromStr | src/simod/configuration.py:166-181 | a member exactly when the lower-cased input is its lower-case spelling; ValueError otherwise |
| Enums.DataType.FromStr | src/simod/configuration.py:197-204 | a member exactly when the input is its code ('247' or '917') as written, or its alias ('dt247' or 'lv917') in any case; ValueError otherwise |
| Enums.DataTypeSpellings | src/simod/configuration.py:197-204 | the code and the alias of each member both parse to it |
| Enums.PDFMethod.FromStr | src/simod/configuration.py:213-224 | a member exactly when the lower-cased input is its spelling; ValueError otherwise |
| Enums.SimulatorKind.FromStr | src/simod/configuration.py:231-239 | 'bimp' and 'qbp' in any case raise NotImplementedError; 'custom' in any case gives CUSTOM; anything else raises ValueError; no input gives BIMP |
| Enums.Metric.FromStr | src/simod/configuration.py:260-281 | `_from_str`: a member exactly when the lower-cased input is its name, so distinct members have distinct names; ValueError otherwise |
| Enums.MetricCaseInsensitive | src/simod/configuration.py:260-281 | the parser gives the same result on an input and on its lower-cased form |
| Enums.ExecutionMode.FromStr | src/simod/configuration.py:288-296 | a member exactly when the lower-cased input is its spelling; ValueError otherwise |
| Config.AndPriorFromValue | src/simod/configuration.py:75-84 | `from_str`: a str gives the member it parses to; a bool gives TRUE exactly when true; a list gives one member per item, in order; any other value raises ValueError |
| Config.AndPriorToStr | src/simod/configuration.py:106-112 | `to_str` maps a member to one string and a list to a list of the same length |
| Config.AndPriorToStrRoundTrip | src/simod/configuration.py:75-120 | `from_str(to_str(x)) == x` for a member and for a list of members |
| Config.GateFromValue | src/simod/configuration.py:128-133 | a str gives the member it parses to; a list succeeds exactly when every item parses, giving each item's member in order; any other value gives None rather than raising |
| Config.DataTypeFromValue | src/simod/configuration.py:188-195 | a str gives the member it parses to; a list succeeds exactly when every item parses, giving each item's member in order; any other value raises ValueError |
| Config.MetricFromValue | src/simod/configuration.py:253-258 | a str gives the member it parses to; a list succeeds exactly when every item parses, giving each item's member in order; any other value gives None rather than raising |
| Config.PathText | src/simod/configuration.py:406 | `Path(v)` accepts a str or a Path and raises TypeError on anything else |
| Config.RewriteKeysDistinct | src/simod/configuration.py:404-466 | the fifteen keys the normaliser visits are pairwise distinct |
| Config.RewriteEntryFrame | src/simod/configuration.py:404-466 | one rewrite block keeps the dict's keys, gives its own key the rewritten value and changes no other key |
| Config.StepKeepsOthers | src/simod/configuration.py:404-466 | after one block, every other key reads, fails and is rewritten as it was before the block |
| Config.RewriteAllUnfold | src/simod/configuration.py:400-468 | the blocks run in order; the first that raises ends the run with its error |
| Config.RewriteAllSucceeds | src/simod/configuration.py:400-468 | a run of the blocks succeeds exactly when no block raises on the value it finds |
| Config.RewriteAllFails | src/simod/configuration.py:400-468 | a failing run raises what the first failing block raises, and every block before it succeeds |
| Config.FailsShift | src/simod/configuration.py:400-468 | after a successful first block, whether each later block fails is unchanged |
| Config.RewriteAllEffect | src/simod/configuration.py:400-468 | a successful run keeps the keys in their order, gives each visited key its rewritten value, and leaves every unvisited key as it was |
| Config.Step | src/simod/configuration.py:400-468 | running one more block either ends the normaliser with that block's error or continues from what the block returns |
| Config.ConvertModelPath | src/simod/configuration.py:404-410 | the model_path block: a truthy value becomes a Path; a relative one is joined to PROJECT_DIR |
| Config.ConvertPath | src/simod/configuration.py:412-418 | the log_path and input blocks: a truthy value becomes a Path |
| Config.ConvertMiningAlgorithm | src/simod/configuration.py:420-422 | the structure_mining_algorithm block: a truthy value is parsed |
| Config.ConvertAndPrior | src/simod/configuration.py:424-426 | the and_prior block: parsed only when truthy and a str or a list |
| Config.ConvertOrRep | src/simod/configuration.py:428-430 | the or_rep block: parsed whenever truthy, so a bool is accepted too |
| Config.ConvertGateManagement | src/simod/configuration.py:432-434 | the gate_management block: parsed only when truthy and a str or a list |
| Config.ConvertResCalMet | src/simod/configuration.py:436-438 | the res_cal_met block: a truthy value is parsed as a CalendarType |
| Config.ConvertResDtype | src/simod/configuration.py:440-442 | the res_dtype block: a truthy value is parsed as a DataType |
| Config.ConvertArrDtype | src/simod/configuration.py:444-446 | the arr_dtype block: parsed only when truthy and a str or a list |
| Config.ConvertPdefMethod | src/simod/configuration.py:448-450 | the pdef_method block: a truthy value is parsed as a PDFMethod |
| Config.ConvertExecMode | src/simod/configuration.py:452-454 | the exec_mode block: a truthy value is parsed as an ExecutionMode |
| Config.ConvertMetrics | src/simod/configuration.py:456-462 | the sim_metric and add_metrics blocks: a truthy value is parsed as a Metric or a list of them |
| Config.ConvertSimulator | src/simod/configuration.py:464-466 | the simulator block: a truthy value is parsed as a SimulatorKind |
| Config.ConfigDataWithDatastructures | src/simod/configuration.py:400-468 | the method that copies the dict and runs the fifteen blocks gives exactly the normalised dict, or the error of the first failing block |
| Config.OtherKeysUnlisted | src/simod/configuration.py:400-468 | structure_optimizer, time_optimizer and project_name are not among the rewritten keys |
| Config.NormalisedKeepsOthers | src/simod/configuration.py:400-468 | the normaliser keeps the dict's keys, and every key it does not visit reads as in the input |
| Config.NormalisedLogPath | src/simod/configuration.py:412-414 | after normalising, log_path reads its rewritten value |
| Config.MoveSectionEffect | src/simod/configuration.py:383-395 | moving one section: a falsy section leaves the dict as it is; a truthy one is normalised, removed from its key and stored under the new key; other keys are unchanged and keys stay distinct |
| Config.ConfigDataFromYaml | src/simod/configuration.py:380-397 | the method that normalises the dict, then moves structure_optimizer to strc and time_optimizer to tm, gives exactly the specified result |
| Config.MoveSectionsEffect | src/simod/configuration.py:383-395 | after both moves, each truthy section is normalised under strc or tm and gone from its own key, and every other key reads as before |
| Config.FromYamlEffect | src/simod/configuration.py:380-397 | normalising leaves both section keys as they were loaded and keeps the keys distinct, so the moves see the loaded sections |
| Config.ProjectName | src/simod/configuration.py:359-360 | the project name has no '/' and is a prefix of the log path's base name |
| Config.SplitExtPlain | src/simod/configuration.py:360 | `os.path.splitext` splits 'stem.ext' into the stem and '.ext' when the stem has no dot |
| Config.ProjectNameOfLog | src/simod/configuration.py:359-360 | the project name of a log 'dir/stem.ext' is 'stem' |
| Config.Configuration.constructor | src/simod/configuration.py:312-364 | the dataclass constructor followed by `__post_init__`: a truthy log path (not None, not '') names the project after its file; a missing PDF method becomes DEFAULT |
| Config.Configuration.PostInit | src/simod/configuration.py:358-364 | `__post_init__` keeps the log path, sets the project name from it when it is truthy (not None, not ''), and sets pdef_method to DEFAULT when missing |
| Config.ProjectSettingsFromDict | src/simod/configuration.py:479-498 | succeeds exactly when project_name and log_path are present and not None; AssertionError otherwise. On success all five fields carry `data.get(k, None)`: project_name, log_path, output_dir, log_ids and model_path |
| Config.ProjectSettingsOfReads | src/simod/configuration.py:479-498 | a dict holding a project name and a log path gives settings with exactly those values |
| Config.LogPathRewrite | src/simod/configuration.py:412-414 | a non-empty str log path is rewritten to the Path of that text |
| Config.ProjectSettingsOfNormalised | src/simod/configuration.py:412-498 | settings read from a normalised dict get the log path as a Path and the project name as loaded |
| Values.Get | src/simod/configuration.py:404 | `d.get(k)` finds a value exactly when `k` is a key of `d` |
| Values.Set | src/simod/configuration.py:408 | `d[k] = v` keeps a present key in its place and appends a new one |
| Values.Pop | src/simod/configuration.py:387 | `d.pop(k)` removes exactly that key's entry |
| Values.GetSet | src/simod/configuration.py:408 | after `d[k] = v`, `k` reads `v` and every other key reads as before |
| Values.SetDistinct | src/simod/configuration.py:388 | assignment keeps the keys of a dict distinct |
| Values.PopDistinct | src/simod/configuration.py:387 | pop keeps the keys of a dict distinct |
| Values.GetPop | src/simod/configuration.py:387 | after `d.pop(k)`, `k` is absent and every other key reads as before |
| Values.ParseAll | src/simod/configuration.py:82 | `[parse(v) for v in value]` succeeds exactly when every item parses; the result has one parsed item per input item, in order; on failure it raises the first item's error |
| Values.ParseItem | src/simod/configuration.py:422 | a parser that calls `.lower()` raises AttributeError on anything but a str |
| Values.LoweredSingletonBool | src/simod/process_structure/miner.py:182 | `str([b]).lower()` is '[true]' or '[false]': the brackets stay |
| Values.ReprStr | src/simod/process_structure/miner.py:182 | the repr of a str starts and ends with the same quote character |
| Python.Lower | src/simod/configuration.py:26 | `str.lower` on ASCII text: keeps the length and lowers each ASCII capital letter |
| Python.LowerIdempotent | src/simod/configuration.py:26 | lowering twice is lowering once |
| Python.WithSuffix | src/simod/control_flow/discovery.py:172 | `Path.with_suffix` raises ValueError exactly when the path has an empty name |
| Python.WithSuffixName | src/simod/control_flow/discovery.py:175 | after `with_suffix(s)` the name is the old stem followed by `s`, and its suffix is `s` |
| Python.WithSuffixTwice | src/simod/control_flow/discovery.py:175 | replacing the suffix twice is replacing it once with the second suffix |
| Python.WithSuffixEndsWith | src/simod/control_flow/discovery.py:175 | the path after `with_suffix(s)` ends with `s` |
| Python.StripSuffixRoundTrip | src/simod/process_structure/miner.py:139 | `with_suffix('')` followed by the old suffix gives back the path |
| Python.Join | src/simod/process_structure/miner.py:161 | the posix `os.path.join(a, b)` is `b` when `b` is absolute, and ends with `b` |
| Python.Basename | src/simod/configuration.py:360 | `os.path.basename` has no '/' and ends the path |
| Python.SplitExt | src/simod/configuration.py:360 | `os.path.splitext` splits the path into two parts that concatenate to it; the extension is empty or a dot followed by no '/' |
| Python.UnquoteQuote | src/simod/control_flow/discovery.py:169 | wrapping a text in double quotes can be undone |
| Sorting.Sort | src/simod/multitasking/multitasking.py:155 | `sorted` by a key gives a sorted permutation of its input |
| Sorting.SortedLength | src/simod/multitasking/multitasking.py:155 | `sorted` keeps the length |
| Sorting.SortedMembers | src/simod/multitasking/multitasking.py:155 | `sorted` keeps the elements |
| MultitaskingSweep.SweepOrder | src/simod/multitasking/multitasking.py:155 | the records sorted by timestamp, with the same length |
| MultitaskingSweep.OpenIdsMembers | src/simod/multitasking/multitasking.py:167-170 | an id is in the active set after k records exactly when its last record among them is a START |
| MultitaskingSweep.Put | src/simod/multitasking/multitasking.py:168 | `active_set[id] = record` adds the id and keeps ids distinct |
| MultitaskingSweep.Delete | src/simod/multitasking/multitasking.py:170 | `del active_set[id]` removes exactly that id and keeps ids distinct |
| MultitaskingSweep.DistinctCard | src/simod/multitasking/multitasking.py:159 | `len(active_set)` is the number of distinct open ids |
| MultitaskingSweep.Emissions | src/simod/multitasking/multitasking.py:162-165 | one auxiliary record per active event, each credited the same share |
| MultitaskingSweep.EmissionsShareOf | src/simod/multitasking/multitasking.py:162-165 | a step credits the share to each active id once and nothing to any other id |
| MultitaskingSweep.EmissionsTotal | src/simod/multitasking/multitasking.py:162-165 | a step emits the share times the number of active events in total |
| MultitaskingSweep.StepSharesSumToGap | src/simod/multitasking/multitasking.py:160-165 | with a non-empty active set, the shares of one step sum to the elapsed time |
| MultitaskingSweep.EmissionsNonNegative | src/simod/multitasking/multitasking.py:161 | a non-negative share gives non-negative records |
| MultitaskingSweep.ActiveIsOpenIds | src/simod/multitasking/multitasking.py:155-170 | the active set after k records holds exactly the ids open after them |
| MultitaskingSweep.EmittedShare | src/simod/multitasking/multitasking.py:157-166 | what step k credits an id is that id's share of the gap before record k |
| MultitaskingSweep.EmittedTotal | src/simod/multitasking/multitasking.py:157-166 | what step k emits in total is the busy time it adds |
| MultitaskingSweep.SweepAdvance | src/simod/multitasking/multitasking.py:156-170 | one iteration of the loop keeps the sweep invariant |
| MultitaskingSweep.SweptAll | src/simod/multitasking/multitasking.py:150-171 | after the whole sweep: no END was orphaned, each id got what it accrued, the total is the busy time, exactly the ever-open ids are credited, and all shares are non-negative |
| MultitaskingSweep.OrphanEnd | src/simod/multitasking/multitasking.py:170 | an END for an id that is not open makes `del` raise KeyError |
| MultitaskingSweep.MakeAuxiliaryLog | src/simod/multitasking/multitasking.py:150-171 | the sweep raises KeyError exactly when an END meets an id that is not open; otherwise each id's summed share is what it accrued, the total is the resource's busy time, exactly the ever-open ids appear, and every share is non-negative |
| MultitaskingSweep.PairedOpen | src/simod/multitasking/multitasking.py:167-170 | with one START before one END per id, the id is open exactly between them |
| MultitaskingSweep.PairedNoOrphanEnd | src/simod/multitasking/multitasking.py:170 | well-paired records never make `del` raise |
| MultitaskingSweep.PairedAllClosed | src/simod/multitasking/multitasking.py:155-170 | well-paired records leave the active set empty after the sweep |
| MultitaskingSweep.PairedEverOpen | src/simod/multitasking/multitasking.py:167-170 | with well-paired records, an id is ever open exactly when it has a record |
| MultitaskingSweep.AccruedBounds | src/simod/multitasking/multitasking.py:155-166 | sorted, well-paired records credit each event between zero and its original duration |
| MultitaskingSweep.AccruedIsolated | src/simod/multitasking/multitasking.py:159-166 | an event that overlaps no other is credited exactly its original duration |
| MultitaskingSweep.ShareOfAppend | src/simod/multitasking/multitasking.py:178 | an id's summed share over two logs is the sum of its shares over each |
| MultitaskingSweep.TotalAppend | src/simod/multitasking/multitasking.py:162-165 | the total share over two logs is the sum of their totals |
| Multitasking.ResourceRows | src/simod/multitasking/multitasking.py:116 | the selected rows are exactly the rows of the resource, in log order |
| Multitasking.MakeCustomRecords | src/simod/multitasking/multitasking.py:128-147 | the loop emits a START and an END for each row in turn, skipping instant rows |
| Multitasking.CustomRecordsSound | src/simod/multitasking/multitasking.py:136-146 | every record is the START at the start or the END at the end of one of the rows |
| Multitasking.CustomRecordsComplete | src/simod/multitasking/multitasking.py:136-146 | every non-instant row gets its START and its END record |
| Multitasking.CustomRecordsAdjacent | src/simod/multitasking/multitasking.py:146 | each row's START is immediately followed by its END |
| Multitasking.CustomRecordsCount | src/simod/multitasking/multitasking.py:128-147 | there are twice as many records as non-instant rows |
| Multitasking.CustomRecordsNoDuplicates | src/simod/multitasking/multitasking.py:128-147 | no record is emitted twice |
| Multitasking.SweptRecordsShape | src/simod/multitasking/multitasking.py:117-155 | the swept records are sorted, without repetition, and are exactly the START and END records of the resource's non-instant rows |
| Multitasking.SweptRecordsPaired | src/simod/multitasking/multitasking.py:155 | when no row ends before it starts, each START is swept before its END |
| Multitasking.SweepSucceedsIff | src/simod/multitasking/multitasking.py:155-170 | the sweep of a resource raises KeyError exactly when some row of it ends before it starts |
| Multitasking.AdjustedLogFrame | src/simod/multitasking/multitasking.py:174-181 | the adjustment changes only end timestamps, and only of non-instant rows of the resource |
| Multitasking.AdjustedLogBounds | src/simod/multitasking/multitasking.py:155-181 | an adjusted end lies between the row's start and its original end |
| Multitasking.AdjustedLogIsolated | src/simod/multitasking/multitasking.py:159-181 | a row that overlaps no other row of the resource keeps its end timestamp |
| Multitasking.UpdatedLogPermutation | src/simod/multitasking/multitasking.py:176 | sorting the auxiliary records by event id does not change what they do to the log |
| Multitasking.SumGroup | src/simod/multitasking/multitasking.py:177-178 | one `groupby` group: the run of equal ids from position k, and the sum of its shares |
| Multitasking.ApplyGroup | src/simod/multitasking/multitasking.py:177-180 | one group sets its event's end to the start plus the group's summed share, and changes nothing else |
| Multitasking.ApplyGroups | src/simod/multitasking/multitasking.py:177-180 | applying the sorted groups gives the updated log; an id that is not a row raises KeyError |
| Multitasking.SortByEventId | src/simod/multitasking/multitasking.py:176 | the records sorted by event id are a sorted permutation of them |
| Multitasking.SortedLikeRecords | src/simod/multitasking/multitasking.py:176 | sorted records update the log as the unsorted ones would, and name the same rows |
| Multitasking.UpdateEndTimestamps | src/simod/multitasking/multitasking.py:174-181 | each id present gets end = start + the sum of its shares; every other row and column is unchanged; KeyError exactly when an id is not a row |
| Multitasking.AuxLogAdjusts | src/simod/multitasking/multitasking.py:115-181 | applying the auxiliary log of a resource gives the adjusted log |
| Multitasking.MakeAuxLog | src/simod/multitasking/multitasking.py:122-125 | `_make_aux_log` raises KeyError exactly when some row of the resource ends before it starts; otherwise its records, applied to the log, give the resource's adjusted log and name only that resource's rows |
| Multitasking.AdjustDurationForResource | src/simod/multitasking/multitasking.py:115-119 | the log becomes the resource's adjusted log; on KeyError it is unchanged |
| Multitasking.UniqueResources | src/simod/multitasking/multitasking.py:55 | `unique()` lists every resource of the log once |
| Multitasking.UniqueResourcesOrder | src/simod/multitasking/multitasking.py:55 | `unique()` keeps the order of first appearance |
| Multitasking.PartlyStep | src/simod/multitasking/multitasking.py:58-59 | adjusting one more resource on a partly adjusted log adjusts it as on the original log, since other resources' rows do not affect it |
| Multitasking.PartlyAll | src/simod/multitasking/multitasking.py:58-59 | once every resource is done, the log is fully adjusted |
| Multitasking.AdjustSequentially | src/simod/multitasking/multitasking.py:56-59 | the sequential loop gives the fully adjusted log; KeyError exactly when some row ends before it starts, and then the resources before the failing one stay adjusted in place and the rest are untouched |
| Multitasking.CollectAuxLogs | src/simod/multitasking/multitasking.py:62-68 | the auxiliary logs of all resources, computed from the unchanged log and collected; KeyError exactly when some resource's sweep raises |
| Multitasking.CollectedAll | src/simod/multitasking/multitasking.py:62-69 | applying the collected auxiliary logs gives the fully adjusted log |
| Multitasking.AdjustConcurrently | src/simod/multitasking/multitasking.py:60-69 | the concurrent branch gives the same fully adjusted log; on KeyError the log is unchanged |
| Multitasking.AdjustDurations | src/simod/multitasking/multitasking.py:48-69 | both branches change only end timestamps, into the fully adjusted log; KeyError exactly when some row ends before it starts, leaving the log unchanged in the concurrent branch and partly adjusted, up to the failing resource, in the sequential one |
| Discovery.BpmnDiagramArgs | src/simod/control_flow/discovery.py:66-71 | java, -jar, then the layout jar and the model path, each in double quotes |
| Discovery.JavaPrefix | src/simod/control_flow/discovery.py:164-182 | 'java' alone on Windows, 'java', '-Xmx2G', '-Xms1024M' otherwise; the headless flag is present exactly when requested, and then it comes last |
| Discovery.PathArgQuoting | src/simod/control_flow/discovery.py:169-184 | on Windows the jar and log paths are in double quotes; elsewhere they are the bare paths |
| Discovery.OutputPathArgFails | src/simod/control_flow/discovery.py:171-191 | the output path fails (ValueError from `with_suffix`) exactly when the path has an empty name and the suffix is stripped or replaced |
| Discovery.OutputPathArgStripped | src/simod/control_flow/discovery.py:171-186 | with strip_output_suffix, the argument is the path without its suffix, quoted on Windows |
| Discovery.OutputPathArgBpmn | src/simod/control_flow/discovery.py:174-189 | a path without '.bpmn' gets its suffix replaced by '.bpmn', unquoted even on Windows |
| Discovery.OutputPathArgKept | src/simod/control_flow/discovery.py:176-191 | a path that contains '.bpmn' is kept, quoted on Windows |
| Discovery.PrepareSpec | src/simod/control_flow/discovery.py:157-193 | the four results: the JVM prefix, the jar and log paths quoted by platform, and the output path argument; ValueError exactly when the output path fails |
| Discovery.ModelOutputPath | src/simod/control_flow/discovery.py:171-191 | the branches on platform, strip flag and '.bpmn' give the specified output path argument |
| Discovery.PrepareSplitMinerParams | src/simod/control_flow/discovery.py:157-193 | the method gives exactly the specified four results |
| Discovery.V1Flags | src/simod/control_flow/discovery.py:120-126 | each optional flag is present exactly when its bool is set, in the order parallelismFirst, replaceIORs, removeLoopActivityMarkers |
| Discovery.AppendV1Flags | src/simod/control_flow/discovery.py:121-126 | the three conditional appends add exactly the flags |
| Discovery.V1Args | src/simod/control_flow/discovery.py:107-126 | the prefix, then the ten fixed options with eta and epsilon at their places, then the flags |
| Discovery.SplitMinerV1Command | src/simod/control_flow/discovery.py:100-126 | the method builds exactly the v1 command line |
| Discovery.V1CommandSpec | src/simod/control_flow/discovery.py:100-126 | the v1 command fails (ValueError) exactly when the output path has an empty name and no '.bpmn'; otherwise it starts with the headless JVM prefix |
| Discovery.V2Args | src/simod/control_flow/discovery.py:141-151 | the prefix, then the options, never '--eta' as an option, and '--splitminer2' last |
| Discovery.SplitMinerV2Command | src/simod/control_flow/discovery.py:132-151 | the method builds exactly the v2 command line |
| Discovery.V2CommandSpec | src/simod/control_flow/discovery.py:132-151 | a None epsilon fails its assertion; otherwise the command fails as v1's does and starts with the headless JVM prefix |
| Discovery.DiscoverProcessModel | src/simod/control_flow/discovery.py:37-53 | SPLIT_MINER_V1 runs the v1 command with eta, epsilon and both flags; SPLIT_MINER_V2 runs the v2 command with epsilon only; any other algorithm raises ValueError; success only when the model file exists |
| Miner.Single | src/simod/process_structure/miner.py:56-63 | the `type(x) is not list` assertion: a list raises AssertionError and anything else passes unchanged |
| Miner.BoolList | src/simod/process_structure/miner.py:65-81 | None stays None; a str becomes the one-element list of whether its lower-cased form is 'true'; a list is kept; any other value raises ValueError |
| Miner.AlgorithmValue | src/simod/process_structure/miner.py:47-49 | the algorithm is read from mining_algorithm, falling back to mining_alg when that is absent or None |
| Miner.FromStream | src/simod/process_structure/miner.py:37-41 | with a structure_optimizer key, all settings are read from that section (a non-dict section raises AttributeError); otherwise from the top level |
| Miner.FromSectionNoGateway | src/simod/process_structure/miner.py:43-45 | without a gateway method, no gateway parse is attempted |
| Miner.FromAlgorithmNone | src/simod/process_structure/miner.py:47-54 | the result is None exactly when neither algorithm key holds a value |
| Miner.FromAlgorithmParsed | src/simod/process_structure/miner.py:50-91 | an algorithm value is parsed; its error is raised; otherwise the settings carry the parsed algorithm |
| Miner.ReadOptionsScalars | src/simod/process_structure/miner.py:56-91 | the settings carry epsilon, eta and concurrency as loaded, none a list, and concurrency 0.0 when absent |
| Miner.ReadOptionsBoolLists | src/simod/process_structure/miner.py:65-91 | the settings carry and_prior and or_rep coerced to None or a list |
| Miner.FromSectionRejectsLists | src/simod/process_structure/miner.py:56-63 | a list epsilon, eta or concurrency fails its assertion |
| Miner.AlgorithmNumber | src/simod/process_structure/miner.py:95 | an algorithm's value is 1, 2 or 3 |
| Miner.ToDict | src/simod/process_structure/miner.py:93-102 | the dict has the seven keys in the source's order |
| Miner.ToDictReads | src/simod/process_structure/miner.py:93-102 | each key reads back its field; the algorithm's value tells algorithms apart |
| Miner.ToDictNotReloadable | src/simod/process_structure/miner.py:40-102 | a settings dict without a gateway method does not load back: the algorithm is written as its number, and `from_str` calls `.lower()` on it, which raises AttributeError |
| Miner.ClassPath | src/simod/process_structure/miner.py:155-188 | the class path is the jar, the platform separator, then `os.path.join(os.path.dirname(jar), 'lib', '*')`: the jar's own directory joined with 'lib' and '*', using '/', so it ends in 'lib/*' |
| Miner.GetMiner | src/simod/process_structure/miner.py:127-135 | SPLIT_MINER_1 raises NotImplementedError; SPLIT_MINER_2 selects the SM2 builder; SPLIT_MINER_3 the SM3 builder |
| Miner.ModelPathWithoutSuffix | src/simod/process_structure/miner.py:137-141 | a missing output path raises ValueError; otherwise the path without its suffix, which gives back the path when the suffix is appended |
| Miner.Sm2Launcher | src/simod/process_structure/miner.py:156-158 | 'java', plus '-Xmx2G' only off Windows, never '-Xms1024M' |
| Miner.Sm2Args | src/simod/process_structure/miner.py:159-168 | the launcher, '-cp', the class path, the service provider, then 'SM2', the log path, the output path and str(concurrency) |
| Miner.Sm3Launcher | src/simod/process_structure/miner.py:177-180 | 'java' alone on Windows; off Windows exactly 'java', '-Xmx2G', '-Xms1024M', in that order |
| Miner.Sm3Args | src/simod/process_structure/miner.py:182-196 | the launcher, '-cp', the class path, the service provider, 'SMD', epsilon, eta, the lower-cased str of and_prior and of or_rep, 'false', the log path and the output path |
| Miner.Sm3AndPriorFromString | src/simod/process_structure/miner.py:65-182 | an and_prior loaded as a string reaches SM3 as '[true]' or '[false]', brackets included |
| Miner.StructureMiner.constructor | src/simod/process_structure/miner.py:111-115 | the constructor stores the settings and both paths, then runs the miner |
| Miner.StructureMiner.Run | src/simod/process_structure/miner.py:117-125 | `_run` selects and runs the miner; SPLIT_MINER_1 raises NotImplementedError; success only when the model file exists |
| Miner.StructureMiner.Sm2Miner | src/simod/process_structure/miner.py:153-171 | the method builds exactly the SM2 command line, or raises ValueError from the output path |
| Miner.StructureMiner.Sm3Miner | src/simod/process_structure/miner.py:173-199 | the method builds exactly the SM3 command line, or raises ValueError from the output path |

## Left out

- `_resource_metrics` and the verbose check around it: it is a float ratio over pandas Series that only prints.
- `reformat_timestamps`, `convert_df_to_xes` and the column drop before writing: XML and file I/O.
- The process pool and progress bars of the concurrent branch. The model collects the auxiliary logs in resource order. The result does not depend on the order, because each resource's records name only that resource's rows.
- Floating point: timestamps, durations and shares are exact reals. The model also does not capture the rounding of `pd.Timedelta`.
- `Path.absolute()`, path normalisation and `folder_id()`. A Path is modelled by its text.
- `yaml.load` and `yaml.safe_load`. The model takes the already-loaded value.
- `print_warning` and `print_step`: output only.
- Launching external commands (`execute_external_command`, `subprocess.call`). The command line is the result, and the output file's existence is the parameter `produced`.
- `GatewayProbabilitiesDiscoveryMethod`: it is not defined in the files modelled. Its `from_str` is a parameter, and its members are opaque values.
- `StructureMiner._sm1_miner`: it is unreachable, because `_get_miner` raises for Split Miner 1.
- The final `ValueError` branch of `_get_miner`: it is unreachable, because the enumeration has only three members.
- `ProjectSettings.from_stream`, `Configuration.from_yaml_str` and `config_data_from_file`: they are yaml loading around functions that are modelled.
- The Configuration dataclass fields that `__post_init__` does not touch.
- Miner.FromStream: takes a loaded dict. A top-level document that is not a mapping is not modelled.
- Miner.Sm2Jar, Miner.Sm3Jar: the private jar paths of Settings are fixed to their defaults under PROJECT_DIR. Overriding them is not modelled.
- Python.Lower: only ASCII letters are lowered. Unicode case mapping, including mappings that change the length, is not modelled. Miner.BoolList and Miner.Sm3Args inherit this on non-ASCII text.
- Python.Join, Miner.ClassPath: paths always use '/', also when `isWindows` holds. Windows separators (`ntpath.join`, backslashes in `str(Path)`) are not modelled.
- Multitasking.MakeCustomRecords, Multitasking.UpdateEndTimestamps: the log's index is 0..n-1, so labels and positions coincide. A log with any other pandas index is not modelled.
- Multitasking.UniqueResources: resources are never NaN. A NaN resource, which `unique()` lists but `==` never matches, is not modelled.
- Values.Repr: the escaping of non-printable characters other than \n, \r and \t is not modelled.
- Config.AndPriorToStr: states only the shape of the result. Its contents are stated by Config.AndPriorToStrRoundTrip.
- The `Unknown ...` fallbacks of the `__str__` methods: they are unreachable, because every member has a spelling.
- `CalendarType`, `PDFMethod`, `ExecutionMode` and the other enumerations without a `__str__`: Enum's default rendering, "Class.NAME", is modelled only as `str()` inside values.
