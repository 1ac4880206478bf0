/** The BenchExec tool-info module for Crux: the tool's name, the version
    string cut from the tool's own report, the verdict read off its output,
    and the command line that launches its SV-COMP driver. */
module Crux {
  import opened PyStr
  import opened BenchExec

  /** `Tool.name`. */
  function Name(): (r: string)
    ensures r == "Crux"
  {
    "Crux"
  }

  // ---------------------------------------------------------------------
  // Tool.version
  // ---------------------------------------------------------------------

  const VersionMarker: string := "version:"

  /** `Tool.version`: the tool's report `report` from its first "version:"
      on. When the marker is missing, `find` gives -1 and the slice `[-1:]`
      keeps only the last character of the report (nothing when the report
      is empty). */
  function Version(report: string): (r: string)
    ensures |r| <= |report| && r == report[|report| - |r|..]
    ensures Contains(report, VersionMarker) ==>
      OccursAt(report, VersionMarker, |report| - |r|) &&
      forall i :: 0 <= i < |report| - |r| ==> !OccursAt(report, VersionMarker, i)
    ensures !Contains(report, VersionMarker) ==>
      r == if report == [] then [] else [report[|report| - 1]]
  {
    SliceFrom(report, Find(report, VersionMarker))
  }

  // ---------------------------------------------------------------------
  // Tool.determine_result
  // ---------------------------------------------------------------------

  // The marker strings the adapter searches for. The seven parenthesised
  // FALSIFIED markers are spelled as the bare one followed by their suffix.
  const VerifiedMarker: string := "Verification result: VERIFIED"
  const FalsifiedMarker: string := "Verification result: FALSIFIED"
  const FreeMarker: string := FalsifiedMarker + " (valid-free)"
  const DerefMarker: string := FalsifiedMarker + " (valid-deref)"
  const MemtrackMarker: string := FalsifiedMarker + " (valid-memtrack)"
  const MemcleanupMarker: string := FalsifiedMarker + " (valid-memcleanup)"
  const OverflowMarker: string := FalsifiedMarker + " (no-overflow)"
  const TerminationMarker: string := FalsifiedMarker + " (termination)"
  const ReachMarker: string := FalsifiedMarker + " (unreach-call)"
  const UnknownMarker: string := "Verification result: UNKNOWN"
  const ErrorMarker: string := "Verification result: ERROR"

  /** What `RESULT_UNKNOWN + "(incomplete)"` stands for. */
  const Incomplete: Verdict := Unknown("(incomplete)")

  /** The markers with the verdict each one announces, in the order the
      adapter tests them. */
  const Markers: seq<(string, Verdict)> := [
    (VerifiedMarker, TrueProp),
    (FreeMarker, FalseFree),
    (DerefMarker, FalseDeref),
    (MemtrackMarker, FalseMemtrack),
    (MemcleanupMarker, FalseMemcleanup),
    (OverflowMarker, FalseOverflow),
    (TerminationMarker, FalseTermination),
    (ReachMarker, FalseReach),
    (FalsifiedMarker, FalseProp),
    (UnknownMarker, Incomplete),
    (ErrorMarker, Error)
  ]

  /** The body of the loop in `determine_result` for one output line: the
      verdict of the first test in the `if`/`elif` chain that succeeds, or
      none when the line holds no marker. */
  function ClassifyLine(line: string): (r: Option<Verdict>)
  {
    if Contains(line, VerifiedMarker) then Some(TrueProp)
    else if Contains(line, FreeMarker) then Some(FalseFree)
    else if Contains(line, DerefMarker) then Some(FalseDeref)
    else if Contains(line, MemtrackMarker) then Some(FalseMemtrack)
    else if Contains(line, MemcleanupMarker) then Some(FalseMemcleanup)
    else if Contains(line, OverflowMarker) then Some(FalseOverflow)
    else if Contains(line, TerminationMarker) then Some(FalseTermination)
    else if Contains(line, ReachMarker) then Some(FalseReach)
    else if Contains(line, FalsifiedMarker) then Some(FalseProp)
    else if Contains(line, UnknownMarker) then Some(Incomplete)
    else if Contains(line, ErrorMarker) then Some(Error)
    else None
  }

  /** Reference reading of the chain: the verdict of the first entry of
      `Markers`, from index `k` on, whose marker the line contains. */
  function FirstMarker(line: string, k: nat): (r: Option<Verdict>)
    requires k <= |Markers|
    decreases |Markers| - k
    ensures r.Some? ==> exists j :: k <= j < |Markers| && Markers[j].1 == r.value
  {
    if k == |Markers| then None
    else if Contains(line, Markers[k].0) then Some(Markers[k].1)
    else FirstMarker(line, k + 1)
  }

  /** The index in `Markers` of the entry announcing `v` (11 for a verdict
      no marker announces). */
  function MarkerIndex(v: Verdict): (r: nat)
  {
    match v
    case TrueProp => 0
    case FalseFree => 1
    case FalseDeref => 2
    case FalseMemtrack => 3
    case FalseMemcleanup => 4
    case FalseOverflow => 5
    case FalseTermination => 6
    case FalseReach => 7
    case FalseProp => 8
    case Unknown(suffix) => if suffix == Incomplete.suffix then 9 else 11
    case Error => 10
  }

  /** No two markers announce the same verdict, and none announces the plain
      unknown: each entry's verdict has that entry's index. */
  lemma MarkerVerdictsDistinct()
    ensures forall k :: 0 <= k < |Markers| ==> MarkerIndex(Markers[k].1) == k
    ensures MarkerIndex(PlainUnknown) == 11
  {
  }

  /** From index `from` on, the reference reading yields the verdict of
      entry `k` exactly when the line contains marker `k` and none between. */
  lemma {:induction false} FirstMarkerAt(line: string, from: nat, k: nat)
    requires from <= k < |Markers|
    decreases k - from
    ensures FirstMarker(line, from) == Some(Markers[k].1) <==>
      Contains(line, Markers[k].0) &&
      forall j :: from <= j < k ==> !Contains(line, Markers[j].0)
  {
    MarkerVerdictsDistinct();
    if from < k {
      FirstMarkerAt(line, from + 1, k);
    }
  }

  /** From index `from` on, the reference reading yields nothing exactly
      when the line contains none of the remaining markers. */
  lemma {:induction false} FirstMarkerNone(line: string, from: nat)
    requires from <= |Markers|
    decreases |Markers| - from
    ensures FirstMarker(line, from) == None <==>
      forall j :: from <= j < |Markers| ==> !Contains(line, Markers[j].0)
  {
    if from < |Markers| {
      FirstMarkerNone(line, from + 1);
    }
  }

  /** The `if`/`elif` chain agrees with the reference reading. */
  lemma ClassifyLineIsFirstMarker(line: string)
    ensures ClassifyLine(line) == FirstMarker(line, 0)
  {
    FirstMarkerStep(line, 10, ErrorMarker, Error);
    FirstMarkerStep(line, 9, UnknownMarker, Incomplete);
    FirstMarkerStep(line, 8, FalsifiedMarker, FalseProp);
    FirstMarkerStep(line, 7, ReachMarker, FalseReach);
    FirstMarkerStep(line, 6, TerminationMarker, FalseTermination);
    FirstMarkerStep(line, 5, OverflowMarker, FalseOverflow);
    FirstMarkerStep(line, 4, MemcleanupMarker, FalseMemcleanup);
    FirstMarkerStep(line, 3, MemtrackMarker, FalseMemtrack);
    FirstMarkerStep(line, 2, DerefMarker, FalseDeref);
    FirstMarkerStep(line, 1, FreeMarker, FalseFree);
    FirstMarkerStep(line, 0, VerifiedMarker, TrueProp);
  }

  /** One step of the reference reading, at an entry whose contents are known. */
  lemma FirstMarkerStep(line: string, k: nat, marker: string, v: Verdict)
    requires k < |Markers| && Markers[k] == (marker, v)
    ensures FirstMarker(line, k) == if Contains(line, marker) then Some(v) else FirstMarker(line, k + 1)
  {
  }

  /** A line yields the verdict of marker `k` exactly when it contains
      marker `k` and none of the markers tested before it. */
  lemma ClassifyLineVerdict(line: string, k: nat)
    requires k < |Markers|
    ensures ClassifyLine(line) == Some(Markers[k].1) <==>
      Contains(line, Markers[k].0) &&
      forall j :: 0 <= j < k ==> !Contains(line, Markers[j].0)
  {
    ClassifyLineIsFirstMarker(line);
    FirstMarkerAt(line, 0, k);
  }

  /** A line yields no verdict exactly when it contains no marker. */
  lemma ClassifyLineNone(line: string)
    ensures ClassifyLine(line) == None <==>
      forall j :: 0 <= j < |Markers| ==> !Contains(line, Markers[j].0)
  {
    ClassifyLineIsFirstMarker(line);
    FirstMarkerNone(line, 0);
  }

  /** Every verdict a line can yield is one the markers announce; the plain
      unknown is not among them. */
  lemma ClassifyLineNeverPlainUnknown(line: string)
    ensures ClassifyLine(line) != Some(PlainUnknown)
    ensures ClassifyLine(line).Some? ==>
      exists k :: 0 <= k < |Markers| && ClassifyLine(line) == Some(Markers[k].1)
  {
    ClassifyLineIsFirstMarker(line);
    MarkerVerdictsDistinct();
  }

  /** The VERIFIED test runs first: a line holding it is a true-property
      verdict whatever FALSIFIED, UNKNOWN or ERROR marker it also holds. */
  lemma VerifiedWins(line: string)
    requires Contains(line, VerifiedMarker)
    ensures ClassifyLine(line) == Some(TrueProp)
  {
  }

  /** Each of the seven specific FALSIFIED markers begins with the bare
      FALSIFIED marker, so the bare test would catch all of them if it ran
      earlier. */
  lemma SpecificContainsFalsified(line: string, k: nat)
    requires 1 <= k <= 7
    requires Contains(line, Markers[k].0)
    ensures Contains(line, FalsifiedMarker)
  {
    var m := Markers[k].0;
    assert m[..|FalsifiedMarker|] == FalsifiedMarker by {
      var suffix := if k == 1 then " (valid-free)"
        else if k == 2 then " (valid-deref)"
        else if k == 3 then " (valid-memtrack)"
        else if k == 4 then " (valid-memcleanup)"
        else if k == 5 then " (no-overflow)"
        else if k == 6 then " (termination)"
        else " (unreach-call)";
      assert m == FalsifiedMarker + suffix;
    }
    ContainsPrefix(line, m, FalsifiedMarker);
  }

  /** A line holding a specific FALSIFIED marker (and no VERIFIED marker)
      gets a specific false verdict, never the generic false-property one. */
  lemma SpecificNeverGeneric(line: string, k: nat)
    requires 1 <= k <= 7
    requires Contains(line, Markers[k].0)
    ensures ClassifyLine(line).Some?
    ensures ClassifyLine(line) != Some(FalseProp)
    ensures !Contains(line, VerifiedMarker) ==>
      exists j :: 1 <= j <= k && ClassifyLine(line) == Some(Markers[j].1)
  {
    ClassifyLineNone(line);
    ClassifyLineVerdict(line, 8);
    ClassifyLineIsFirstMarker(line);
    if !Contains(line, VerifiedMarker) {
      var j :| 0 <= j <= k && Contains(line, Markers[j].0) &&
               forall i :: 0 <= i < j ==> !Contains(line, Markers[i].0) by {
        LeastMarker(line, k);
      }
      ClassifyLineVerdict(line, j);
    }
  }

  /** Among the markers up to `k` that the line contains, there is a first. */
  lemma LeastMarker(line: string, k: nat)
    requires k < |Markers| && Contains(line, Markers[k].0)
    ensures exists j :: 0 <= j <= k && Contains(line, Markers[j].0) &&
                        forall i :: 0 <= i < j ==> !Contains(line, Markers[i].0)
  {
  }

  /** The generic false-property verdict comes exactly from a line with the
      bare FALSIFIED marker and neither VERIFIED nor any of the seven
      parenthesised FALSIFIED markers. */
  lemma GenericFalsified(line: string)
    ensures ClassifyLine(line) == Some(FalseProp) <==>
      Contains(line, FalsifiedMarker) &&
      forall j :: 0 <= j < 8 ==> !Contains(line, Markers[j].0)
  {
    ClassifyLineVerdict(line, 8);
  }

  /** `determine_result`'s specification: the verdict of the first output
      line that holds a marker, or the plain unknown when none does. */
  function Determined(output: seq<string>): (r: Verdict)
  {
    if output == [] then PlainUnknown
    else match ClassifyLine(output[0])
      case Some(v) => v
      case None => Determined(output[1..])
  }

  /** The first line holding a marker decides the verdict. */
  lemma {:induction false} DeterminedByFirstMatch(output: seq<string>, i: nat)
    requires i < |output| && ClassifyLine(output[i]).Some?
    requires forall j :: 0 <= j < i ==> ClassifyLine(output[j]).None?
    ensures Determined(output) == ClassifyLine(output[i]).value
  {
    if i > 0 {
      assert ClassifyLine(output[0]).None?;
      DeterminedByFirstMatch(output[1..], i - 1);
    }
  }

  /** The plain unknown is reported exactly when no line holds a marker;
      in particular for empty output. */
  lemma {:induction false} DeterminedPlainUnknown(output: seq<string>)
    ensures Determined(output) == PlainUnknown <==>
      forall j :: 0 <= j < |output| ==> ClassifyLine(output[j]).None?
  {
    if output != [] {
      ClassifyLineNeverPlainUnknown(output[0]);
      DeterminedPlainUnknown(output[1..]);
      if ClassifyLine(output[0]).None? {
        assert forall j :: 1 <= j < |output| ==> output[j] == output[1..][j - 1];
      }
    }
  }

  /** Once a line holds a marker, nothing after it matters, even a line
      holding a different marker. */
  lemma LaterLinesIgnored(before: seq<string>, line: string, after: seq<string>)
    requires forall j :: 0 <= j < |before| ==> ClassifyLine(before[j]).None?
    requires ClassifyLine(line).Some?
    ensures Determined(before + [line] + after) == ClassifyLine(line).value
  {
    var output := before + [line] + after;
    assert output[|before|] == line;
    assert forall j :: 0 <= j < |before| ==> output[j] == before[j];
    DeterminedByFirstMatch(output, |before|);
  }

  /** An UNKNOWN marker on the deciding line gives the incomplete unknown,
      which differs from the plain unknown of output without markers. */
  lemma IncompleteIsNotPlain(before: seq<string>, line: string, after: seq<string>)
    requires forall j :: 0 <= j < |before| ==> ClassifyLine(before[j]).None?
    requires Contains(line, UnknownMarker)
    requires forall j :: 0 <= j < 9 ==> !Contains(line, Markers[j].0)
    ensures Determined(before + [line] + after) == Incomplete != PlainUnknown
  {
    ClassifyLineVerdict(line, 9);
    LaterLinesIgnored(before, line, after);
  }

  /** `Tool.determine_result`: scans `output` line by line and returns the
      verdict of the first line that holds a marker, or the plain unknown. */
  method DetermineResult(output: seq<string>) returns (r: Verdict)
    ensures r == Determined(output)
    ensures (exists i :: 0 <= i < |output| && ClassifyLine(output[i]) == Some(r) &&
               forall j :: 0 <= j < i ==> ClassifyLine(output[j]).None?) ||
            (r == PlainUnknown && forall j :: 0 <= j < |output| ==> ClassifyLine(output[j]).None?)
  {
    var i := 0;
    while i < |output|
      invariant 0 <= i <= |output|
      invariant forall j :: 0 <= j < i ==> ClassifyLine(output[j]).None?
    {
      var v := ClassifyLine(output[i]);
      if v.Some? {
        DeterminedByFirstMatch(output, i);
        return v.value;
      }
      i := i + 1;
    }
    DeterminedPlainUnknown(output);
    return PlainUnknown;
  }

  // ---------------------------------------------------------------------
  // Tool.cmdline
  // ---------------------------------------------------------------------

  const SpecFlag: string := "--svcomp-spec"
  const ArchFlag: string := "--svcomp-arch"
  const ConfigFlag: string := "--config"
  const ConfigFile: string := "unreach-call.config"

  /** The parameter handed to `get_data_model_from_task`. */
  const ArchParams: map<DataModel, string> := map[ILP32 := "32bit", LP64 := "64bit"]

  /** Python truthiness of `task.property_file`: present and non-empty. */
  predicate HasPropertyFile(task: Task)
  {
    task.propertyFile.Some? && task.propertyFile.value != ""
  }

  /** The position of a flag in the order the adapter adds them. */
  function FlagRank(flag: string): (r: nat)
  {
    if flag == SpecFlag then 0
    else if flag == ArchFlag then 1
    else if flag == ConfigFlag then 2
    else 3
  }

  /** The spec pair `cmdline` adds when the task has a property file. */
  function SpecPair(task: Task): (r: seq<(string, string)>)
  {
    if HasPropertyFile(task) then [(SpecFlag, task.propertyFile.value)] else []
  }

  /** The arch pair `cmdline` adds when the task has a data model. */
  function ArchPair(task: Task): (r: seq<(string, string)>)
  {
    var param := DataModelFromTask(task, ArchParams);
    if param.Some? && param.value != "" then [(ArchFlag, param.value)] else []
  }

  /** The flag/value pairs `cmdline` appends to the options, in order. */
  function FlagPairs(task: Task): (r: seq<(string, string)>)
  {
    SpecPair(task) + ArchPair(task) + [(ConfigFlag, ConfigFile)]
  }

  /** Which pairs `cmdline` adds: the spec pair exactly for a non-empty
      property file, the arch pair exactly for a data model, the config pair
      always and last; no flag twice, and spec before arch before config. */
  lemma FlagPairsContents(task: Task)
    ensures forall f :: (SpecFlag, f) in FlagPairs(task) <==>
      HasPropertyFile(task) && task.propertyFile.value == f
    ensures forall a :: (ArchFlag, a) in FlagPairs(task) <==>
      (task.dataModel == Some(ILP32) && a == "32bit") || (task.dataModel == Some(LP64) && a == "64bit")
    ensures FlagPairs(task) != [] && FlagPairs(task)[|FlagPairs(task)| - 1] == (ConfigFlag, ConfigFile)
    ensures forall i, j :: 0 <= i < j < |FlagPairs(task)| ==>
      FlagRank(FlagPairs(task)[i].0) < FlagRank(FlagPairs(task)[j].0) < 3
  {
  }

  /** The pairs written out as one flat argument list. */
  function Flatten(pairs: seq<(string, string)>): (r: seq<string>)
  {
    if pairs == [] then [] else [pairs[0].0, pairs[0].1] + Flatten(pairs[1..])
  }

  /** Pair `k` sits at positions `2k` and `2k + 1` of the flat list. */
  lemma {:induction false} FlattenAt(pairs: seq<(string, string)>)
    ensures |Flatten(pairs)| == 2 * |pairs|
    ensures forall k :: 0 <= k < |pairs| ==>
      Flatten(pairs)[2 * k] == pairs[k].0 && Flatten(pairs)[2 * k + 1] == pairs[k].1
  {
    if pairs != [] {
      FlattenAt(pairs[1..]);
      forall k | 1 <= k < |pairs|
        ensures Flatten(pairs)[2 * k] == pairs[k].0 && Flatten(pairs)[2 * k + 1] == pairs[k].1
      {
        assert pairs[1..][k - 1] == pairs[k];
      }
    }
  }

  /** Flattening distributes over concatenation. */
  lemma {:induction false} FlattenConcat(a: seq<(string, string)>, b: seq<(string, string)>)
    ensures Flatten(a + b) == Flatten(a) + Flatten(b)
  {
    if a != [] {
      calc {
        Flatten(a + b);
        [a[0].0, a[0].1] + Flatten((a + b)[1..]);
        { assert (a + b)[1..] == a[1..] + b; }
        [a[0].0, a[0].1] + Flatten(a[1..] + b);
        { FlattenConcat(a[1..], b); }
        [a[0].0, a[0].1] + (Flatten(a[1..]) + Flatten(b));
        Flatten(a) + Flatten(b);
      }
    } else {
      assert a + b == b;
    }
  }

  /** The options `cmdline` appends to the caller's list. */
  function AddedOptions(task: Task): (r: seq<string>)
  {
    Flatten(FlagPairs(task))
  }

  /** The added options, flag by flag, in the terms `cmdline` computes them. */
  lemma AddedOptionsSteps(task: Task)
    ensures Flatten(SpecPair(task)) ==
      if HasPropertyFile(task) then [SpecFlag, task.propertyFile.value] else []
    ensures Flatten(ArchPair(task)) ==
      var param := DataModelFromTask(task, ArchParams);
      if param.Some? && param.value != "" then [ArchFlag, param.value] else []
    ensures AddedOptions(task) ==
      Flatten(SpecPair(task)) + Flatten(ArchPair(task)) + [ConfigFlag, ConfigFile]
  {
    FlattenConcat(SpecPair(task) + ArchPair(task), [(ConfigFlag, ConfigFile)]);
    FlattenConcat(SpecPair(task), ArchPair(task));
    assert Flatten([(ConfigFlag, ConfigFile)]) == [ConfigFlag, ConfigFile];
  }

  /** The added options, flag by flag: the spec pair when the task has a
      property file, the arch pair when it has a data model, the config pair. */
  lemma AddedOptionsExplicit(task: Task)
    ensures AddedOptions(task) ==
      (if HasPropertyFile(task) then [SpecFlag, task.propertyFile.value] else []) +
      (match task.dataModel
       case None => []
       case Some(ILP32) => [ArchFlag, "32bit"]
       case Some(LP64) => [ArchFlag, "64bit"]) +
      [ConfigFlag, ConfigFile]
  {
    AddedOptionsSteps(task);
  }

  /** The argument list `cmdline` returns: the executable, the caller's
      options, the added flag pairs, and the task's input files. */
  function CommandLine(executable: string, options: seq<string>, task: Task): (cmd: seq<string>)
  {
    [executable] + options + AddedOptions(task) + task.inputFiles
  }

  /** The command line starts with the executable and the caller's options,
      holds flag pair `k` at positions `1 + |options| + 2k` and the next one,
      and ends with the input files in their order. */
  lemma CommandLineLayout(executable: string, options: seq<string>, task: Task)
    ensures var cmd := CommandLine(executable, options, task);
      && |cmd| == 1 + |options| + 2 * |FlagPairs(task)| + |task.inputFiles|
      && cmd[0] == executable
      && cmd[1..1 + |options|] == options
      && cmd[|cmd| - |task.inputFiles|..] == task.inputFiles
      && forall k :: 0 <= k < |FlagPairs(task)| ==>
           cmd[1 + |options| + 2 * k] == FlagPairs(task)[k].0 &&
           cmd[2 + |options| + 2 * k] == FlagPairs(task)[k].1
  {
    LayoutOf(executable, options, FlagPairs(task), task.inputFiles);
  }

  /** `CommandLineLayout` for any pairs and input files. */
  lemma LayoutOf(executable: string, options: seq<string>, pairs: seq<(string, string)>,
                 inputs: seq<string>)
    ensures var cmd := [executable] + options + Flatten(pairs) + inputs;
      && |cmd| == 1 + |options| + 2 * |pairs| + |inputs|
      && cmd[0] == executable
      && cmd[1..1 + |options|] == options
      && cmd[|cmd| - |inputs|..] == inputs
      && forall k :: 0 <= k < |pairs| ==>
           cmd[1 + |options| + 2 * k] == pairs[k].0 && cmd[2 + |options| + 2 * k] == pairs[k].1
  {
    FlattenAt(pairs);
  }

  /** The caller's mutable options list. */
  class ArgList {
    var items: seq<string>

    constructor (init: seq<string>)
      ensures items == init
    {
      items := init;
    }

    /** Python's `list += more`. */
    method Extend(more: seq<string>)
      modifies this
      ensures items == old(items) + more
    {
      items := items + more;
    }
  }

  /** `Tool.cmdline`: extends the caller's `options` in place with the flag
      pairs and returns the full argument list. */
  method Cmdline(executable: string, options: ArgList, task: Task) returns (cmd: seq<string>)
    modifies options
    ensures options.items == old(options.items) + AddedOptions(task)
    ensures cmd == CommandLine(executable, old(options.items), task)
  {
    ghost var before := options.items;
    if HasPropertyFile(task) {
      options.Extend([SpecFlag, task.propertyFile.value]);
    }
    assert options.items == before + Flatten(SpecPair(task)) by {
      AddedOptionsSteps(task);
    }
    var dataModelParam := DataModelFromTask(task, ArchParams);
    if dataModelParam.Some? && dataModelParam.value != "" {
      options.Extend([ArchFlag, dataModelParam.value]);
    }
    assert options.items == before + Flatten(SpecPair(task)) + Flatten(ArchPair(task)) by {
      AddedOptionsSteps(task);
    }
    options.Extend([ConfigFlag, ConfigFile]);
    assert options.items == before + AddedOptions(task) by {
      AddedOptionsSteps(task);
    }
    cmd := [executable] + options.items + task.inputFiles;
  }
}
