/** The feature row of one sample (`acquire_samples`, `get_lankyness_XYZ`,
    `check_last_same_job_success`), as a function of the host's snapshots and the shared
    timers and feedrates. The plugin's `AssembleRow` method is proved equal to `ExpectedRow`. */
module Assembler {
  import opened Wrappers
  import opened Features
  import States
  import Text

  /** The parts of `get_current_data()` that the row reads. `fileName` is the job's file name
      (None when no job is selected); `printTime` and `currentZ` are None when unknown. */
  datatype PrinterData = PrinterData(
    stateId: string,
    sdReady: bool,
    fileName: Option<string>,
    printTime: Option<real>,
    currentZ: Option<real>,
    resendRatio: real)

  /** One heater of `get_current_temperatures()`. */
  datatype Heater = Heater(actual: real, target: real, offset: real)

  /** Heaters by key: "bed", "chamber", "tool0", "tool1", ... */
  type Temperatures = map<string, Heater>

  /** The bounding box from a file's analysis. */
  datatype Dimensions = Dimensions(width: real, depth: real, height: real)

  /** A file of the local listing: its analysed dimensions (None when the analysis or its
      dimensions are missing) and the success flags of its print history, oldest first
      (None when the file has no history entry). */
  datatype FileEntry = FileEntry(dimensions: Option<Dimensions>, history: Option<seq<bool>>)

  /** `list_files()['local']`, by file name. */
  type FileListing = map<string, FileEntry>

  /** The current printer profile: its extruder count, None when the key is absent. */
  datatype Profile = Profile(extruderCount: Option<int>)

  /** Everything the host reports for one sample. */
  datatype Snapshot = Snapshot(data: PrinterData, temps: Temperatures, files: FileListing, profile: Profile)

  /** The plugin state a row reads: the two change timestamps and the two feedrate values. */
  datatype Shared = Shared(filamentChangeTime: real, toolChangeTime: real, feedrate: real, feedratePercent: real)

  /** The exceptions assembling a row can raise. */
  datatype SampleError =
    | UnknownState(stateId: string)   // KeyError from States[...]
    | FileNotListed(name: string)     // KeyError from files['local'][name]
    | NoDimensions(name: string)      // KeyError from [...]['analysis']['dimensions']
    | NoHistory(name: string)         // KeyError from [...]['history']
    | EmptyHistory(name: string)      // IndexError from [...]['history'][-1]

  /** Fields before the per-extruder block. */
  const ScalarCount: nat := 19
  /** Seconds during which a filament or tool change counts as recent. */
  const RecentWindow: real := 300.0

  /** `filename and filename is not ''`: a job file is selected. */
  predicate Active(name: Option<string>) {
    name.Some? && name.value != ""
  }

  /** The active file's depth and height are non-zero, so the ratios are defined. */
  predicate NoZeroDivision(files: FileListing, name: Option<string>) {
    Active(name) && name.value in files && files[name.value].dimensions.Some? ==>
      files[name.value].dimensions.value.depth != 0.0 && files[name.value].dimensions.value.height != 0.0
  }

  /** `get_lankyness_XYZ`: the ratios width/depth, depth/height and width/height of the active
      file, or three zeros when no file is selected. */
  function Lankiness(files: FileListing, name: Option<string>): (r: Result<seq<real>, SampleError>)
    requires NoZeroDivision(files, name)
    ensures r.Success? ==> |r.value| == 3
    ensures !Active(name) ==> r == Success([0.0, 0.0, 0.0])
    ensures Active(name) ==> (r.Success? <==> name.value in files && files[name.value].dimensions.Some?)
    ensures Active(name) && name.value !in files ==> r == Failure(FileNotListed(name.value))
    ensures Active(name) && r.Success? ==>
      var d := files[name.value].dimensions.value;
      r.value[0] * d.depth == d.width && r.value[1] * d.height == d.depth && r.value[2] * d.height == d.width
  {
    if Active(name) then
      if name.value !in files then Failure(FileNotListed(name.value))
      else match files[name.value].dimensions
        case None => Failure(NoDimensions(name.value))
        case Some(d) => Success([d.width / d.depth, d.depth / d.height, d.width / d.height])
    else Success([0.0, 0.0, 0.0])
  }

  /** `check_last_same_job_success`: the success flag of the newest history entry of the file. */
  function LastJobSuccess(files: FileListing, name: string): (r: Result<bool, SampleError>)
    ensures r.Success? <==> name in files && files[name].history.Some? && |files[name].history.value| > 0
    ensures r.Success? ==> var h := files[name].history.value; r.value == h[|h| - 1]
  {
    if name !in files then Failure(FileNotListed(name))
    else match files[name].history
      case None => Failure(NoHistory(name))
      case Some(h) => if |h| == 0 then Failure(EmptyHistory(name)) else Success(h[|h| - 1])
  }

  /** Python `int(b)`. */
  function BoolToInt(b: bool): (i: int)
    ensures i == 0 || i == 1
    ensures i == 1 <==> b
  {
    if b then 1 else 0
  }

  /** `x if x else 0.0`: an unknown reading becomes 0.0. */
  function OrZero(x: Option<real>): (r: real)
    ensures x.Some? ==> r == x.value
    ensures x.None? ==> r == 0.0
  {
    match x
    case Some(v) => if v != 0.0 then v else 0.0
    case None => 0.0
  }

  /** `int(now - changed < 300.0)`. */
  function RecentFlag(now: real, changed: real): (f: int)
    ensures f == 1 <==> now - changed < RecentWindow
    ensures f == 0 <==> !(now - changed < RecentWindow)
  {
    BoolToInt(now - changed < RecentWindow)
  }

  /** A flag is 1 up to 300 seconds after the change and 0 from then on. */
  lemma RecencyFlagBoundary(changed: real)
    ensures RecentFlag(changed + 299.0, changed) == 1
    ensures RecentFlag(changed + 300.0, changed) == 0
    ensures RecentFlag(changed + 301.0, changed) == 0
  {
  }

  /** `'tool{}'.format(n)`. */
  function ToolKey(n: nat): (k: string)
    ensures |k| > 4 && k[..4] == "tool"
    ensures forall i :: 4 <= i < |k| ==> Text.IsDigit(k[i])
    ensures |k| == 5 || k[4] != '0'
  {
    "tool" + Text.NatToString(n)
  }

  /** The digits after "tool" spell the tool's number. */
  lemma ToolKeyValue(n: nat)
    ensures Text.DecimalValue(ToolKey(n)[4..]) == n
  {
    Text.NatToStringValue(n);
    assert ToolKey(n)[4..] == Text.NatToString(n);
  }

  /** Distinct tools have distinct keys in the temperature map. */
  lemma ToolKeyInjective(m: nat, n: nat)
    ensures ToolKey(m) == ToolKey(n) ==> m == n
  {
    ToolKeyValue(m);
    ToolKeyValue(n);
  }

  /** actual, target and offset of a heater; each 0.0 when the heater is absent. */
  function HeaterFields(temps: Temperatures, key: string): (r: seq<Value>)
    ensures |r| == 3
    ensures key !in temps ==> r == [Float(0.0), Float(0.0), Float(0.0)]
    ensures key in temps ==> r == [Float(temps[key].actual), Float(temps[key].target), Float(temps[key].offset)]
  {
    if key in temps then [Float(temps[key].actual), Float(temps[key].target), Float(temps[key].offset)]
    else [Float(0.0), Float(0.0), Float(0.0)]
  }

  /** The chamber fields as written: actual and offset are tested for truthiness, target
      against None. */
  function ChamberFields(temps: Temperatures): (r: seq<Value>)
    ensures r == HeaterFields(temps, "chamber")
  {
    [ Float(if "chamber" in temps && temps["chamber"].actual != 0.0 then temps["chamber"].actual else 0.0),
      Float(if "chamber" in temps then temps["chamber"].target else 0.0),
      Float(if "chamber" in temps && temps["chamber"].offset != 0.0 then temps["chamber"].offset else 0.0) ]
  }

  /** `get_current().get('extruder').get('count', 1)`, as the number of iterations of
      `range(count)`: a missing count is 1 and a negative one gives no iteration. */
  function ExtruderCount(p: Profile): (n: nat)
    ensures p.extruderCount.None? ==> n == 1
    ensures p.extruderCount.Some? && p.extruderCount.value >= 0 ==> n == p.extruderCount.value
    ensures p.extruderCount.Some? && p.extruderCount.value < 0 ==> n == 0
  {
    var count := p.extruderCount.GetOr(1);
    if count < 0 then 0 else count
  }

  /** The per-extruder block for tools 0 .. n-1. */
  function ToolFields(temps: Temperatures, n: nat): (r: seq<Value>)
    ensures |r| == 3 * n
    decreases n
  {
    if n == 0 then [] else ToolFields(temps, n - 1) + HeaterFields(temps, ToolKey(n - 1))
  }

  /** Fields 3t, 3t+1 and 3t+2 of the block are the three readings of tool t. */
  lemma {:induction false} ToolFieldsAt(temps: Temperatures, n: nat, t: nat)
    requires t < n
    ensures ToolFields(temps, n)[3 * t .. 3 * t + 3] == HeaterFields(temps, ToolKey(t))
    decreases n
  {
    var prev := ToolFields(temps, n - 1);
    var last := HeaterFields(temps, ToolKey(n - 1));
    assert ToolFields(temps, n) == prev + last;
    if t < n - 1 {
      ToolFieldsAt(temps, n - 1, t);
      assert (prev + last)[3 * t .. 3 * t + 3] == prev[3 * t .. 3 * t + 3];
    } else {
      assert (prev + last)[3 * t .. 3 * t + 3] == last;
    }
  }

  /** The list literal of `__init__.py` lines 84-104, from the already evaluated state code, history
      flag and ratios. */
  function ScalarList(code: int, success: bool, lanks: seq<real>, s: Snapshot, now: real, sh: Shared): (r: seq<Value>)
    requires |lanks| == 3
    ensures |r| == ScalarCount
  {
    [ Int(code),
      Int(BoolToInt(s.data.sdReady)),
      Int(BoolToInt(success)),
      Float(OrZero(s.data.printTime)),
      Float(OrZero(s.data.currentZ)),
      Float(lanks[0]), Float(lanks[1]), Float(lanks[2]),
      Float(s.data.resendRatio),
      Int(RecentFlag(now, sh.filamentChangeTime)),
      Int(RecentFlag(now, sh.toolChangeTime)),
      Float(sh.feedrate),
      Float(sh.feedratePercent) ]
    + HeaterFields(s.temps, "bed") + ChamberFields(s.temps)
  }

  /** Where each scalar field sits in the list. */
  lemma ScalarListFields(code: int, success: bool, lanks: seq<real>, s: Snapshot, now: real, sh: Shared)
    requires |lanks| == 3
    ensures var r := ScalarList(code, success, lanks, s, now, sh);
      && r[0] == Int(code) && r[1] == Int(BoolToInt(s.data.sdReady)) && r[2] == Int(BoolToInt(success))
      && r[3] == Float(OrZero(s.data.printTime)) && r[4] == Float(OrZero(s.data.currentZ))
      && r[5..8] == [Float(lanks[0]), Float(lanks[1]), Float(lanks[2])]
      && r[8] == Float(s.data.resendRatio)
      && r[9] == Int(RecentFlag(now, sh.filamentChangeTime)) && r[10] == Int(RecentFlag(now, sh.toolChangeTime))
      && r[11] == Float(sh.feedrate) && r[12] == Float(sh.feedratePercent)
      && r[13..16] == HeaterFields(s.temps, "bed") && r[16..19] == HeaterFields(s.temps, "chamber")
  {
  }

  /** The 19 fields before the per-extruder block, in the order the source evaluates them:
      the ratios first (`__init__.py` line 82), then the state lookup, then the history lookup. */
  function ScalarFields(s: Snapshot, now: real, sh: Shared): (r: Result<seq<Value>, SampleError>)
    requires NoZeroDivision(s.files, s.data.fileName)
    ensures r.Success? ==> |r.value| == ScalarCount
  {
    var d := s.data;
    match Lankiness(s.files, d.fileName)
    case Failure(e) => Failure(e)
    case Success(lanks) =>
      match States.FromName(d.stateId)
      case None => Failure(UnknownState(d.stateId))
      case Some(state) =>
        var success := if Active(d.fileName) then LastJobSuccess(s.files, d.fileName.value) else Success(false);
        match success
        case Failure(e) => Failure(e)
        case Success(ok) => Success(ScalarList(States.Code(state), ok, lanks, s, now, sh))
  }

  /** The row `acquire_samples` appends, or the exception it raises. */
  function ExpectedRow(s: Snapshot, now: real, sh: Shared): (r: Result<Row, SampleError>)
    requires NoZeroDivision(s.files, s.data.fileName)
    ensures r.Success? ==> |r.value| == ScalarCount + 3 * ExtruderCount(s.profile)
  {
    match ScalarFields(s, now, sh)
    case Failure(e) => Failure(e)
    case Success(scalars) => Success(scalars + ToolFields(s.temps, ExtruderCount(s.profile)))
  }

  /** A row is its scalar fields followed by the per-extruder block. */
  lemma ExpectedFromScalars(s: Snapshot, now: real, sh: Shared, scalars: seq<Value>)
    requires NoZeroDivision(s.files, s.data.fileName)
    requires ScalarFields(s, now, sh) == Success(scalars)
    ensures ExpectedRow(s, now, sh) == Success(scalars + ToolFields(s.temps, ExtruderCount(s.profile)))
  {
  }

  /** The first 19 fields of a row are the scalar fields. */
  lemma RowPrefix(s: Snapshot, now: real, sh: Shared)
    requires NoZeroDivision(s.files, s.data.fileName)
    ensures ExpectedRow(s, now, sh).Success? <==> ScalarFields(s, now, sh).Success?
    ensures ExpectedRow(s, now, sh).Success? ==>
      |ExpectedRow(s, now, sh).value| >= ScalarCount &&
      ExpectedRow(s, now, sh).value[..ScalarCount] == ScalarFields(s, now, sh).value
  {
  }

  /** Tool t occupies fields 19+3t .. 19+3t+2, holding its three readings; a tool missing
      from the temperature map contributes 0.0 to each. */
  lemma ToolReadings(s: Snapshot, now: real, sh: Shared, t: nat)
    requires NoZeroDivision(s.files, s.data.fileName)
    requires ExpectedRow(s, now, sh).Success?
    requires t < ExtruderCount(s.profile)
    ensures |ExpectedRow(s, now, sh).value| == ScalarCount + 3 * ExtruderCount(s.profile)
    ensures ExpectedRow(s, now, sh).value[ScalarCount + 3 * t .. ScalarCount + 3 * t + 3]
              == HeaterFields(s.temps, ToolKey(t))
    ensures ToolKey(t) !in s.temps ==>
      ExpectedRow(s, now, sh).value[ScalarCount + 3 * t .. ScalarCount + 3 * t + 3]
        == [Float(0.0), Float(0.0), Float(0.0)]
  {
    var n := ExtruderCount(s.profile);
    var scalars := ScalarFields(s, now, sh).value;
    var tools := ToolFields(s.temps, n);
    ExpectedFromScalars(s, now, sh, scalars);
    ToolFieldsAt(s.temps, n, t);
    SliceOfSuffix(scalars, tools, 3 * t, 3 * t + 3);
  }

  /** A slice of the second part of a concatenation, indexed from the start of the whole. */
  lemma SliceOfSuffix(a: seq<Value>, b: seq<Value>, i: nat, j: nat)
    requires i <= j <= |b|
    ensures (a + b)[|a| + i .. |a| + j] == b[i .. j]
  {
  }

  /** The schema of a row: what each of the 19 scalar fields holds. */
  lemma RowFields(s: Snapshot, now: real, sh: Shared)
    requires NoZeroDivision(s.files, s.data.fileName)
    requires ExpectedRow(s, now, sh).Success?
    ensures States.FromName(s.data.stateId).Some? && Lankiness(s.files, s.data.fileName).Success?
    ensures Active(s.data.fileName) ==> LastJobSuccess(s.files, s.data.fileName.value).Success?
    ensures var row := ExpectedRow(s, now, sh).value;
      var lanks := Lankiness(s.files, s.data.fileName).value;
      && |row| >= ScalarCount
      && row[0] == Int(States.Code(States.FromName(s.data.stateId).value))
      && row[1] == Int(BoolToInt(s.data.sdReady))
      && row[2] == Int(BoolToInt(Active(s.data.fileName) && LastJobSuccess(s.files, s.data.fileName.value).value))
      && row[3] == Float(OrZero(s.data.printTime)) && row[4] == Float(OrZero(s.data.currentZ))
      && row[5..8] == [Float(lanks[0]), Float(lanks[1]), Float(lanks[2])]
      && row[8] == Float(s.data.resendRatio)
      && row[9] == Int(RecentFlag(now, sh.filamentChangeTime)) && row[10] == Int(RecentFlag(now, sh.toolChangeTime))
      && row[11] == Float(sh.feedrate) && row[12] == Float(sh.feedratePercent)
      && row[13..16] == HeaterFields(s.temps, "bed") && row[16..19] == HeaterFields(s.temps, "chamber")
  {
    RowPrefix(s, now, sh);
    var lanks := Lankiness(s.files, s.data.fileName).value;
    var code := States.Code(States.FromName(s.data.stateId).value);
    var ok := Active(s.data.fileName) && LastJobSuccess(s.files, s.data.fileName.value).value;
    assert ScalarFields(s, now, sh).value == ScalarList(code, ok, lanks, s, now, sh);
    ScalarListFields(code, ok, lanks, s, now, sh);
    var row := ExpectedRow(s, now, sh).value;
    var scalars := ScalarFields(s, now, sh).value;
    assert row[5..8] == scalars[5..8];
    assert row[13..16] == scalars[13..16] && row[16..19] == scalars[16..19];
  }

  /** The first field is the code of the reported state; an unknown state name raises. */
  lemma FirstFieldIsStateCode(s: Snapshot, now: real, sh: Shared)
    requires NoZeroDivision(s.files, s.data.fileName)
    ensures States.FromName(s.data.stateId).None? ==> ExpectedRow(s, now, sh).Failure?
    ensures ExpectedRow(s, now, sh).Success? ==>
      States.FromName(s.data.stateId).Some? &&
      |ExpectedRow(s, now, sh).value| > 0 &&
      ExpectedRow(s, now, sh).value[0] == Int(States.Code(States.FromName(s.data.stateId).value))
  {
    if ExpectedRow(s, now, sh).Success? {
      RowFields(s, now, sh);
    }
  }

  /** With no file selected the row cannot fail for want of file data: the three ratios are
      0.0 and the last-job-success field is 0. */
  lemma InactiveFileDefaults(s: Snapshot, now: real, sh: Shared)
    requires !Active(s.data.fileName)
    ensures ExpectedRow(s, now, sh).Success? <==> States.FromName(s.data.stateId).Some?
    ensures ExpectedRow(s, now, sh).Success? ==>
      var row := ExpectedRow(s, now, sh).value;
      |row| >= ScalarCount && row[2] == Int(0) && row[5..8] == [Float(0.0), Float(0.0), Float(0.0)]
  {
    assert Lankiness(s.files, s.data.fileName) == Success([0.0, 0.0, 0.0]);
    RowPrefix(s, now, sh);
    if ExpectedRow(s, now, sh).Success? {
      RowFields(s, now, sh);
    }
  }

  /** With a file selected, the row raises exactly when the state is unknown or the file's
      listing, dimensions or history is missing; otherwise field 2 is the newest success flag. */
  lemma ActiveFileFields(s: Snapshot, now: real, sh: Shared)
    requires NoZeroDivision(s.files, s.data.fileName)
    requires Active(s.data.fileName)
    ensures var name := s.data.fileName.value;
      ExpectedRow(s, now, sh).Success? <==>
        States.FromName(s.data.stateId).Some? && name in s.files &&
        s.files[name].dimensions.Some? && s.files[name].history.Some? && |s.files[name].history.value| > 0
    ensures var name := s.data.fileName.value;
      ExpectedRow(s, now, sh).Success? ==>
        var h := s.files[name].history.value;
        |ExpectedRow(s, now, sh).value| >= ScalarCount &&
        ExpectedRow(s, now, sh).value[2] == Int(BoolToInt(h[|h| - 1]))
  {
    RowPrefix(s, now, sh);
    if ExpectedRow(s, now, sh).Success? {
      RowFields(s, now, sh);
    }
  }

  /** Fields 9 and 10 are 1 exactly when the filament (tool) change is less than 300 s old,
      and 0 otherwise. */
  lemma RecencyFields(s: Snapshot, now: real, sh: Shared)
    requires NoZeroDivision(s.files, s.data.fileName)
    requires ExpectedRow(s, now, sh).Success?
    ensures var row := ExpectedRow(s, now, sh).value;
      |row| >= ScalarCount &&
      (row[9] == Int(1) <==> now - sh.filamentChangeTime < RecentWindow) &&
      (row[9] == Int(0) <==> !(now - sh.filamentChangeTime < RecentWindow)) &&
      (row[10] == Int(1) <==> now - sh.toolChangeTime < RecentWindow) &&
      (row[10] == Int(0) <==> !(now - sh.toolChangeTime < RecentWindow))
  {
    RowFields(s, now, sh);
  }

  /** Fields 11 and 12 are the tracked feedrate and feedrate percentage; 13..18 are the bed
      and chamber readings, 0.0 where the heater is absent. */
  lemma SharedAndHeaterFields(s: Snapshot, now: real, sh: Shared)
    requires NoZeroDivision(s.files, s.data.fileName)
    requires ExpectedRow(s, now, sh).Success?
    ensures var row := ExpectedRow(s, now, sh).value;
      |row| >= ScalarCount &&
      row[11] == Float(sh.feedrate) && row[12] == Float(sh.feedratePercent) &&
      row[13..16] == HeaterFields(s.temps, "bed") && row[16..19] == HeaterFields(s.temps, "chamber")
  {
    RowFields(s, now, sh);
  }
}
