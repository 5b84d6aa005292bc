/** The plugin object (`PrintWatchPlugin`): the shared timers and feedrates, the row log,
    one iteration of the sampling loop, the event handlers and the G-code hook. The host's
    snapshots, the clock and Python's `float()`/`repr(float)` are parameters. */
module Plugin {
  import opened Wrappers
  import opened Features
  import opened Assembler
  import Serialise
  import Lifecycle
  import Gcode

  /** Seconds after plugin start before the first sample. */
  const WarmUp: real := 20.0
  /** Seconds that must pass between two samples. */
  const Throttle: real := 2.0
  /** The log is written out once it holds more rows than this. */
  const FlushThreshold: nat := 5

  /** The gate of the sampling loop: throttle and warm-up both passed. */
  predicate SampleDue(now: real, lastTime: real, pluginStart: real) {
    now - lastTime > Throttle && now - pluginStart > WarmUp
  }

  /** What one iteration of the sampling loop did. A `Crashed` iteration raised out of the
      loop, which has no handler: the sampling thread ends there. */
  datatype TickOutcome = Idle | Sampled | Crashed(error: SampleError)

  class PrintWatchPlugin {
    const samples: AnomalyFeatures
    const pluginStart: real
    var lastTime: real
    var toolChangeTime: real
    var filamentChangeTime: real
    var currentFeedratePercent: real
    var currentFeedrate: real

    // The collaborators, as the flags and counters of Lifecycle.Controller.
    var inferencerRunning: bool
    var commRunning: bool
    var triggered: bool
    var warningNotification: bool
    var tickets: nat
    var restarts: nat
    var shutoffs: nat
    var cooldowns: nat
    var messages: seq<Lifecycle.Message>

    /** Whether the sampling thread is still looping. */
    var samplerAlive: bool
    /** The lines of the output file as last written. */
    ghost var outputFile: seq<string>
    /** The times at which the sampling loop took its samples, oldest first. */
    ghost var sampleTimes: seq<real>

    /** Samples of the loop are more than 2 s apart, all after the warm-up, and the latest
        one is `lastTime`. */
    ghost predicate Spaced()
      reads this
    {
      && (sampleTimes != [] ==> sampleTimes[|sampleTimes| - 1] == lastTime)
      && (forall i :: 0 < i < |sampleTimes| ==> sampleTimes[i] - sampleTimes[i - 1] > Throttle)
      && (forall i :: 0 <= i < |sampleTimes| ==> sampleTimes[i] - pluginStart > WarmUp)
    }

    /** The loop's samples are spaced as `Spaced` says and, while the sampler runs, the log
        holds the row taken at startup plus one row per sample of the loop. */
    ghost predicate Valid()
      reads this, samples
    {
      Spaced() && (samplerAlive ==> |samples.rows| == |sampleTimes| + 1)
    }

    /** `on_after_startup` at time `now`: the timers and feedrates get their initial values,
        one row is taken from `s` right away (before any warm-up), and the sampling thread is
        started only if taking that row did not raise. */
    constructor (now: real, s: Snapshot)
      requires NoZeroDivision(s.files, s.data.fileName)
      ensures Valid() && fresh(samples)
      ensures pluginStart == now && lastTime == 0.0
      ensures toolChangeTime == 0.0 && filamentChangeTime == 0.0
      ensures currentFeedratePercent == 1.0 && currentFeedrate == 1.0
      ensures !inferencerRunning && !commRunning && !triggered && !warningNotification
      ensures tickets == 0 && restarts == 0 && shutoffs == 0 && cooldowns == 0 && messages == []
      ensures var startup := ExpectedRow(s, now, Shared(0.0, 0.0, 1.0, 1.0));
        && (samplerAlive <==> startup.Success?)
        && samples.rows == (if startup.Success? then [startup.value] else [])
      ensures outputFile == [] && sampleTimes == []
    {
      samples := new AnomalyFeatures();
      pluginStart := now;
      lastTime := 0.0;
      toolChangeTime := 0.0;
      filamentChangeTime := 0.0;
      currentFeedratePercent := 1.0;
      currentFeedrate := 1.0;
      inferencerRunning, commRunning, triggered, warningNotification := false, false, false, false;
      tickets, restarts, shutoffs, cooldowns := 0, 0, 0, 0;
      messages := [];
      samplerAlive := false;
      outputFile := [];
      sampleTimes := [];
      new;
      assert SharedView() == Shared(0.0, 0.0, 1.0, 1.0);
      StartSampler(s, now);
    }

    /** `__init__.py` lines 73-74: the startup row, and the sampling thread only if that row
        did not raise. */
    method StartSampler(s: Snapshot, now: real)
      requires NoZeroDivision(s.files, s.data.fileName)
      requires samples.rows == []
      modifies samples, this`samplerAlive
      ensures var startup := ExpectedRow(s, now, SharedView());
        && (samplerAlive <==> startup.Success?)
        && samples.rows == (if startup.Success? then [startup.value] else [])
    {
      var startup := AcquireSamples(s, now);
      samplerAlive := startup.Success?;
    }

    /** The inferencer's `triggered` and `warning_notification` flags, which it sets itself
        while it runs; the handlers only read them. */
    method InferencerFlags(t: bool, w: bool)
      modifies this`triggered, this`warningNotification
      ensures triggered == t && warningNotification == w
    {
      triggered := t;
      warningNotification := w;
    }

    /** The timers and feedrates a row reads. */
    function SharedView(): Shared
      reads this
    {
      Shared(filamentChangeTime, toolChangeTime, currentFeedrate, currentFeedratePercent)
    }

    /** The controller state `on_event` and `on_settings_save` act on. */
    function ControllerView(): Lifecycle.Controller
      reads this
    {
      Lifecycle.Controller(inferencerRunning, commRunning, triggered, warningNotification,
                           tickets, restarts, shutoffs, cooldowns, messages,
                           filamentChangeTime, toolChangeTime)
    }

    /** The 19 scalar fields of `acquire_samples` (`__init__.py` lines 77-104), in the source's order of
        evaluation: ratios, state lookup, history lookup. */
    method ScalarRow(s: Snapshot, now: real) returns (r: Result<seq<Value>, SampleError>)
      requires NoZeroDivision(s.files, s.data.fileName)
      ensures r == ScalarFields(s, now, SharedView())
    {
      var current := s.data;
      var lanks := Lankiness(s.files, current.fileName);
      if lanks.Failure? {
        return Failure(lanks.error);
      }
      var state := States.FromName(current.stateId);
      if state.None? {
        return Failure(UnknownState(current.stateId));
      }
      var success := false;
      if Active(current.fileName) {
        var last := LastJobSuccess(s.files, current.fileName.value);
        if last.Failure? {
          return Failure(last.error);
        }
        success := last.value;
      }
      r := Success(ScalarList(States.Code(state.value), success, lanks.value, s, now, SharedView()));
    }

    /** `__init__.py` lines 107-109: the three readings of one tool appended to the row, 0.0 for each
        when the tool is missing from the temperature map. */
    static method AppendToolFields(row: seq<Value>, temps: Temperatures, tool: nat) returns (extended: seq<Value>)
      ensures extended == row + HeaterFields(temps, ToolKey(tool))
    {
      var key := ToolKey(tool);
      extended := row + [Float(if key in temps then temps[key].actual else 0.0)];
      extended := extended + [Float(if key in temps then temps[key].target else 0.0)];
      extended := extended + [Float(if key in temps then temps[key].offset else 0.0)];
    }

    /** Builds the row of `acquire_samples` (`__init__.py` lines 77-110): the scalar fields, then three
        fields per extruder appended in a loop over `range(count)`. */
    method AssembleRow(s: Snapshot, now: real) returns (r: Result<Row, SampleError>)
      requires NoZeroDivision(s.files, s.data.fileName)
      ensures r == ExpectedRow(s, now, SharedView())
    {
      var scalars := ScalarRow(s, now);
      if scalars.Failure? {
        return Failure(scalars.error);
      }
      var row := AppendExtruders(scalars.value, s.temps, ExtruderCount(s.profile));
      ExpectedFromScalars(s, now, SharedView(), scalars.value);
      r := Success(row);
    }

    /** `__init__.py` lines 106-109: `for tool_num in range(count)`, three fields per tool. */
    static method AppendExtruders(scalars: seq<Value>, temps: Temperatures, count: nat) returns (row: seq<Value>)
      ensures row == scalars + ToolFields(temps, count)
    {
      row := scalars;
      var tool := 0;
      while tool < count
        invariant 0 <= tool <= count
        invariant row == scalars + ToolFields(temps, tool)
      {
        row := AppendToolFields(row, temps, tool);
        tool := tool + 1;
      }
    }

    /** `acquire_samples`: the assembled row is appended to the log; when assembling raises,
        nothing is appended. */
    method AcquireSamples(s: Snapshot, now: real) returns (r: Result<Row, SampleError>)
      requires NoZeroDivision(s.files, s.data.fileName)
      modifies samples
      ensures r == ExpectedRow(s, now, SharedView())
      ensures r.Success? ==> samples.rows == old(samples.rows) + [r.value]
      ensures r.Failure? ==> samples.rows == old(samples.rows)
    {
      r := AssembleRow(s, now);
      if r.Success? {
        var outcome := samples.AppendRow(ListArg(r.value));
      }
    }

    /** The write of `__init__.py` lines 213-215: every row of the log, in order, as one line of the file,
        replacing what the file held. */
    method Flush(ghost floatRepr: real -> string)
      modifies this`outputFile
      ensures outputFile == Serialise.Lines(samples.rows, floatRepr)
    {
      var rows := samples.rows;
      ghost var written: seq<string> := [];
      for i := 0 to |rows|
        invariant written == Serialise.Lines(rows[..i], floatRepr)
      {
        Serialise.LinesSnoc(rows, i, floatRepr);
        written := written + [Serialise.Line(rows[i], floatRepr)];
      }
      assert rows[..|rows|] == rows;
      outputFile := written;
    }

    /** `__init__.py` line 209: the sample just taken becomes the last one. */
    method RecordSample(now: real)
      requires Spaced() && SampleDue(now, lastTime, pluginStart)
      modifies this`lastTime, this`sampleTimes
      ensures Spaced() && lastTime == now && sampleTimes == old(sampleTimes) + [now]
    {
      lastTime := now;
      sampleTimes := sampleTimes + [now];
    }

    /** `__init__.py` lines 209-215, after a row was appended: the sample time is recorded and a log of
        more than five rows is written out whole. */
    method RecordAndFlush(now: real, ghost floatRepr: real -> string)
      requires Spaced() && SampleDue(now, lastTime, pluginStart)
      requires samplerAlive && |samples.rows| == |sampleTimes| + 2
      modifies this`lastTime, this`sampleTimes, this`outputFile
      ensures Valid() && lastTime == now && sampleTimes == old(sampleTimes) + [now]
      ensures outputFile == if |samples.rows| > FlushThreshold then Serialise.Lines(samples.rows, floatRepr)
                            else old(outputFile)
    {
      RecordSample(now);
      if |samples.rows| > FlushThreshold {
        Flush(floatRepr);
      }
    }

    /** One iteration of `_sampling` at time `now`. When the gate is open a row is acquired,
        `lastTime` becomes `now`, and a log of more than five rows is written out whole, one
        bracket-free line per row. Because the log also holds the startup row, the first
        write-out follows the fifth sample of the loop. An exception from the acquisition ends
        the thread. */
    method Tick(now: real, s: Snapshot, ghost floatRepr: real -> string)
      returns (outcome: TickOutcome, ghost row: Result<Row, SampleError>)
      requires Valid() && samplerAlive
      requires NoZeroDivision(s.files, s.data.fileName)
      modifies this`lastTime, this`samplerAlive, this`outputFile, this`sampleTimes, samples
      ensures Valid()
      ensures row == ExpectedRow(s, now, SharedView())
      ensures !SampleDue(now, old(lastTime), pluginStart) ==>
        outcome == Idle && samplerAlive && samples.rows == old(samples.rows) &&
        lastTime == old(lastTime) && sampleTimes == old(sampleTimes) && outputFile == old(outputFile)
      ensures SampleDue(now, old(lastTime), pluginStart) && row.Failure? ==>
        outcome == Crashed(row.error) && !samplerAlive && samples.rows == old(samples.rows) &&
        lastTime == old(lastTime) && sampleTimes == old(sampleTimes) && outputFile == old(outputFile)
      ensures SampleDue(now, old(lastTime), pluginStart) && row.Success? ==>
        outcome == Sampled && samplerAlive && samples.rows == old(samples.rows) + [row.value] &&
        lastTime == now && sampleTimes == old(sampleTimes) + [now] &&
        outputFile == if |samples.rows| > FlushThreshold then Serialise.Lines(samples.rows, floatRepr)
                      else old(outputFile)
      ensures outcome == Sampled ==> (|samples.rows| > FlushThreshold <==> |sampleTimes| >= FlushThreshold)
    {
      row := ExpectedRow(s, now, SharedView());
      if now - lastTime > Throttle && now - pluginStart > WarmUp {
        var acquired := AcquireSamples(s, now);
        if acquired.Failure? {
          samplerAlive := false;
          return Crashed(acquired.error), row;
        }
        RecordAndFlush(now, floatRepr);
        outcome := Sampled;
      } else {
        outcome := Idle;
      }
    }

    /** `on_event`: the transition of Lifecycle.Step, carried out on the plugin's fields. */
    method OnEvent(e: Lifecycle.Event, now: real)
      modifies this`inferencerRunning, this`commRunning, this`tickets, this`restarts,
               this`shutoffs, this`messages, this`filamentChangeTime, this`toolChangeTime
      ensures ControllerView() == Lifecycle.Step(old(ControllerView()), e, now)
    {
      if e == Lifecycle.PrintStarted {
        inferencerRunning := true;
        commRunning := false;
        tickets := tickets + 1;
        messages := messages + [Lifecycle.ResetPlot];
      } else if e == Lifecycle.PrintResumed {
        if triggered {
          restarts := restarts + 1;
        }
        inferencerRunning := true;
        commRunning := false;
      } else if Lifecycle.Halting(e) {
        if triggered {
          shutoffs := shutoffs + 1;
        }
        inferencerRunning := false;
        if e == Lifecycle.PrintPaused {
          commRunning := true;
        } else {
          commRunning := false;
          messages := messages + [Lifecycle.ResetPlot];
        }
      } else if e == Lifecycle.FilamentChange {
        filamentChangeTime := now;
      } else if e == Lifecycle.ToolChange {
        toolChangeTime := now;
      }
    }

    /** `on_settings_save`. */
    method OnSettingsSave()
      modifies this`cooldowns, this`messages
      ensures ControllerView() == Lifecycle.SettingsSaved(old(ControllerView()))
    {
      if warningNotification {
        cooldowns := cooldowns + 1;
      }
      messages := messages + [Lifecycle.OnSave];
    }

    /** `check_fr`: a G0-G3 command with an `F` sets the feedrate and M220 sets the feedrate
        percentage, each to `float()` of the text after the letter up to the next space (or,
        when none follows, up to but excluding the last character). `ok` is false when
        `float()` raised; the field then keeps its value. */
    method CheckFr(gcode: Option<string>, cmd: string, toFloat: string -> Option<real>) returns (ok: bool)
      modifies this`currentFeedrate, this`currentFeedratePercent
      ensures Gcode.IsMove(gcode) && Gcode.PyFind(cmd, 'F', 0) != -1 ==>
        var number := toFloat(Gcode.ParamText(cmd, 'F'));
        ok == number.Some? &&
        currentFeedrate == (if ok then number.value else old(currentFeedrate)) &&
        currentFeedratePercent == old(currentFeedratePercent)
      ensures Gcode.IsFeedratePercent(gcode) ==>
        var number := toFloat(Gcode.ParamText(cmd, 'S'));
        ok == number.Some? &&
        currentFeedratePercent == (if ok then number.value else old(currentFeedratePercent)) &&
        currentFeedrate == old(currentFeedrate)
      ensures !(Gcode.IsMove(gcode) && Gcode.PyFind(cmd, 'F', 0) != -1) && !Gcode.IsFeedratePercent(gcode) ==>
        ok && currentFeedrate == old(currentFeedrate) && currentFeedratePercent == old(currentFeedratePercent)
    {
      ok := true;
      if Gcode.IsMove(gcode) {
        var idx := Gcode.PyFind(cmd, 'F', 0);
        if idx != -1 {
          var idxEnd := Gcode.PyFind(cmd, ' ', idx);
          var number := toFloat(Gcode.PySlice(cmd, idx + 1, idxEnd));
          if number.None? {
            return false;
          }
          currentFeedrate := number.value;
        }
      }
      if Gcode.IsFeedratePercent(gcode) {
        var idx := Gcode.PyFind(cmd, 'S', 0);
        var idxEnd := Gcode.PyFind(cmd, ' ', idx);
        var number := toFloat(Gcode.PySlice(cmd, idx + 1, idxEnd));
        if number.None? {
          return false;
        }
        currentFeedratePercent := number.value;
      }
    }
  }
}
