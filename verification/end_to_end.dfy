/** How the compile side and the runtime worker fit together: every record
    the compile-side device can produce is accepted in full by the worker,
    and each channel ends up holding what was compiled for it. */
module EndToEnd {
  import opened Basics
  import opened Record
  import LabscriptDevice
  import BlacsWorker

  /** A compiled record carries, for each channel, values the worker's range
      checks accept. */
  lemma CompiledValuesAcceptable(d: LabscriptDevice.Windfreak, k: int)
    requires LabscriptDevice.Settled(d) && IsChannel(k)
    ensures Acceptable(Column(LabscriptDevice.GenerateCode(d), k))
  {
  }

  /** Entering buffered mode with the record of any device reachable through
      the setters succeeds on a two-channel synthesizer. Each channel then
      holds the frequency, phase and power compiled for it, as committed by
      the hardware. A sweep is armed exactly where one was set up, and the
      enables are left as they were. */
  lemma CompiledShotApplies(d: LabscriptDevice.Windfreak, w: BlacsWorker.WorkerState, hw: BlacsWorker.Hardware,
                            h5Path: string, initialValues: map<string, real>, isFresh: bool)
    requires LabscriptDevice.Settled(d) && |w.synth.channels| == 2
    ensures var r := BlacsWorker.TransitionToBuffered(w, hw, d.name, h5Path, LabscriptDevice.GenerateCode(d),
                                                      initialValues, isFresh);
            && r.result == Ok(map[])
            && |r.state.synth.channels| == 2
            && r.state.synth.referenceMode == w.synth.referenceMode
            && BlacsWorker.Applied(w.synth.channels[0], r.state.synth.channels[0], hw, 0, LabscriptDevice.View(d, 0))
            && BlacsWorker.Applied(w.synth.channels[1], r.state.synth.channels[1], hw, 1, LabscriptDevice.View(d, 1))
  {
    var rec := LabscriptDevice.GenerateCode(d);
    CompiledValuesAcceptable(d, 0);
    CompiledValuesAcceptable(d, 1);
    BlacsWorker.BufferedAppliesRecord(w, hw, d.name, h5Path, rec, initialValues, isFresh);
  }

  /** A channel compiled with a non-zero sweep flag is armed at run time
      from its sweep row, with the bounds and step converted from Hz to MHz. */
  lemma CompiledFlagArms(d: LabscriptDevice.Windfreak, k: int, w: BlacsWorker.WorkerState, hw: BlacsWorker.Hardware,
                         h5Path: string, initialValues: map<string, real>, isFresh: bool)
    requires LabscriptDevice.Settled(d) && IsChannel(k) && |w.synth.channels| == 2
    requires LabscriptDevice.View(d, k).sweep.flag != 0.0
    ensures var r := BlacsWorker.TransitionToBuffered(w, hw, d.name, h5Path, LabscriptDevice.GenerateCode(d),
                                                      initialValues, isFresh);
            && r.result.Ok?
            && |r.state.synth.channels| == 2
            && BlacsWorker.Armed(r.state.synth.channels[k], hw, k, Row(LabscriptDevice.View(d, k).sweep))
  {
    CompiledShotApplies(d, w, hw, h5Path, initialValues, isFresh);
  }

  /** A sweep set up at compile time is armed at run time from the row
      (start, stop, step, 1). */
  lemma CompiledSweepIsArmed(d: LabscriptDevice.Windfreak, k: int, start: real, stop: real, step: real,
                             w: BlacsWorker.WorkerState, hw: BlacsWorker.Hardware, h5Path: string,
                             initialValues: map<string, real>, isFresh: bool)
    requires LabscriptDevice.Settled(d) && IsChannel(k) && |w.synth.channels| == 2
    ensures var d' := LabscriptDevice.SetupSweep(d, k, start, stop, step);
            var r := BlacsWorker.TransitionToBuffered(w, hw, d'.name, h5Path, LabscriptDevice.GenerateCode(d'),
                                                      initialValues, isFresh);
            && r.result.Ok?
            && |r.state.synth.channels| == 2
            && BlacsWorker.Armed(r.state.synth.channels[k], hw, k, [start, stop, step, 1.0])
  {
    var d' := LabscriptDevice.SetupSweep(d, k, start, stop, step);
    assert Row(LabscriptDevice.View(d', k).sweep) == [start, stop, step, 1.0];
    CompiledFlagArms(d', k, w, hw, h5Path, initialValues, isFresh);
  }

  /** The example shot: channel 0 a static tone at 2.87475 GHz and 10 dBm,
      channel 1 at 5.401825 GHz and 8 dBm with a sweep from 5.401625 GHz to
      5.402026 GHz in 10 kHz steps. */
  function ExampleDevice(): LabscriptDevice.Windfreak {
    var d := LabscriptDevice.Init("windfreak", "COM3", LabscriptDevice.DefaultReferenceMode);
    var d := LabscriptDevice.SetFrequency(d, 0, 2_874_750_000.0).value;
    var d := LabscriptDevice.SetFrequency(d, 1, 5_401_825_000.0).value;
    var d := LabscriptDevice.SetPower(d, 0, 10.0).value;
    var d := LabscriptDevice.SetPower(d, 1, 8.0).value;
    LabscriptDevice.SetupSweep(d, 1, 5_401_625_000.0, 5_402_026_000.0, 10_000.0)
  }

  /** The example compiles to this record; setting a frequency has enabled
      both channels. */
  lemma ExampleRecord()
    ensures LabscriptDevice.GenerateCode(ExampleDevice()) == ShotRecord(
              [2_874_750_000.0, 5_401_825_000.0],
              [true, true],
              [0.0, 0.0],
              [10.0, 8.0],
              [[0.0, 0.0, 0.0, 0.0], [5_401_625_000.0, 5_402_026_000.0, 10_000.0, 1.0]])
  {
  }

  /** Running the example shot leaves channel 1 armed for a single-step
      sweep over its bounds in MHz, and channel 0's sweep configuration as
      it was before the shot (still armed, if an earlier shot armed it). */
  lemma ExampleShotArmsChannelOne(w: BlacsWorker.WorkerState, hw: BlacsWorker.Hardware, h5Path: string)
    requires |w.synth.channels| == 2
    ensures var r := BlacsWorker.TransitionToBuffered(w, hw, "windfreak", h5Path,
                                                      LabscriptDevice.GenerateCode(ExampleDevice()), map[], false);
            && r.result.Ok?
            && |r.state.synth.channels| == 2
            && var c0, c1 := r.state.synth.channels[0], r.state.synth.channels[1];
            && c0.frequency == hw.commit(0, BlacsWorker.Level(Frequency), 2_874_750_000.0)
            && c0.power == hw.commit(0, BlacsWorker.Level(Power), 10.0)
            && BlacsWorker.SameSweep(w.synth.channels[0], c0)
            && c1.frequency == hw.commit(1, BlacsWorker.Level(Frequency), 5_401_825_000.0)
            && c1.power == hw.commit(1, BlacsWorker.Level(Power), 8.0)
            && c1.sweepEnable
            && c1.triggerMode == "single frequency step"
            && c1.sweepLow == hw.commit(1, BlacsWorker.SweepLow, 5_401.625)
            && c1.sweepHigh == hw.commit(1, BlacsWorker.SweepHigh, 5_402.026)
            && c1.sweepStep == hw.commit(1, BlacsWorker.SweepStep, 0.01)
  {
    var d := ExampleDevice();
    ExampleRecord();
    assert LabscriptDevice.Settled(d);
    CompiledShotApplies(d, w, hw, h5Path, map[], false);
  }
}
