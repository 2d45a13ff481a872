/** The runtime worker that owns the serial connection to the synthesizer:
    the reference-mode check at start-up, the manual "set" commands with
    their range checks and read-back, the bulk application of a shot record
    when a buffered run is armed, and the lifecycle calls that always
    succeed.

    The synthesizer is an abstract register file, two channels plus a global
    reference mode. What the hardware actually stores for a written value
    (its quantisation) is not known here: it is the `Hardware` parameter,
    and every read-back returns whatever that parameter committed. */
module BlacsWorker {
  import opened Basics
  import opened Record

  /** The trigger mode `set_sweep` selects. */
  const SingleFrequencyStep: string := "single frequency step"

  const HzPerMHz: real := 1_000_000.0

  /** The per-channel registers of the synthesizer. */
  datatype Register =
    | Level(quantity: Quantity)   // frequency (Hz), power (dBm) or phase (degrees)
    | Enable
    | SweepEnable
    | TriggerMode
    | SweepLow                    // MHz
    | SweepHigh                   // MHz
    | SweepStep                   // MHz

  /** The value of a register, whatever its kind. */
  datatype Value = Num(x: real) | Bit(b: bool) | Text(s: string)

  datatype ChannelRegs = ChannelRegs(
    frequency: real,
    phase: real,
    power: real,
    enable: bool,
    sweepEnable: bool,
    triggerMode: string,
    sweepLow: real,
    sweepHigh: real,
    sweepStep: real)

  function Get(c: ChannelRegs, g: Register): Value {
    match g
    case Level(Frequency) => Num(c.frequency)
    case Level(Phase) => Num(c.phase)
    case Level(Power) => Num(c.power)
    case Enable => Bit(c.enable)
    case SweepEnable => Bit(c.sweepEnable)
    case TriggerMode => Text(c.triggerMode)
    case SweepLow => Num(c.sweepLow)
    case SweepHigh => Num(c.sweepHigh)
    case SweepStep => Num(c.sweepStep)
  }

  datatype Synth = Synth(channels: seq<ChannelRegs>, referenceMode: string)

  /** What the hardware commits when a value is written to a numeric
      register, and when an enable is written. Unknown to the driver. Both
      are total: no SDK call ever raises. */
  datatype Hardware = Hardware(commit: (int, Register, real) -> real, commitEnable: (int, bool) -> bool)

  /** The shot the worker was last asked to arm. */
  datatype ShotRef = ShotRef(deviceName: string, h5Path: string)

  datatype WorkerState = WorkerState(synth: Synth, shot: Option<ShotRef>)

  /** The state after an operation together with its outcome. A failed
      operation still yields a state, since writes made before the failure
      stay in the hardware. */
  datatype Step<T> = Step(state: WorkerState, result: Result<T>)

  /** Going from `s` to `s'` changed no register outside `allowed`, kept the
      channel count and left the reference mode alone. */
  ghost predicate OnlyTouches(s: Synth, s': Synth, allowed: set<(int, Register)>) {
    && |s'.channels| == |s.channels|
    && s'.referenceMode == s.referenceMode
    && forall k, g :: 0 <= k < |s.channels| && (k, g) !in allowed ==>
         Get(s'.channels[k], g) == Get(s.channels[k], g)
  }

  /** The frame is complete: touching no register means no change at all. */
  lemma NothingTouchedIsIdentity(s: Synth, s': Synth)
    requires OnlyTouches(s, s', {})
    ensures s' == s
  {
    forall k | 0 <= k < |s.channels|
      ensures s'.channels[k] == s.channels[k]
    {
      var a, b := s.channels[k], s'.channels[k];
      assert Get(b, Level(Frequency)) == Get(a, Level(Frequency));
      assert Get(b, Level(Phase)) == Get(a, Level(Phase));
      assert Get(b, Level(Power)) == Get(a, Level(Power));
      assert Get(b, Enable) == Get(a, Enable);
      assert Get(b, SweepEnable) == Get(a, SweepEnable);
      assert Get(b, TriggerMode) == Get(a, TriggerMode);
      assert Get(b, SweepLow) == Get(a, SweepLow);
      assert Get(b, SweepHigh) == Get(a, SweepHigh);
      assert Get(b, SweepStep) == Get(a, SweepStep);
    }
  }

  lemma OnlyTouchesWiden(a: Synth, b: Synth, A: set<(int, Register)>, B: set<(int, Register)>)
    requires OnlyTouches(a, b, A) && A <= B
    ensures OnlyTouches(a, b, B)
  {
  }

  /** A register outside the allowed set keeps its value. */
  lemma Untouched(s: Synth, s': Synth, allowed: set<(int, Register)>, k: int, g: Register)
    requires OnlyTouches(s, s', allowed) && 0 <= k < |s.channels| && (k, g) !in allowed
    ensures 0 <= k < |s'.channels| && Get(s'.channels[k], g) == Get(s.channels[k], g)
  {
  }

  /** Replaces the registers of channel `ch`. */
  function Put(w: WorkerState, ch: int, c: ChannelRegs): WorkerState
    requires 0 <= ch < |w.synth.channels|
  {
    w.(synth := w.synth.(channels := w.synth.channels[ch := c]))
  }

  /** `init`: selects the configured reference mode if the synthesizer
      supports it; otherwise start-up fails and the mode is never written. */
  function Init(synth: Synth, supported: set<string>, requested: string): (r: Step<()>)
    ensures r.result.Ok? <==> requested in supported
    ensures r.result.Err? ==> r.result.error == UnsupportedReferenceMode(requested) && r.state.synth == synth
    ensures r.result.Ok? ==> r.state.synth.referenceMode == requested
    ensures r.state.synth.channels == synth.channels
    ensures r.state.shot == None
  {
    if requested !in supported then
      Step(WorkerState(synth, None), Err(UnsupportedReferenceMode(requested)))
    else
      Step(WorkerState(synth.(referenceMode := requested), None), Ok(()))
  }

  /** Writes `v` to a channel's frequency, phase or power register after the
      range check, and returns the read-back. The range is checked first;
      nothing is written unless both checks pass. */
  function SetLevel(w: WorkerState, hw: Hardware, q: Quantity, ch: int, v: real): (r: Step<real>)
    ensures OnlyTouches(w.synth, r.state.synth, {(ch, Level(q))})
    ensures r.result.Ok? <==> InRange(q, v) && 0 <= ch < |w.synth.channels|
    ensures !InRange(q, v) ==> r.result == Err(OutOfRange(q, v))
    ensures InRange(q, v) && !(0 <= ch < |w.synth.channels|) ==> r.result == Err(NoSuchChannel(ch))
    ensures r.result.Err? ==> r.state == w
    ensures r.result.Ok? ==>
              && r.result.value == hw.commit(ch, Level(q), v)
              && Get(r.state.synth.channels[ch], Level(q)) == Num(r.result.value)
    ensures r.state.shot == w.shot
  {
    if !InRange(q, v) then Step(w, Err(OutOfRange(q, v)))
    else if !(0 <= ch < |w.synth.channels|) then Step(w, Err(NoSuchChannel(ch)))
    else
      var c := w.synth.channels[ch];
      var x := hw.commit(ch, Level(q), v);
      var c' := match q
        case Frequency => c.(frequency := x)
        case Phase => c.(phase := x)
        case Power => c.(power := x);
      Step(Put(w, ch, c'), Ok(x))
  }

  /** `set_frequency`: accepts 10 MHz to 15 GHz inclusive, writes the value
      and returns the frequency the synthesizer reports back. */
  function SetFrequency(w: WorkerState, hw: Hardware, ch: int, f: real): (r: Step<real>)
    ensures OnlyTouches(w.synth, r.state.synth, {(ch, Level(Frequency))})
    ensures r.result.Ok? <==> 10_000_000.0 <= f <= 15_000_000_000.0 && 0 <= ch < |w.synth.channels|
    ensures r.result.Err? ==> r.state == w
    ensures r.result.Ok? ==>
              r.result.value == r.state.synth.channels[ch].frequency == hw.commit(ch, Level(Frequency), f)
  {
    SetLevel(w, hw, Frequency, ch, f)
  }

  /** `set_power`: accepts -70 to 20 dBm inclusive. */
  function SetPower(w: WorkerState, hw: Hardware, ch: int, p: real): (r: Step<real>)
    ensures OnlyTouches(w.synth, r.state.synth, {(ch, Level(Power))})
    ensures r.result.Ok? <==> -70.0 <= p <= 20.0 && 0 <= ch < |w.synth.channels|
    ensures r.result.Err? ==> r.state == w
    ensures r.result.Ok? ==>
              r.result.value == r.state.synth.channels[ch].power == hw.commit(ch, Level(Power), p)
  {
    SetLevel(w, hw, Power, ch, p)
  }

  /** `set_phase`: accepts 0 to 360 degrees inclusive. */
  function SetPhase(w: WorkerState, hw: Hardware, ch: int, d: real): (r: Step<real>)
    ensures OnlyTouches(w.synth, r.state.synth, {(ch, Level(Phase))})
    ensures r.result.Ok? <==> 0.0 <= d <= 360.0 && 0 <= ch < |w.synth.channels|
    ensures r.result.Err? ==> r.state == w
    ensures r.result.Ok? ==>
              r.result.value == r.state.synth.channels[ch].phase == hw.commit(ch, Level(Phase), d)
  {
    SetLevel(w, hw, Phase, ch, d)
  }

  /** `set_enable`: no validation; writes the enable and returns the
      output state the synthesizer reports back. */
  function SetEnable(w: WorkerState, hw: Hardware, ch: int, e: bool): (r: Step<bool>)
    ensures OnlyTouches(w.synth, r.state.synth, {(ch, Enable)})
    ensures r.result.Ok? <==> 0 <= ch < |w.synth.channels|
    ensures r.result.Err? ==> r.result.error == NoSuchChannel(ch) && r.state == w
    ensures r.result.Ok? ==>
              r.result.value == r.state.synth.channels[ch].enable == hw.commitEnable(ch, e)
    ensures r.state.shot == w.shot
  {
    if !(0 <= ch < |w.synth.channels|) then Step(w, Err(NoSuchChannel(ch)))
    else
      var x := hw.commitEnable(ch, e);
      Step(Put(w, ch, w.synth.channels[ch].(enable := x)), Ok(x))
  }

  /** Hz to the MHz the sweep registers take. */
  function ToMHz(hz: real): (mhz: real)
    ensures mhz * HzPerMHz == hz
  {
    hz / HzPerMHz
  }

  /** The registers arming a sweep writes on channel `ch`. */
  function SweepRegisters(ch: int): set<(int, Register)> {
    {(ch, SweepEnable), (ch, TriggerMode), (ch, SweepLow), (ch, SweepHigh), (ch, SweepStep)}
  }

  /** The sweep configuration, trigger mode included, is the same in both. */
  predicate SameSweep(before: ChannelRegs, after: ChannelRegs) {
    && after.sweepEnable == before.sweepEnable
    && after.triggerMode == before.triggerMode
    && after.sweepLow == before.sweepLow
    && after.sweepHigh == before.sweepHigh
    && after.sweepStep == before.sweepStep
  }

  /** Channel registers `c` hold a single-step sweep armed from `row`
      = (start, stop, step, flag) in Hz. */
  ghost predicate Armed(c: ChannelRegs, hw: Hardware, ch: int, row: seq<real>)
    requires |row| == 4
  {
    && c.sweepEnable
    && c.triggerMode == SingleFrequencyStep
    && c.sweepLow == hw.commit(ch, SweepLow, ToMHz(row[0]))
    && c.sweepHigh == hw.commit(ch, SweepHigh, ToMHz(row[1]))
    && c.sweepStep == hw.commit(ch, SweepStep, ToMHz(row[2]))
  }

  /** `set_sweep`: unpacks the row (which must have exactly four entries),
      then enables sweeping in single-step trigger mode with the bounds and
      step converted to MHz. Nothing is range-checked and the row's fourth
      entry is not used. */
  function SetSweep(w: WorkerState, hw: Hardware, ch: int, row: seq<real>): (r: Step<()>)
    ensures OnlyTouches(w.synth, r.state.synth, SweepRegisters(ch))
    ensures r.result.Ok? <==> |row| == 4 && 0 <= ch < |w.synth.channels|
    ensures |row| != 4 ==> r.result == Err(MalformedRecord)
    ensures |row| == 4 && !(0 <= ch < |w.synth.channels|) ==> r.result == Err(NoSuchChannel(ch))
    ensures r.result.Err? ==> r.state == w
    ensures r.result.Ok? ==> Armed(r.state.synth.channels[ch], hw, ch, row)
    ensures r.state.shot == w.shot
  {
    if |row| != 4 then Step(w, Err(MalformedRecord))
    else if !(0 <= ch < |w.synth.channels|) then Step(w, Err(NoSuchChannel(ch)))
    else
      var c := w.synth.channels[ch];
      var c' := c.(sweepEnable := true,
                   triggerMode := SingleFrequencyStep,
                   sweepLow := hw.commit(ch, SweepLow, ToMHz(row[0])),
                   sweepHigh := hw.commit(ch, SweepHigh, ToMHz(row[1])),
                   sweepStep := hw.commit(ch, SweepStep, ToMHz(row[2])));
      Step(Put(w, ch, c'), Ok(()))
  }

  /** The flag in a row does not influence what arming writes. */
  lemma SetSweepIgnoresFlag(w: WorkerState, hw: Hardware, ch: int, row: seq<real>, flag: real)
    requires |row| == 4
    ensures SetSweep(w, hw, ch, row[3 := flag]) == SetSweep(w, hw, ch, row)
  {
  }

  /** `program_manual`: front-panel values are not forwarded; no coerced
      values are reported and no register changes. */
  function ProgramManual(w: WorkerState, frontPanel: map<string, real>): (r: Step<map<string, real>>)
    ensures r.state == w && r.result == Ok(map[])
  {
    Step(w, Ok(map[]))
  }

  /** `transition_to_manual`: reports success and restores nothing. */
  function TransitionToManual(w: WorkerState): (r: (WorkerState, bool))
    ensures r.0 == w && r.1
  {
    (w, true)
  }

  /** `abort_transition_to_buffered`: reports success and changes nothing. */
  function AbortTransitionToBuffered(w: WorkerState): (r: (WorkerState, bool))
    ensures r.0 == w && r.1
  {
    (w, true)
  }

  /** `abort_buffered`: reports success and changes nothing. */
  function AbortBuffered(w: WorkerState): (r: (WorkerState, bool))
    ensures r.0 == w && r.1
  {
    (w, true)
  }

  // ---------------------------------------------------------------------
  // Applying a shot record

  /** One hardware command of a buffered-mode entry. A `Write` reads its
      value out of a record array when it runs, so a short array fails at
      that command and not before. */
  datatype Action =
    | Write(quantity: Quantity, channel: int, column: seq<real>)
    | Arm(channel: int, row: seq<real>)

  /** Why `a` fails on a synthesizer with `n` channels, if it does. This
      does not depend on any register, only on the channel count. */
  function Rejection(n: int, a: Action): Option<Error> {
    match a
    case Write(q, ch, column) =>
      if !(0 <= ch < |column|) then Some(MalformedRecord)
      else if !InRange(q, column[ch]) then Some(OutOfRange(q, column[ch]))
      else if !(0 <= ch < n) then Some(NoSuchChannel(ch))
      else None
    case Arm(ch, row) =>
      if |row| != 4 then Some(MalformedRecord)
      else if !(0 <= ch < n) then Some(NoSuchChannel(ch))
      else None
  }

  /** The registers `a` may write. */
  function Footprint(a: Action): set<(int, Register)> {
    match a
    case Write(q, ch, _) => {(ch, Level(q))}
    case Arm(ch, _) => SweepRegisters(ch)
  }

  /** The record entries `a` reads are present. */
  predicate Readable(a: Action) {
    match a
    case Write(_, ch, column) => 0 <= ch < |column|
    case Arm(_, row) => |row| == 4
  }

  /** The value `a` leaves in register `g` of its channel. */
  function Effect(hw: Hardware, a: Action, g: Register): Value
    requires Readable(a)
  {
    match a
    case Write(q, ch, column) => Num(hw.commit(ch, Level(q), column[ch]))
    case Arm(ch, row) =>
      match g
      case SweepEnable => Bit(true)
      case TriggerMode => Text(SingleFrequencyStep)
      case SweepLow => Num(hw.commit(ch, SweepLow, ToMHz(row[0])))
      case SweepHigh => Num(hw.commit(ch, SweepHigh, ToMHz(row[1])))
      case _ => Num(hw.commit(ch, SweepStep, ToMHz(row[2])))
  }

  /** Runs one command. */
  function Exec(w: WorkerState, hw: Hardware, a: Action): (r: Step<()>)
    ensures OnlyTouches(w.synth, r.state.synth, Footprint(a))
    ensures r.result.Ok? <==> Rejection(|w.synth.channels|, a).None?
    ensures r.result.Err? ==> r.result.error == Rejection(|w.synth.channels|, a).value && r.state == w
    ensures r.state.shot == w.shot
    ensures r.result.Ok? ==> forall k, g | (k, g) in Footprint(a) ::
              k == a.channel && 0 <= k < |w.synth.channels| &&
              Get(r.state.synth.channels[k], g) == Effect(hw, a, g)
  {
    match a
    case Write(q, ch, column) =>
      if !(0 <= ch < |column|) then Step(w, Err(MalformedRecord))
      else
        var s := SetLevel(w, hw, q, ch, column[ch]);
        Step(s.state, if s.result.Ok? then Ok(()) else Err(s.result.error))
    case Arm(ch, row) => SetSweep(w, hw, ch, row)
  }

  /** Every register a sequence of commands may write. */
  function PlanFootprint(plan: seq<Action>): (fp: set<(int, Register)>)
    ensures forall i | 0 <= i < |plan| :: Footprint(plan[i]) <= fp
  {
    if plan == [] then {} else Footprint(plan[0]) + PlanFootprint(plan[1..])
  }

  /** Runs commands in order and stops at the first one that fails. There is
      no rollback: whatever the earlier commands wrote stays written. */
  function Run(w: WorkerState, hw: Hardware, plan: seq<Action>): (r: Step<()>)
    ensures OnlyTouches(w.synth, r.state.synth, PlanFootprint(plan))
    ensures r.state.shot == w.shot
    ensures r.result.Ok? <==> forall i | 0 <= i < |plan| :: Rejection(|w.synth.channels|, plan[i]).None?
    decreases |plan|
  {
    if plan == [] then Step(w, Ok(()))
    else
      var s := Exec(w, hw, plan[0]);
      if s.result.Err? then s else Run(s.state, hw, plan[1..])
  }

  /** The first rejected command decides the outcome: the run fails with its
      error, in the state the commands before it produced. */
  lemma {:induction false} RunStopsAtFirstRejection(w: WorkerState, hw: Hardware, plan: seq<Action>, i: int)
    requires 0 <= i < |plan|
    requires forall j | 0 <= j < i :: Rejection(|w.synth.channels|, plan[j]).None?
    requires Rejection(|w.synth.channels|, plan[i]).Some?
    ensures Run(w, hw, plan) == Step(Run(w, hw, plan[..i]).state, Err(Rejection(|w.synth.channels|, plan[i]).value))
    decreases i
  {
    if i == 0 {
      assert plan[..0] == [];
    } else {
      var s := Exec(w, hw, plan[0]);
      assert Rejection(|w.synth.channels|, plan[0]).None?;
      RunStopsAtFirstRejection(s.state, hw, plan[1..], i - 1);
      assert plan[..i][0] == plan[0];
      assert plan[..i][1..] == plan[1..][..i - 1];
    }
  }

  /** A register no single command writes is outside the plan's footprint. */
  lemma {:induction false} OutsidePlanFootprint(plan: seq<Action>, x: (int, Register))
    requires forall j | 0 <= j < |plan| :: x !in Footprint(plan[j])
    ensures x !in PlanFootprint(plan)
  {
    if plan != [] {
      assert x !in Footprint(plan[0]);
      forall j | 0 <= j < |plan[1..]|
        ensures x !in Footprint(plan[1..][j])
      {
        assert plan[1..][j] == plan[j + 1];
      }
      OutsidePlanFootprint(plan[1..], x);
    }
  }

  /** A bound on every command's footprint bounds the plan's. */
  lemma {:induction false} PlanFootprintWithin(plan: seq<Action>, fp: set<(int, Register)>)
    requires forall j | 0 <= j < |plan| :: Footprint(plan[j]) <= fp
    ensures PlanFootprint(plan) <= fp
  {
    if plan != [] {
      forall j | 0 <= j < |plan[1..]|
        ensures Footprint(plan[1..][j]) <= fp
      {
        assert plan[1..][j] == plan[j + 1];
      }
      PlanFootprintWithin(plan[1..], fp);
    }
  }

  /** A register no command of the plan writes keeps its value. */
  lemma {:induction false} RunFrame(w: WorkerState, hw: Hardware, plan: seq<Action>, k: int, g: Register)
    requires 0 <= k < |w.synth.channels|
    requires forall j | 0 <= j < |plan| :: (k, g) !in Footprint(plan[j])
    ensures |Run(w, hw, plan).state.synth.channels| == |w.synth.channels|
    ensures Get(Run(w, hw, plan).state.synth.channels[k], g) == Get(w.synth.channels[k], g)
  {
    OutsidePlanFootprint(plan, (k, g));
  }

  /** After a successful run, a register holds what the last command that
      writes it put there. */
  lemma {:induction false} RunEffects(w: WorkerState, hw: Hardware, plan: seq<Action>, i: int, k: int, g: Register)
    requires Run(w, hw, plan).result.Ok?
    requires 0 <= i < |plan| && (k, g) in Footprint(plan[i])
    requires forall j | i < j < |plan| :: (k, g) !in Footprint(plan[j])
    ensures Readable(plan[i]) && 0 <= k < |Run(w, hw, plan).state.synth.channels|
    ensures Get(Run(w, hw, plan).state.synth.channels[k], g) == Effect(hw, plan[i], g)
    decreases |plan|
  {
    var s := Exec(w, hw, plan[0]);
    var rest := plan[1..];
    assert Rejection(|w.synth.channels|, plan[0]).None?;
    assert Run(w, hw, plan) == Run(s.state, hw, rest);
    forall j | i - 1 < j < |rest|
      ensures (k, g) !in Footprint(rest[j])
    {
      assert rest[j] == plan[j + 1];
    }
    if i == 0 {
      assert Get(s.state.synth.channels[k], g) == Effect(hw, plan[0], g);
      RunFrame(s.state, hw, rest, k, g);
    } else {
      assert rest[i - 1] == plan[i];
      RunEffects(s.state, hw, rest, i - 1, k, g);
    }
  }

  /** The sweep-enable flags, the last entry of each channel's sweep row.
      They are read before anything is written. */
  function SweepFlags(rec: ShotRecord): Option<(real, real)> {
    match (PyIndex(rec.sweep, 0), PyIndex(rec.sweep, 1))
    case (Some(row0), Some(row1)) =>
      (match (PyIndex(row0, -1), PyIndex(row1, -1))
       case (Some(f0), Some(f1)) => Some((f0, f1))
       case _ => None)
    case _ => None
  }

  /** The commands of a buffered-mode entry, in the order they are issued:
      both frequencies, both phases, both powers, then a sweep on each
      channel whose flag is non-zero. */
  function BufferedPlan(rec: ShotRecord, f0: real, f1: real): seq<Action>
    requires |rec.sweep| >= 2
  {
    LevelWrites(rec) + SweepArms(rec, f0, f1)
  }

  function LevelWrites(rec: ShotRecord): seq<Action> {
    [ Write(Frequency, 0, rec.frequency), Write(Frequency, 1, rec.frequency),
      Write(Phase, 0, rec.phase), Write(Phase, 1, rec.phase),
      Write(Power, 0, rec.power), Write(Power, 1, rec.power) ]
  }

  function SweepArms(rec: ShotRecord, f0: real, f1: real): (arms: seq<Action>)
    requires |rec.sweep| >= 2
    ensures forall j | 0 <= j < |arms| ::
              && arms[j].Arm?
              && IsChannel(arms[j].channel)
              && arms[j].row == rec.sweep[arms[j].channel]
              && (if arms[j].channel == 0 then f0 else f1) != 0.0
    ensures forall i, j | 0 <= i < j < |arms| :: arms[i].channel < arms[j].channel
    ensures f0 != 0.0 ==> |arms| > 0 && arms[0].channel == 0
    ensures f1 != 0.0 ==> |arms| > 0 && arms[|arms| - 1].channel == 1
  {
    (if f0 != 0.0 then [Arm(0, rec.sweep[0])] else [])
    + (if f1 != 0.0 then [Arm(1, rec.sweep[1])] else [])
  }

  /** The registers a buffered-mode entry may change: frequency, phase and
      power of both channels, and the sweep registers of each channel whose
      flag is non-zero. Never an enable. */
  function BufferedFootprint(f0: real, f1: real): set<(int, Register)> {
    {(0, Level(Frequency)), (1, Level(Frequency)), (0, Level(Phase)), (1, Level(Phase)),
     (0, Level(Power)), (1, Level(Power))}
    + (if f0 != 0.0 then SweepRegisters(0) else {})
    + (if f1 != 0.0 then SweepRegisters(1) else {})
  }

  /** The buffered plan stays within the buffered footprint. */
  lemma BufferedPlanFootprint(rec: ShotRecord, f0: real, f1: real)
    requires |rec.sweep| >= 2
    ensures PlanFootprint(BufferedPlan(rec, f0, f1)) <= BufferedFootprint(f0, f1)
  {
    var plan := BufferedPlan(rec, f0, f1);
    forall i | 0 <= i < |plan|
      ensures Footprint(plan[i]) <= BufferedFootprint(f0, f1)
    {
    }
    PlanFootprintWithin(plan, BufferedFootprint(f0, f1));
  }

  /** `transition_to_buffered`: remembers the shot, reads the sweep flags,
      then issues the commands of `BufferedPlan`. The record's enable array
      is never read, and the front-panel values and the `fresh` flag (`isFresh`) are
      not used. Reports an empty map of final values. */
  function TransitionToBuffered(w: WorkerState, hw: Hardware, deviceName: string, h5Path: string,
                                rec: ShotRecord, initialValues: map<string, real>, isFresh: bool): (r: Step<map<string, real>>)
    ensures r.state.shot == Some(ShotRef(deviceName, h5Path))
    ensures r.result.Ok? ==> r.result.value == map[]
    ensures SweepFlags(rec).None? ==> r.result == Err(MalformedRecord) && r.state.synth == w.synth
    ensures SweepFlags(rec).Some? ==>
              OnlyTouches(w.synth, r.state.synth, BufferedFootprint(SweepFlags(rec).value.0, SweepFlags(rec).value.1))
  {
    var w1 := w.(shot := Some(ShotRef(deviceName, h5Path)));
    match SweepFlags(rec)
    case None => Step(w1, Err(MalformedRecord))
    case Some((f0, f1)) =>
      var plan := BufferedPlan(rec, f0, f1);
      var s := Run(w1, hw, plan);
      BufferedPlanFootprint(rec, f0, f1);
      Step(s.state, if s.result.Ok? then Ok(map[]) else Err(s.result.error))
  }

  /** The record array holding quantity `q`, indexed by channel. */
  function LevelArray(rec: ShotRecord, q: Quantity): seq<real> {
    match q
    case Frequency => rec.frequency
    case Phase => rec.phase
    case Power => rec.power
  }

  /** Channel registers went from `before` to `after` by applying the record
      column `c`: each level holds what the hardware committed for the
      record's value, the enable is untouched, and the sweep is armed from
      the record's row exactly when its flag is non-zero; otherwise the
      sweep registers and the trigger mode are untouched. */
  ghost predicate Applied(before: ChannelRegs, after: ChannelRegs, hw: Hardware, k: int, c: ChannelSettings) {
    && after.frequency == hw.commit(k, Level(Frequency), c.frequency)
    && after.phase == hw.commit(k, Level(Phase), c.phase)
    && after.power == hw.commit(k, Level(Power), c.power)
    && after.enable == before.enable
    && if c.sweep.flag != 0.0 then Armed(after, hw, k, Row(c.sweep))
       else SameSweep(before, after)
  }

  /** Every command of the buffered plan is accepted when the record is
      well shaped, its values are in range and there are two channels. */
  lemma BufferedAccepted(rec: ShotRecord, f0: real, f1: real)
    requires WellShaped(rec) && Acceptable(Column(rec, 0)) && Acceptable(Column(rec, 1))
    ensures forall i | 0 <= i < |BufferedPlan(rec, f0, f1)| :: Rejection(2, BufferedPlan(rec, f0, f1)[i]).None?
  {
  }

  /** Where in the buffered plan the level `q` of channel `k` is written;
      nothing later writes it again. */
  lemma LevelWriteAt(rec: ShotRecord, f0: real, f1: real, q: Quantity, k: int) returns (i: int)
    requires |rec.sweep| >= 2 && IsChannel(k)
    ensures 0 <= i < |BufferedPlan(rec, f0, f1)|
    ensures BufferedPlan(rec, f0, f1)[i] == Write(q, k, LevelArray(rec, q))
    ensures forall j | i < j < |BufferedPlan(rec, f0, f1)| :: (k, Level(q)) !in Footprint(BufferedPlan(rec, f0, f1)[j])
  {
    var plan, levels, arms := BufferedPlan(rec, f0, f1), LevelWrites(rec), SweepArms(rec, f0, f1);
    i := LevelSlot(rec, q, k);
    assert plan[i] == levels[i];
    forall j | i < j < 6
      ensures (k, Level(q)) !in Footprint(plan[j])
    {
      assert plan[j] == levels[j];
    }
    forall j | 6 <= j < |plan|
      ensures (k, Level(q)) !in Footprint(plan[j])
    {
      assert plan[j] == arms[j - 6];
    }
  }

  /** Where among the six level writes the level `q` of channel `k` is
      written; no later level write touches it. */
  lemma LevelSlot(rec: ShotRecord, q: Quantity, k: int) returns (i: int)
    requires IsChannel(k)
    ensures 0 <= i < 6 && LevelWrites(rec)[i] == Write(q, k, LevelArray(rec, q))
    ensures forall j | i < j < 6 :: LevelWrites(rec)[j].quantity != q || LevelWrites(rec)[j].channel != k
  {
    match q
    case Frequency => i := k;
    case Phase => i := 2 + k;
    case Power => i := 4 + k;
  }

  /** Where in the buffered plan channel `k`'s sweep is armed when its flag
      is non-zero; nothing later touches that channel's sweep registers. */
  lemma ArmAt(rec: ShotRecord, f0: real, f1: real, k: int) returns (i: int)
    requires |rec.sweep| >= 2 && IsChannel(k) && (if k == 0 then f0 else f1) != 0.0
    ensures 0 <= i < |BufferedPlan(rec, f0, f1)|
    ensures BufferedPlan(rec, f0, f1)[i] == Arm(k, rec.sweep[k])
    ensures forall j, g | i < j < |BufferedPlan(rec, f0, f1)| :: (k, g) !in Footprint(BufferedPlan(rec, f0, f1)[j])
  {
    var plan, arms := BufferedPlan(rec, f0, f1), SweepArms(rec, f0, f1);
    var idx := if k == 0 then 0 else |arms| - 1;
    i := 6 + idx;
    assert plan[i] == arms[idx];
    forall j, g | i < j < |plan|
      ensures (k, g) !in Footprint(plan[j])
    {
      assert plan[j] == arms[j - 6];
    }
  }

  /** After a successful run of the buffered plan, the level `q` of channel
      `k` holds what the hardware committed for the record's value. */
  lemma BufferedLevel(w: WorkerState, hw: Hardware, rec: ShotRecord, f0: real, f1: real, q: Quantity, k: int)
    requires |rec.sweep| >= 2 && IsChannel(k)
    requires Run(w, hw, BufferedPlan(rec, f0, f1)).result.Ok?
    ensures var s := Run(w, hw, BufferedPlan(rec, f0, f1)).state;
            && 0 <= k < |s.synth.channels|
            && 0 <= k < |LevelArray(rec, q)|
            && Get(s.synth.channels[k], Level(q)) == Num(hw.commit(k, Level(q), LevelArray(rec, q)[k]))
  {
    var i := LevelWriteAt(rec, f0, f1, q, k);
    RunEffects(w, hw, BufferedPlan(rec, f0, f1), i, k, Level(q));
  }

  /** After a successful run of the buffered plan, a channel whose flag is
      non-zero holds a sweep armed from its row of the record. */
  lemma BufferedSweepArmed(w: WorkerState, hw: Hardware, rec: ShotRecord, f0: real, f1: real, k: int)
    requires |rec.sweep| >= 2 && IsChannel(k) && (if k == 0 then f0 else f1) != 0.0
    requires Run(w, hw, BufferedPlan(rec, f0, f1)).result.Ok?
    ensures var s := Run(w, hw, BufferedPlan(rec, f0, f1)).state;
            && 0 <= k < |s.synth.channels|
            && |rec.sweep[k]| == 4
            && Armed(s.synth.channels[k], hw, k, rec.sweep[k])
  {
    var plan := BufferedPlan(rec, f0, f1);
    var i := ArmAt(rec, f0, f1, k);
    RunEffects(w, hw, plan, i, k, SweepEnable);
    var c := Run(w, hw, plan).state.synth.channels[k];
    forall g | (k, g) in Footprint(plan[i])
      ensures Get(c, g) == Effect(hw, plan[i], g)
    {
      RunEffects(w, hw, plan, i, k, g);
    }
    ArmEffects(c, hw, plan[i]);
  }

  /** Registers that agree with every effect of an `Arm` hold its sweep. */
  lemma ArmEffects(c: ChannelRegs, hw: Hardware, a: Action)
    requires a.Arm? && Readable(a)
    requires forall g | (a.channel, g) in Footprint(a) :: Get(c, g) == Effect(hw, a, g)
    ensures |a.row| == 4 && Armed(c, hw, a.channel, a.row)
  {
    assert (a.channel, SweepEnable) in Footprint(a);
    assert (a.channel, TriggerMode) in Footprint(a);
    assert (a.channel, SweepLow) in Footprint(a);
    assert (a.channel, SweepHigh) in Footprint(a);
    assert (a.channel, SweepStep) in Footprint(a);
  }

  /** Enables are never in the buffered footprint, nor are the sweep
      registers of a channel whose flag is zero. */
  lemma OutsideBufferedFootprint(f0: real, f1: real, k: int, g: Register)
    requires IsChannel(k)
    requires g == Enable || ((if k == 0 then f0 else f1) == 0.0 && !g.Level?)
    ensures (k, g) !in BufferedFootprint(f0, f1)
  {
  }

  /** Whatever its outcome, the buffered plan leaves every enable alone, and
      the sweep registers of a channel whose flag is zero. */
  lemma BufferedUntouched(w: WorkerState, hw: Hardware, rec: ShotRecord, f0: real, f1: real, k: int)
    requires |rec.sweep| >= 2 && 0 <= k < |w.synth.channels| && IsChannel(k)
    ensures var s := Run(w, hw, BufferedPlan(rec, f0, f1)).state;
            && |s.synth.channels| == |w.synth.channels|
            && var before, after := w.synth.channels[k], s.synth.channels[k];
            && after.enable == before.enable
            && ((if k == 0 then f0 else f1) == 0.0 ==> SameSweep(before, after))
  {
    var plan := BufferedPlan(rec, f0, f1);
    var fp := BufferedFootprint(f0, f1);
    var s := Run(w, hw, plan).state;
    BufferedPlanFootprint(rec, f0, f1);
    OnlyTouchesWiden(w.synth, s.synth, PlanFootprint(plan), fp);
    OutsideBufferedFootprint(f0, f1, k, Enable);
    Untouched(w.synth, s.synth, fp, k, Enable);
    if (if k == 0 then f0 else f1) == 0.0 {
      OutsideBufferedFootprint(f0, f1, k, SweepEnable);
      OutsideBufferedFootprint(f0, f1, k, TriggerMode);
      OutsideBufferedFootprint(f0, f1, k, SweepLow);
      OutsideBufferedFootprint(f0, f1, k, SweepHigh);
      OutsideBufferedFootprint(f0, f1, k, SweepStep);
      SweepFrame(w.synth, s.synth, fp, k);
    }
  }

  /** A channel whose sweep registers are all outside the allowed set keeps
      its whole sweep configuration. */
  lemma SweepFrame(s: Synth, s': Synth, allowed: set<(int, Register)>, k: int)
    requires OnlyTouches(s, s', allowed) && 0 <= k < |s.channels|
    requires (k, SweepEnable) !in allowed && (k, TriggerMode) !in allowed
    requires (k, SweepLow) !in allowed && (k, SweepHigh) !in allowed && (k, SweepStep) !in allowed
    ensures 0 <= k < |s'.channels|
    ensures SameSweep(s.channels[k], s'.channels[k])
  {
  }

  /** The registers of channel `k` after the buffered plan runs for a
      well-shaped record whose values are in range. */
  lemma BufferedChannel(w: WorkerState, hw: Hardware, rec: ShotRecord, k: int)
    requires WellShaped(rec) && |w.synth.channels| == 2 && IsChannel(k)
    requires Acceptable(Column(rec, 0)) && Acceptable(Column(rec, 1))
    ensures var s := Run(w, hw, BufferedPlan(rec, rec.sweep[0][3], rec.sweep[1][3]));
            && s.result.Ok?
            && |s.state.synth.channels| == 2
            && Applied(w.synth.channels[k], s.state.synth.channels[k], hw, k, Column(rec, k))
  {
    var f0, f1 := rec.sweep[0][3], rec.sweep[1][3];
    BufferedAccepted(rec, f0, f1);
    BufferedLevel(w, hw, rec, f0, f1, Frequency, k);
    BufferedLevel(w, hw, rec, f0, f1, Phase, k);
    BufferedLevel(w, hw, rec, f0, f1, Power, k);
    BufferedUntouched(w, hw, rec, f0, f1, k);
    if (if k == 0 then f0 else f1) != 0.0 {
      BufferedSweepArmed(w, hw, rec, f0, f1, k);
    }
    assert Row(Column(rec, k).sweep) == rec.sweep[k];
  }

  /** Entering buffered mode with a well-shaped record whose values are all
      in range succeeds on a two-channel synthesizer and leaves each channel
      holding its column of the record, with a sweep armed exactly on the
      channels whose flag is non-zero. */
  lemma BufferedAppliesRecord(w: WorkerState, hw: Hardware, deviceName: string, h5Path: string,
                              rec: ShotRecord, initialValues: map<string, real>, isFresh: bool)
    requires WellShaped(rec) && |w.synth.channels| == 2
    requires Acceptable(Column(rec, 0)) && Acceptable(Column(rec, 1))
    ensures var r := TransitionToBuffered(w, hw, deviceName, h5Path, rec, initialValues, isFresh);
            && r.result == Ok(map[])
            && |r.state.synth.channels| == 2
            && r.state.synth.referenceMode == w.synth.referenceMode
            && Applied(w.synth.channels[0], r.state.synth.channels[0], hw, 0, Column(rec, 0))
            && Applied(w.synth.channels[1], r.state.synth.channels[1], hw, 1, Column(rec, 1))
  {
    assert SweepFlags(rec) == Some((rec.sweep[0][3], rec.sweep[1][3]));
    var w1 := w.(shot := Some(ShotRef(deviceName, h5Path)));
    BufferedChannel(w1, hw, rec, 0);
    BufferedChannel(w1, hw, rec, 1);
  }

  /** There is no rollback. With both frequencies in range and channel 0's
      phase out of range, the run fails on that phase. The two frequencies
      written before it stay written, and nothing else has changed. */
  lemma BufferedKeepsEarlierWrites(w: WorkerState, hw: Hardware, deviceName: string, h5Path: string,
                                   rec: ShotRecord, initialValues: map<string, real>, isFresh: bool)
    requires WellShaped(rec) && |w.synth.channels| == 2
    requires InRange(Frequency, rec.frequency[0]) && InRange(Frequency, rec.frequency[1])
    requires !InRange(Phase, rec.phase[0])
    ensures var r := TransitionToBuffered(w, hw, deviceName, h5Path, rec, initialValues, isFresh);
            && r.result == Err(OutOfRange(Phase, rec.phase[0]))
            && OnlyTouches(w.synth, r.state.synth, {(0, Level(Frequency)), (1, Level(Frequency))})
            && r.state.synth.channels[0].frequency == hw.commit(0, Level(Frequency), rec.frequency[0])
            && r.state.synth.channels[1].frequency == hw.commit(1, Level(Frequency), rec.frequency[1])
  {
    var f0, f1 := rec.sweep[0][3], rec.sweep[1][3];
    assert SweepFlags(rec) == Some((f0, f1));
    var w1 := w.(shot := Some(ShotRef(deviceName, h5Path)));
    var plan := BufferedPlan(rec, f0, f1);
    var prefix := plan[..2];
    assert prefix == [Write(Frequency, 0, rec.frequency), Write(Frequency, 1, rec.frequency)];
    assert plan[2] == Write(Phase, 0, rec.phase);
    RunStopsAtFirstRejection(w1, hw, plan, 2);
    PlanFootprintWithin(prefix, {(0, Level(Frequency)), (1, Level(Frequency))});
    RunEffects(w1, hw, prefix, 0, 0, Level(Frequency));
    RunEffects(w1, hw, prefix, 1, 1, Level(Frequency));
  }

  /** The quantity of the `j`-th level write: frequencies, then phases, then
      powers. The `j`-th write targets channel `j % 2`. */
  function LevelQuantity(j: int): Quantity {
    if j < 2 then Frequency else if j < 4 then Phase else Power
  }

  /** The value the `j`-th level write takes out of the record. */
  function LevelValue(rec: ShotRecord, j: int): real
    requires WellShaped(rec) && 0 <= j < 6
  {
    LevelArray(rec, LevelQuantity(j))[j % 2]
  }

  /** The registers the first `i` level writes target. */
  function LevelsBefore(i: int): set<(int, Register)> {
    set j | 0 <= j < i :: (j % 2, Level(LevelQuantity(j)))
  }

  lemma LevelWritesShape(rec: ShotRecord)
    ensures |LevelWrites(rec)| == 6
    ensures forall j | 0 <= j < 6 ::
              LevelWrites(rec)[j] == Write(LevelQuantity(j), j % 2, LevelArray(rec, LevelQuantity(j)))
  {
  }

  /** The six level writes target six different registers. */
  lemma LevelWritesDistinct(j: int, m: int)
    requires 0 <= j < m < 6
    ensures (j % 2, Level(LevelQuantity(j))) != (m % 2, Level(LevelQuantity(m)))
  {
  }

  /** In a successful run of the buffered plan for a well-shaped record,
      the first `i` level writes hold what the hardware committed, and
      every level write is accepted. */
  lemma LevelPrefixEffects(w: WorkerState, hw: Hardware, rec: ShotRecord, f0: real, f1: real, i: int)
    requires WellShaped(rec) && 0 <= i <= 6
    requires Run(w, hw, BufferedPlan(rec, f0, f1)[..i]).result.Ok?
    ensures var s := Run(w, hw, BufferedPlan(rec, f0, f1)[..i]).state;
            && |s.synth.channels| == |w.synth.channels|
            && forall j | 0 <= j < i ::
                 && j % 2 < |s.synth.channels|
                 && Get(s.synth.channels[j % 2], Level(LevelQuantity(j)))
                    == Num(hw.commit(j % 2, Level(LevelQuantity(j)), LevelValue(rec, j)))
  {
    var prefix := BufferedPlan(rec, f0, f1)[..i];
    LevelWritesShape(rec);
    assert forall j | 0 <= j < i :: prefix[j] == LevelWrites(rec)[j];
    forall j | 0 <= j < i
      ensures j % 2 < |Run(w, hw, prefix).state.synth.channels|
      ensures Get(Run(w, hw, prefix).state.synth.channels[j % 2], Level(LevelQuantity(j)))
              == Num(hw.commit(j % 2, Level(LevelQuantity(j)), LevelValue(rec, j)))
    {
      forall m | j < m < i
        ensures (j % 2, Level(LevelQuantity(j))) !in Footprint(prefix[m])
      {
        LevelWritesDistinct(j, m);
      }
      RunEffects(w, hw, prefix, j, j % 2, Level(LevelQuantity(j)));
    }
  }

  /** The level writes are issued in the order f0, f1, ph0, ph1, p0, p1 and
      nothing is rolled back. When write `i` is the first whose value is out
      of range, entering buffered mode fails with that value's range error;
      the writes before it hold what the hardware committed, and no other
      register has changed. */
  lemma BufferedFailsAtFirstBadLevel(w: WorkerState, hw: Hardware, deviceName: string, h5Path: string,
                                     rec: ShotRecord, initialValues: map<string, real>, isFresh: bool, i: int)
    requires WellShaped(rec) && |w.synth.channels| == 2 && 0 <= i < 6
    requires forall j | 0 <= j < i :: InRange(LevelQuantity(j), LevelValue(rec, j))
    requires !InRange(LevelQuantity(i), LevelValue(rec, i))
    ensures var r := TransitionToBuffered(w, hw, deviceName, h5Path, rec, initialValues, isFresh);
            && r.result == Err(OutOfRange(LevelQuantity(i), LevelValue(rec, i)))
            && OnlyTouches(w.synth, r.state.synth, LevelsBefore(i))
            && forall j | 0 <= j < i ::
                 Get(r.state.synth.channels[j % 2], Level(LevelQuantity(j)))
                 == Num(hw.commit(j % 2, Level(LevelQuantity(j)), LevelValue(rec, j)))
  {
    var f0, f1 := rec.sweep[0][3], rec.sweep[1][3];
    assert SweepFlags(rec) == Some((f0, f1));
    var w1 := w.(shot := Some(ShotRef(deviceName, h5Path)));
    var plan := BufferedPlan(rec, f0, f1);
    var prefix := plan[..i];
    LevelWritesShape(rec);
    assert forall j | 0 <= j < 6 :: plan[j] == LevelWrites(rec)[j];
    assert Rejection(2, plan[i]) == Some(OutOfRange(LevelQuantity(i), LevelValue(rec, i)));
    RunStopsAtFirstRejection(w1, hw, plan, i);
    forall j | 0 <= j < |prefix|
      ensures Footprint(prefix[j]) <= LevelsBefore(i)
    {
      assert prefix[j] == plan[j];
    }
    PlanFootprintWithin(prefix, LevelsBefore(i));
    LevelPrefixEffects(w1, hw, rec, f0, f1, i);
  }

  /** Entering buffered mode with a well-shaped record on a two-channel
      synthesizer succeeds exactly when every frequency, phase and power in
      the record is within its range. */
  lemma BufferedSucceedsIff(w: WorkerState, hw: Hardware, deviceName: string, h5Path: string,
                            rec: ShotRecord, initialValues: map<string, real>, isFresh: bool)
    requires WellShaped(rec) && |w.synth.channels| == 2
    ensures TransitionToBuffered(w, hw, deviceName, h5Path, rec, initialValues, isFresh).result.Ok?
            <==> Acceptable(Column(rec, 0)) && Acceptable(Column(rec, 1))
  {
    if Acceptable(Column(rec, 0)) && Acceptable(Column(rec, 1)) {
      BufferedAppliesRecord(w, hw, deviceName, h5Path, rec, initialValues, isFresh);
    } else {
      var i := FirstBadLevel(rec);
      BufferedFailsAtFirstBadLevel(w, hw, deviceName, h5Path, rec, initialValues, isFresh, i);
    }
  }

  /** The six level values are all in range exactly when both channel
      columns of the record are acceptable. */
  lemma LevelsAcceptable(rec: ShotRecord)
    requires WellShaped(rec)
    ensures (forall j | 0 <= j < 6 :: InRange(LevelQuantity(j), LevelValue(rec, j)))
            <==> Acceptable(Column(rec, 0)) && Acceptable(Column(rec, 1))
  {
    assert LevelValue(rec, 0) == Column(rec, 0).frequency;
    assert LevelValue(rec, 1) == Column(rec, 1).frequency;
    assert LevelValue(rec, 2) == Column(rec, 0).phase;
    assert LevelValue(rec, 3) == Column(rec, 1).phase;
    assert LevelValue(rec, 4) == Column(rec, 0).power;
    assert LevelValue(rec, 5) == Column(rec, 1).power;
  }

  /** A record with some value out of range has a first such level write. */
  lemma FirstBadLevel(rec: ShotRecord) returns (i: int)
    requires WellShaped(rec) && !(Acceptable(Column(rec, 0)) && Acceptable(Column(rec, 1)))
    ensures 0 <= i < 6
    ensures forall j | 0 <= j < i :: InRange(LevelQuantity(j), LevelValue(rec, j))
    ensures !InRange(LevelQuantity(i), LevelValue(rec, i))
  {
    i := 0;
    while InRange(LevelQuantity(i), LevelValue(rec, i))
      invariant 0 <= i < 6
      invariant forall j | 0 <= j < i :: InRange(LevelQuantity(j), LevelValue(rec, j))
      decreases 6 - i
    {
      if i == 5 {
        LevelsAcceptable(rec);
        assert false;
      }
      i := i + 1;
    }
  }

  /** The record's enable array, the front-panel values and the `fresh` flag
      have no influence on entering buffered mode. */
  lemma BufferedIgnoresEnableArray(w: WorkerState, hw: Hardware, deviceName: string, h5Path: string,
                                   rec: ShotRecord, enable: seq<bool>,
                                   initialValues: map<string, real>, initialValues': map<string, real>,
                                   isFresh: bool, isFresh': bool)
    ensures TransitionToBuffered(w, hw, deviceName, h5Path, rec.(enable := enable), initialValues', isFresh')
         == TransitionToBuffered(w, hw, deviceName, h5Path, rec, initialValues, isFresh)
  {
  }

  /** Aborting an armed run before the trigger reports success, and the
      worker takes manual commands straight away without re-initialising. */
  lemma AbortThenManualSet(w: WorkerState, hw: Hardware, deviceName: string, h5Path: string,
                           rec: ShotRecord, initialValues: map<string, real>, isFresh: bool,
                           ch: int, f: real)
    requires |w.synth.channels| == 2 && IsChannel(ch) && InRange(Frequency, f)
    ensures var armed := TransitionToBuffered(w, hw, deviceName, h5Path, rec, initialValues, isFresh).state;
            var (back, ok) := AbortTransitionToBuffered(armed);
            && ok
            && SetFrequency(back, hw, ch, f).result == Ok(hw.commit(ch, Level(Frequency), f))
  {
  }
}
