/** The compile-side `Windfreak` device: five per-channel tables of target
    values, setters that validate before they update, and `generate_code`,
    which flattens the tables into the shot record. Nothing here touches
    hardware. */
module LabscriptDevice {
  import opened Basics
  import opened Record

  /** The reference mode used when the connection table does not name one. */
  const DefaultReferenceMode: string := "internal 27mhz"

  /** The device object. The five tables are keyed by channel like the
      Python class's `frequency_dict` ... `sweep_dict`; a key other than 0 or 1 can only appear in
      `sweep`, because `SetupSweep` does not check its channel. */
  datatype Windfreak = Windfreak(
    name: string,
    comPort: string,
    referenceMode: string,
    blacsConnection: string,
    frequency: map<int, real>,   // Hz
    phase: map<int, real>,       // degrees
    power: map<int, real>,       // dBm
    enable: map<int, bool>,
    sweep: map<int, Sweep>)

  /** Channel `k` has an entry in all five tables. */
  predicate HasChannel(w: Windfreak, k: int) {
    k in w.frequency && k in w.phase && k in w.power && k in w.enable && k in w.sweep
  }

  /** Both channels have entries, as `generate_code` needs. */
  predicate Valid(w: Windfreak) {
    HasChannel(w, 0) && HasChannel(w, 1)
  }

  /** The settings of one channel, gathered across the five tables. */
  function View(w: Windfreak, k: int): ChannelSettings
    requires HasChannel(w, k)
  {
    ChannelSettings(w.frequency[k], w.phase[k], w.power[k], w.enable[k], w.sweep[k])
  }

  /** Channel `k` holds values the runtime worker will accept. */
  predicate SettledAt(w: Windfreak, k: int)
    requires HasChannel(w, k)
  {
    Acceptable(View(w, k))
  }

  /** The invariant every reachable device keeps: both channels present and
      every frequency, phase and power within its legal range. */
  predicate Settled(w: Windfreak) {
    Valid(w) && SettledAt(w, 0) && SettledAt(w, 1)
  }

  /** Map `m'` agrees with `m` at key `k`: same presence, same value. */
  predicate SameAt<V(==)>(m: map<int, V>, m': map<int, V>, k: int) {
    (k in m <==> k in m') && (k in m ==> m'[k] == m[k])
  }

  /** No table entry for key `k` differs between `w` and `w'`. */
  predicate Unmoved(w: Windfreak, w': Windfreak, k: int) {
    && SameAt(w.frequency, w'.frequency, k)
    && SameAt(w.phase, w'.phase, k)
    && SameAt(w.power, w'.power, k)
    && SameAt(w.enable, w'.enable, k)
    && SameAt(w.sweep, w'.sweep, k)
  }

  /** `w'` is `w` with channel `ch`'s settings replaced by `c` and nothing
      else changed: not the other channel, not any other table key, not the
      device's name, port or reference mode. */
  ghost predicate Updates(w: Windfreak, w': Windfreak, ch: int, c: ChannelSettings) {
    && w'.name == w.name
    && w'.comPort == w.comPort
    && w'.referenceMode == w.referenceMode
    && w'.blacsConnection == w.blacsConnection
    && HasChannel(w', ch)
    && View(w', ch) == c
    && forall k :: k != ch ==> Unmoved(w, w', k)
  }

  /** A fresh device: both channels at the lowest legal frequency, phase 0,
      power 0 dBm, output disabled and no sweep. */
  function Init(name: string, comPort: string, referenceMode: string): (w: Windfreak)
    ensures Settled(w)
    ensures w.frequency.Keys == w.phase.Keys == w.power.Keys == w.enable.Keys == w.sweep.Keys == {0, 1}
    ensures forall k | IsChannel(k) ::
              && w.frequency[k] == MinFrequency
              && !w.enable[k]
              && w.sweep[k].flag == 0.0
    ensures w.name == name && w.comPort == comPort && w.referenceMode == referenceMode
    ensures w.blacsConnection == "Windfreak Synthesizer " + comPort
  {
    Windfreak(
      name, comPort, referenceMode, "Windfreak Synthesizer " + comPort,
      map[0 := MinFrequency, 1 := MinFrequency],
      map[0 := 0.0, 1 := 0.0],
      map[0 := 0.0, 1 := 0.0],
      map[0 := false, 1 := false],
      map[0 := NoSweep, 1 := NoSweep])
  }

  /** Sets the target frequency of a channel and, as a side effect, enables
      that channel. The range is checked before the channel. */
  function SetFrequency(w: Windfreak, ch: int, f: real): (r: Result<Windfreak>)
    ensures r.Ok? <==> MinFrequency <= f <= MaxFrequency && IsChannel(ch)
    ensures !InRange(Frequency, f) ==> r == Err(OutOfRange(Frequency, f))
    ensures InRange(Frequency, f) && !IsChannel(ch) ==> r == Err(InvalidChannel(ch))
    ensures r.Ok? && HasChannel(w, ch) ==>
              Updates(w, r.value, ch, View(w, ch).(frequency := f, enable := true))
    ensures r.Ok? ==> (Valid(w) ==> Valid(r.value)) && (Settled(w) ==> Settled(r.value))
  {
    if !InRange(Frequency, f) then Err(OutOfRange(Frequency, f))
    else if !IsChannel(ch) then Err(InvalidChannel(ch))
    else Ok(w.(frequency := w.frequency[ch := f], enable := w.enable[ch := true]))
  }

  /** Sets the target power of a channel. */
  function SetPower(w: Windfreak, ch: int, p: real): (r: Result<Windfreak>)
    ensures r.Ok? <==> MinPower <= p <= MaxPower && IsChannel(ch)
    ensures !InRange(Power, p) ==> r == Err(OutOfRange(Power, p))
    ensures InRange(Power, p) && !IsChannel(ch) ==> r == Err(InvalidChannel(ch))
    ensures r.Ok? && HasChannel(w, ch) ==> Updates(w, r.value, ch, View(w, ch).(power := p))
    ensures r.Ok? ==> (Valid(w) ==> Valid(r.value)) && (Settled(w) ==> Settled(r.value))
  {
    if !InRange(Power, p) then Err(OutOfRange(Power, p))
    else if !IsChannel(ch) then Err(InvalidChannel(ch))
    else Ok(w.(power := w.power[ch := p]))
  }

  /** Sets the target phase of a channel. */
  function SetPhase(w: Windfreak, ch: int, d: real): (r: Result<Windfreak>)
    ensures r.Ok? <==> MinPhase <= d <= MaxPhase && IsChannel(ch)
    ensures !InRange(Phase, d) ==> r == Err(OutOfRange(Phase, d))
    ensures InRange(Phase, d) && !IsChannel(ch) ==> r == Err(InvalidChannel(ch))
    ensures r.Ok? && HasChannel(w, ch) ==> Updates(w, r.value, ch, View(w, ch).(phase := d))
    ensures r.Ok? ==> (Valid(w) ==> Valid(r.value)) && (Settled(w) ==> Settled(r.value))
  {
    if !InRange(Phase, d) then Err(OutOfRange(Phase, d))
    else if !IsChannel(ch) then Err(InvalidChannel(ch))
    else Ok(w.(phase := w.phase[ch := d]))
  }

  /** Switches a channel's output on or off; only the channel is checked. */
  function EnableChannel(w: Windfreak, ch: int, e: bool): (r: Result<Windfreak>)
    ensures r.Ok? <==> IsChannel(ch)
    ensures r.Err? ==> r.error == InvalidChannel(ch)
    ensures r.Ok? && HasChannel(w, ch) ==> Updates(w, r.value, ch, View(w, ch).(enable := e))
    ensures r.Ok? ==> (Valid(w) ==> Valid(r.value)) && (Settled(w) ==> Settled(r.value))
  {
    if !IsChannel(ch) then Err(InvalidChannel(ch))
    else Ok(w.(enable := w.enable[ch := e]))
  }

  /** Records a sweep for a channel with its flag set to 1. Neither the
      channel nor the frequencies are checked, so this never fails; a key
      other than 0 or 1 lands in the sweep table and nowhere else. */
  function SetupSweep(w: Windfreak, ch: int, start: real, stop: real, step: real): (w': Windfreak)
    ensures ch in w'.sweep && w'.sweep[ch] == Sweep(start, stop, step, 1.0)
    ensures w'.frequency == w.frequency && w'.phase == w.phase && w'.power == w.power
    ensures w'.enable == w.enable
    ensures forall k :: k != ch ==> Unmoved(w, w', k)
    ensures HasChannel(w, ch) ==> Updates(w, w', ch, View(w, ch).(sweep := Sweep(start, stop, step, 1.0)))
    ensures Valid(w) ==> Valid(w')
    ensures Settled(w) ==> Settled(w')
  {
    w.(sweep := w.sweep[ch := Sweep(start, stop, step, 1.0)])
  }

  /** `generate_code`: the shot record holding channel 0's and channel 1's
      settings, each array indexed by channel. */
  function GenerateCode(w: Windfreak): (r: ShotRecord)
    requires Valid(w)
    ensures WellShaped(r)
    ensures forall k | IsChannel(k) :: Column(r, k) == View(w, k)
  {
    Build(View(w, 0), View(w, 1))
  }

  /** The record a fresh device compiles to: 10 MHz, phase 0, 0 dBm, both
      outputs off and an all-zero 2 x 4 sweep table. */
  lemma InitialRecord(name: string, comPort: string, referenceMode: string)
    ensures GenerateCode(Init(name, comPort, referenceMode)) == ShotRecord(
              [10_000_000.0, 10_000_000.0],
              [false, false],
              [0.0, 0.0],
              [0.0, 0.0],
              [[0.0, 0.0, 0.0, 0.0], [0.0, 0.0, 0.0, 0.0]])
  {
  }

  /** A sweep filed under a key other than 0 or 1 never reaches the record. */
  lemma StraySweepInvisible(w: Windfreak, ch: int, start: real, stop: real, step: real)
    requires Valid(w) && !IsChannel(ch)
    ensures GenerateCode(SetupSweep(w, ch, start, stop, step)) == GenerateCode(w)
  {
  }
}
