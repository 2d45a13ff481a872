/** The fixed-shape shot record the compile side writes under the device's
    group and the worker reads back at the start of a buffered run:
    `frequency[2]`, `enable[2]`, `phase[2]`, `power[2]` and `sweep[2][4]`,
    every array indexed by channel, channel 0 first. */
module Record {
  import opened Basics

  /** A sweep descriptor: start, stop and step in Hz, and a flag that is
      non-zero when the sweep is to be armed. */
  datatype Sweep = Sweep(start: real, stop: real, step: real, flag: real)

  const NoSweep: Sweep := Sweep(0.0, 0.0, 0.0, 0.0)

  /** Everything the record holds about one channel. */
  datatype ChannelSettings = ChannelSettings(
    frequency: real,   // Hz
    phase: real,       // degrees
    power: real,       // dBm
    enable: bool,
    sweep: Sweep)

  /** Every range-checked value of a channel is within its legal range:
      what both the compile-side setters and the worker's setters accept. */
  predicate Acceptable(c: ChannelSettings) {
    InRange(Frequency, c.frequency) && InRange(Phase, c.phase) && InRange(Power, c.power)
  }

  /** The record as its arrays; the arrays may be of any length, since the
      reader indexes them without checking their shape. */
  datatype ShotRecord = ShotRecord(
    frequency: seq<real>,
    enable: seq<bool>,
    phase: seq<real>,
    power: seq<real>,
    sweep: seq<seq<real>>)

  /** The shape the compile side always writes. */
  predicate WellShaped(r: ShotRecord) {
    && |r.frequency| == 2
    && |r.enable| == 2
    && |r.phase| == 2
    && |r.power| == 2
    && |r.sweep| == 2
    && |r.sweep[0]| == 4
    && |r.sweep[1]| == 4
  }

  /** One row of the sweep table, in the order (start, stop, step, flag). */
  function Row(s: Sweep): (row: seq<real>)
    ensures |row| == 4
  {
    [s.start, s.stop, s.step, s.flag]
  }

  /** Reads a sweep row back into a descriptor. */
  function SweepOf(row: seq<real>): (s: Sweep)
    requires |row| == 4
    ensures Row(s) == row
  {
    Sweep(row[0], row[1], row[2], row[3])
  }

  /** The settings of channel `k`, read column-wise out of a record. */
  function Column(r: ShotRecord, k: int): ChannelSettings
    requires WellShaped(r) && IsChannel(k)
  {
    ChannelSettings(r.frequency[k], r.phase[k], r.power[k], r.enable[k], SweepOf(r.sweep[k]))
  }

  /** Flattens the settings of channels 0 and 1 into the record's arrays.
      The contract is the codec's round trip: the result has the fixed
      shape and reading channel k back out gives channel k's settings. */
  function Build(c0: ChannelSettings, c1: ChannelSettings): (r: ShotRecord)
    ensures WellShaped(r)
    ensures Column(r, 0) == c0 && Column(r, 1) == c1
  {
    ShotRecord(
      [c0.frequency, c1.frequency],
      [c0.enable, c1.enable],
      [c0.phase, c1.phase],
      [c0.power, c1.power],
      [Row(c0.sweep), Row(c1.sweep)])
  }

  /** The other half of the round trip: a well-shaped record is determined
      by its two columns, so nothing is lost by reading it channel-wise. */
  lemma BuildFromColumns(r: ShotRecord)
    requires WellShaped(r)
    ensures Build(Column(r, 0), Column(r, 1)) == r
  {
  }
}
