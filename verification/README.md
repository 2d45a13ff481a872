# Windfreak synthesizer driver — a Dafny model

This project models the two halves of the labscript driver for a two-channel
Windfreak SynthHD microwave synthesizer. Every property is stated in terms of
that model.

* **Compile side**: the `Windfreak` device class.
  * It keeps five per-channel tables: frequency in Hz, phase in degrees,
    power in dBm, output enable, and a sweep descriptor.
  * Its setters validate before they update, and setting a frequency also
    enables the channel.
  * `generate_code` flattens the tables into a fixed-shape shot record.
    The arrays are `frequency[2]`, `enable[2]`, `phase[2]`, `power[2]` and
    `sweep[2][4]`.
* **Runtime side**: the BLACS worker `WindfreakWorker`.
  * At start-up it checks the reference mode.
  * It handles the manual "set" commands, each with its range check and
    hardware read-back.
  * `transition_to_buffered` applies a shot record in bulk: frequencies,
    then phases, then powers, then one sweep per flagged channel. It stops
    at the first failure and does not roll back.
  * The remaining lifecycle calls always succeed.

The modules follow the source files:

| module | file | contents |
|---|---|---|
| `Basics` | `basics.dfy` | quantities, inclusive limits, the error kinds, `Option`/`Result`, Python-style indexing |
| `Record` | `record.dfy` | the shot record and its channel-wise codec (`Build` / `Column`) |
| `LabscriptDevice` | `labscript_device.dfy` | the compile-side device: default state, setters, `GenerateCode` |
| `BlacsWorker` | `blacs_worker.dfy` | the worker over an abstract register file, with `transition_to_buffered` as a plan of commands folded by `Run` |
| `EndToEnd` | `end_to_end.dfy` | on exact reals and with an SDK that never raises, every record the compile side can produce is accepted by the worker and applied channel by channel |

A Python exception becomes an `Err` value of `Basics.Error`.

* A compile-side setter either returns the new device or an error. On an
  error the caller keeps the old device, so a rejected call changes nothing
  by construction.
* A worker operation returns a `Step`: the state afterwards plus its result.
  A step is needed because a failing `transition_to_buffered` still leaves
  its earlier writes in the hardware.

The vendor SDK is reduced to a register file (`Synth`). What the hardware
actually stores for a written value (its quantisation) is the `Hardware`
parameter: an arbitrary function from (channel, register, written value) to
committed value, and one from (channel, requested enable) to the reported
output state. Every read-back returns what those functions committed. Both
functions are total, so no SDK call can raise: no serial error and no range
check inside the SDK. The worker has no `try`/`except`, so in the program
such an exception would escape and leave earlier writes in place; every
"succeeds" claim below holds only under this assumption. The assumptions
about the SDK are listed under "## Left out", one line per member they
affect.

## Model

| member | source | states |
|---|---|---|
| Basics.PyIndex | blacs_workers.py:157-158 | Python indexing: defined exactly for -len <= i < len, and a negative index counts from the end (used for `sweeps[i][-1]`) |
| Record.SweepOf | labscript_devices.py:91-92 | reading a 4-entry sweep row into a descriptor loses nothing: writing the descriptor back gives the same row |
| Record.Build | labscript_devices.py:79-92 | the record has the fixed 2 / 2 / 2 / 2 / 2x4 shape, and reading channel 0 or channel 1 back out of it gives exactly that channel's settings |
| Record.BuildFromColumns | blacs_workers.py:152-158 | the other half of the round trip: a well-shaped record is rebuilt exactly from its two channel columns |
| LabscriptDevice.Init | labscript_devices.py:35-65 | a new device has keys {0,1} in all five tables; both channels are at 10 MHz and disabled with sweep flag 0; all values are in range; the BLACS connection is "Windfreak Synthesizer <port>" |
| LabscriptDevice.InitialRecord | labscript_devices.py:52-56 | a new device compiles to frequencies [10e6, 10e6], enables [false, false], phases and powers [0, 0] and an all-zero 2x4 sweep table |
| LabscriptDevice.SetFrequency | labscript_devices.py:97-113 | succeeds iff 10e6 <= f <= 15000e6 (both bounds inclusive) and channel is 0 or 1; the range error wins over the channel error; on success only that channel's frequency (now f) and enable (now true) change |
| LabscriptDevice.SetPower | labscript_devices.py:115-130 | succeeds iff -70 <= p <= 20 and channel is 0 or 1; the range is checked first; on success only that channel's power changes |
| LabscriptDevice.SetPhase | labscript_devices.py:132-147 | succeeds iff 0 <= d <= 360 and channel is 0 or 1; the range is checked first; on success only that channel's phase changes |
| LabscriptDevice.EnableChannel | labscript_devices.py:149-154 | succeeds iff channel is 0 or 1; on success only that channel's enable changes |
| LabscriptDevice.SetupSweep | labscript_devices.py:156-165 | never fails; stores exactly (start, stop, step, 1) under the given key; no other table or key changes; all values stay in range |
| LabscriptDevice.GenerateCode | labscript_devices.py:68-92 | the record is well shaped and its column k is channel k's settings, for k = 0 and k = 1 |
| LabscriptDevice.StraySweepInvisible | labscript_devices.py:91-92 | a sweep filed under a key other than 0 or 1 never changes the compiled record |
| BlacsWorker.Init | blacs_workers.py:33-35 | start-up succeeds iff the requested reference mode is supported; on failure the reference mode is never written; on success it is the requested mode |
| BlacsWorker.SetLevel | blacs_workers.py:46-52 | range check first, then the channel; on failure nothing changes; on success only that register changes, holds the committed value, and the read-back returns it |
| BlacsWorker.SetFrequency | blacs_workers.py:38-52 | succeeds iff 10e6 <= f <= 15e9 and the channel exists; a rejected value writes nothing; success returns the frequency the hardware holds |
| BlacsWorker.SetPower | blacs_workers.py:54-68 | succeeds iff -70 <= p <= 20 and the channel exists; a rejected value writes nothing; success returns the power read back |
| BlacsWorker.SetPhase | blacs_workers.py:70-83 | succeeds iff 0 <= d <= 360 and the channel exists; a rejected value writes nothing; success returns the phase read back |
| BlacsWorker.SetEnable | blacs_workers.py:85-95 | no value check; only the enable changes; returns the output state read back from the hardware |
| BlacsWorker.ToMHz | blacs_workers.py:108-110 | the result times 1e6 is the value in Hz |
| BlacsWorker.SetSweep | blacs_workers.py:97-110 | the row must have exactly four entries; on success sweeping is enabled in "single frequency step" mode with low/high/step = start/stop/step in MHz; only the five sweep registers change |
| BlacsWorker.SetSweepIgnoresFlag | blacs_workers.py:105-110 | the row's fourth entry has no effect on what arming writes |
| BlacsWorker.ProgramManual | blacs_workers.py:118-125 | front-panel values are not applied: no state changes and the reported map is empty |
| BlacsWorker.TransitionToManual | blacs_workers.py:179-187 | reports success and restores nothing |
| BlacsWorker.AbortTransitionToBuffered | blacs_workers.py:189-193 | reports success and changes nothing |
| BlacsWorker.AbortBuffered | blacs_workers.py:195-199 | reports success and changes nothing |
| BlacsWorker.Exec | blacs_workers.py:161-173 | one command of the buffered sequence fails exactly when its rejection reason applies, and then changes nothing; otherwise each register it writes holds that command's effect |
| BlacsWorker.Run | blacs_workers.py:161-173 | a run writes only registers in the commands' footprints and succeeds iff no command is rejected |
| BlacsWorker.RunStopsAtFirstRejection | blacs_workers.py:161-173 | the first rejected command decides the outcome, in the state the commands before it left (no rollback) |
| BlacsWorker.RunEffects | blacs_workers.py:161-173 | after a successful run, a register holds the effect of the last command that writes it |
| BlacsWorker.TransitionToBuffered | blacs_workers.py:127-176 | remembers the shot; a record without two sweep rows fails with nothing written; otherwise it writes only frequency, phase and power of both channels and the sweep registers of flagged channels, never an enable; success reports an empty map |
| BlacsWorker.BufferedUntouched | blacs_workers.py:170-173 | whatever the outcome, enables stay as they were, and so do the sweep registers and trigger mode of a channel whose flag is 0 |
| BlacsWorker.BufferedSweepArmed | blacs_workers.py:157-173 | after a successful run, a channel whose flag is non-zero is armed from its own row of the sweep table |
| BlacsWorker.BufferedAppliesRecord | blacs_workers.py:152-176 | a well-shaped in-range record is accepted on a two-channel synthesizer; each channel then holds its column (levels as committed, enable unchanged, sweep armed iff its flag is non-zero) |
| BlacsWorker.BufferedKeepsEarlierWrites | blacs_workers.py:161-165 | with channel 0's phase out of range the entry fails with that range error, the two frequencies already written stay written, and nothing else has changed |
| BlacsWorker.BufferedFailsAtFirstBadLevel | blacs_workers.py:161-168 | the level writes go f0, f1, ph0, ph1, p0, p1; if write i is the first out of range, the entry fails with that value's range error, the writes before i hold what the hardware committed, and no other register has changed |
| BlacsWorker.LevelsAcceptable | blacs_workers.py:161-168 | the six values the level writes take are all in range exactly when both channel columns of the record pass the range checks |
| BlacsWorker.BufferedSucceedsIff | blacs_workers.py:152-176 | for a well-shaped record on a two-channel synthesizer, entering buffered mode succeeds if and only if every frequency, phase and power in the record is in range |
| BlacsWorker.BufferedIgnoresEnableArray | blacs_workers.py:152-176 | the record's enable array, the front-panel values and the `fresh` flag have no influence on entering buffered mode |
| BlacsWorker.AbortThenManualSet | blacs_workers.py:189-193 | after an abort before the trigger the worker reports success and takes a valid manual frequency command straight away |
| EndToEnd.CompiledValuesAcceptable | labscript_devices.py:105-147 | for a device in the Settled state (which Init and every setter keep), every channel of the compiled record passes the worker's range checks |
| EndToEnd.CompiledShotApplies | blacs_workers.py:152-176 | a record compiled from any Settled device is accepted in full, and each channel ends up holding what was compiled for it |
| EndToEnd.CompiledFlagArms | blacs_workers.py:170-173 | a channel compiled with a non-zero sweep flag is armed from its compiled row |
| EndToEnd.CompiledSweepIsArmed | labscript_devices.py:156-165 | a sweep set up at compile time is armed at run time from (start, stop, step, 1), in MHz |
| EndToEnd.ExampleRecord | labscript_devices.py:97-113 | a shot that sets two frequencies and powers and one sweep compiles to the expected record, with both channels enabled as a side effect |
| EndToEnd.ExampleShotArmsChannelOne | blacs_workers.py:161-173 | running that shot arms channel 1 with 5401.625 / 5402.026 / 0.01 MHz and leaves channel 0's sweep configuration (enable, trigger mode, low, high, step) as it was before the shot |

## Left out

- HDF5 storage (`require_group`, `require_dataset`, `h5py.File`) is not modelled. The record is passed as the `ShotRecord` datatype, and `transition_to_buffered` receives it already decoded.
- LabscriptDevice.GenerateCode: the record's arrays are stored as float32, and this model keeps exact reals.
- BlacsWorker.SetLevel: `float(...)` conversion and vendor quantisation are not modelled; the read-back is the arbitrary `Hardware.commit` function.
- BlacsWorker.SetLevel: the worker itself does no channel check. An index the SDK does not have is modelled as a `NoSuchChannel` error raised before any write, because the vendor SDK is outside this model. The same applies to BlacsWorker.SetEnable and BlacsWorker.SetSweep.
- BlacsWorker.SetLevel: assumes the value the SDK reads back depends only on the channel, the register and the value written, not on any earlier state of the device.
- BlacsWorker.SetLevel: assumes a write to one SDK attribute changes no other attribute; the same assumption underlies BlacsWorker.SetEnable and BlacsWorker.SetSweep.
- BlacsWorker.SetEnable: the code writes `enable` and reads back `rf_enable` (blacs_workers.py:94-95); the model treats them as one register whose read-back is `Hardware.commitEnable`.
- BlacsWorker.SetSweep: `trigger_mode` is written per channel (blacs_workers.py:107) and modelled as a per-channel register, although the start-up printout reads a device-level `trigger_mode` (blacs_workers.py:25); how the SDK relates the two is not modelled.
- BlacsWorker.Init: the serial connection, `init()`, the printout reads and the reference-mode write are assumed not to raise; success depends only on the mode check.
- BlacsWorker.SetLevel: assumes no SDK write or read-back raises; "Ok iff in range and the channel exists" holds only under that assumption, and in the program an SDK exception would propagate to the caller.
- BlacsWorker.SetFrequency: assumes the SDK's frequency write and read-back never raise (no serial error, no SDK-side range check); "succeeds iff in range and the channel exists" holds only under that assumption.
- BlacsWorker.SetPower: assumes the SDK's power write and read-back never raise; the iff holds only under that assumption.
- BlacsWorker.SetPhase: assumes the SDK's phase write and read-back never raise; the iff holds only under that assumption.
- BlacsWorker.SetEnable: assumes the `enable` write and the `rf_enable` read never raise, so it fails only on a missing channel.
- BlacsWorker.SetSweep: assumes none of the five sweep writes raises. The SDK may check sweep bounds, and nothing in the driver does, so any start, stop and step (negative, or a zero step) is modelled as armed.
- BlacsWorker.Exec: a command fails only on the driver's own rejection; an SDK exception partway through a command is not modelled.
- BlacsWorker.Run: "succeeds iff no command is rejected" leaves out an SDK exception in the middle of the sequence, which in the program would also stop it with the earlier writes kept.
- BlacsWorker.RunStopsAtFirstRejection: the first driver-side rejection decides the outcome only because no SDK call before it can raise.
- BlacsWorker.BufferedAppliesRecord: an in-range record is accepted only for an SDK that never refuses a write, including the sweep writes.
- BlacsWorker.BufferedKeepsEarlierWrites: the phase range error is the outcome only because neither frequency write can raise in the SDK.
- BlacsWorker.BufferedFailsAtFirstBadLevel: the first out-of-range level decides the error only because no earlier SDK write can raise.
- BlacsWorker.BufferedSucceedsIff: the iff leaves out SDK failures, including any SDK-side check on sweep bounds.
- BlacsWorker.AbortThenManualSet: the manual frequency command is taken only because the SDK write cannot raise.
- EndToEnd.CompiledShotApplies: acceptance of every compiled record, whatever its sweep values, rests on an SDK that never raises.
- EndToEnd.CompiledFlagArms: arming any compiled row rests on sweep writes that cannot fail in the SDK.
- EndToEnd.CompiledSweepIsArmed: any (start, stop, step), even a negative start with a zero step, is armed only because no SDK write can fail.
- EndToEnd.ExampleShotArmsChannelOne: success of the example shot rests on an SDK that never raises.
- BlacsWorker.TransitionToBuffered: a record array too short for an index fails with `MalformedRecord` at the command that reads it. Python raises an `IndexError` there. A sweep row that does not unpack into four values also fails with `MalformedRecord`, where Python raises a `ValueError`.
- The serial connection (`SynthHD(port)`, `init()`), the identity printout, `print` logging and `shutdown` (a no-op) are pure I/O. Only the reference-mode check and assignment of `init` are modelled; the supported modes are a parameter.
- The labscript and BLACS base classes and `set_passed_properties` are out of scope, and so is the `connection` / `parent_device` choice in `__init__`. The class constants `description`, `allowed_children` and `clock_limit` are also out.
- `channel in [0, 1]` is modelled on integers. Python's equality would also accept `0.0`, `1.0`, `False` and `True`, and that quirk is not modelled.
- The GUI tabs and the standalone SDK example script are not part of this model.
- BlacsWorker.TransitionToManual: the worker keeps no lifecycle mode, so a manual command is accepted in any state (`AbortThenManualSet`).
- BlacsWorker.TransitionToManual: `transition_to_manual` restores nothing; its restore code is commented out (blacs_workers.py:183-186). A channel armed by one shot therefore stays armed through a later shot whose flag for it is 0 (BlacsWorker.BufferedUntouched keeps its sweep registers).
- LabscriptDevice.SetupSweep: `setup_sweep` stores the number 1 as the fourth entry, modelled as `Sweep(start, stop, step, 1.0)`.
- EndToEnd.CompiledValuesAcceptable: acceptance is proved for exact reals. The record is stored as float32, and float32(15e9) is 15000000512.0; depending on numpy's promotion rules (a float64 comparison, as before numpy 2), a frequency of exactly 15e9 set at compile time can be rejected by the worker's range check.
- EndToEnd.CompiledShotApplies: rests on EndToEnd.CompiledValuesAcceptable and carries the same float32 caveat for a frequency of exactly 15e9; so does EndToEnd.CompiledFlagArms.
