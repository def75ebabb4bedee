# BREAD provider: a verified model

The provider drives heater (RLHT) and motor (DCMT) modules over a lossy I2C bus. This project models
the protocols it stacks on that bus and proves what they guarantee together: a confirmed SET is
applied exactly once, a latched watchdog trip stays latched until somebody clears it, outputs are
safe or a FAULT says so, the keepalive feeds often enough and not too often, discovery loses no
supported device, and the session's statistics add up. The statements quantify over every fault
pattern of the link, every argument and every order of events. Their hypotheses are spelled out in
each contract; the ones that recur are `retry_count <= 254` and GET_ACK firmware (CRUMBS 1600 or
later) where an answer is taken to mean something, and an inventory without two devices of one id
or address where one device is told from another.

`dafny verify dfyconfig.toml` checks the whole project.

## How the model is built

* The peer is the canned device of `src/crumbs/crumbs_canned_bus.cpp`, with its 8-bit command counter
  and injected faults. Below the session lies a transport that may lose a frame, deliver it and report
  failure, or fail a read; a finite *tape* says which, and theorems quantify over tapes.
* State the source changes in place is a class (`CannedBus`, `Session`, `Feeder`, `Port`, `Provider`);
  each method is proved equal to a function on values, and the theorems are about those functions.
* `journal` on a device and `log` on a session are observations of the model: the commands a device
  counted, the attempts made on the transport. `drives` lists the safe-output drives.
* `Moves(w, w', sends)` (module `Footprint`) is what every provider operation satisfies: every frame
  sent is in `sends`, each device counted only such frames and holds the outputs they make, and the
  statistics still add up. Run theorems follow from the footprint of each step.

| file | content |
|---|---|
| `Bytes`, `Protocol` | integers on the wire, frames, opcodes, result codes |
| `CannedBus`, `Session`, `SessionHistory`, `Retries`, `Footprint` | device, transport, session, its bookkeeping and its retries |
| `SetConfirm`, `SetConfirmMethods`, `ExactlyOnce`, `RetryBound`, `UnconfirmedSet`, `Answers` | the confirm loop, firmware without acknowledgements, and what the answers mean |
| `Capabilities`, `AdapterHelpers`, `RlhtAdapter`, `DcmtAdapter`, `DeviceAdapter`, `AdapterMethods`, `WireFormats`, `SignalTables`, `Brakes` | flags, arguments, frames, signals |
| `ReadBack`, `CallReadBack`, `SafeOutputs`, `CleanDrive`, `CleanRuns` | what reads show after adapter calls and after a safe-output drive, and what a clean link achieves |
| `Watchdog`, `Arming`, `Elsewhere`, `Keepalive`, `KeepaliveRuns`, `FeedTraffic`, `Interleaving` | arming, feeding, and the two threads |
| `Inventory`, `InventoryTheorems`, `Startup`, `ProbeMeaning`, `StaleDiscovery` | assembly of the inventory, probing, the time budget |
| `Runtime`, `RuntimeTheorems`, `SafeRuns`, `ConfiguredRuns`, `ProviderReadBack`, `WatchdogHealth`, `Provider` | whole runs of the provider |

## What the code does not promise

* *Exactly once* fails from 255 session retries on: the counter wraps inside one send and an OK can
  stand for 257 applications (`RetryBound.FloodedExample`). It holds if and only if
  `retry_count <= 254` (`RetryBound.OkMeansOnceIff`).
* *An OK call reads back*: not when the call ends with a recovery under the safe policy. A call whose
  own bus traffic follows a failure answers OK and then drives the outputs to zero, with no FAULT to
  say so (`ProviderReadBack.RecoveryUndoesCall`). It reads back if the policy leaves outputs alone or
  the address has no recovery pending after the adapter's part of the call; otherwise the outputs are
  safe or FAULT is on record (`ProviderReadBack.ProviderCallOutputs`).
* *A lost frame is sent again*: not the first frame to a device that has counted no command yet. There
  is no record to compare, the answer is "cannot say" (`RetryBound.CleanLinkAnswer`).
* *Setpoints read back*: those that round to -32768 tenths meet the sentinel and read back as FAULT.
  They are exactly the setpoints at or below -3276.75 C.
* *Device ids are distinct*: a configured id may equal a generated one
  (`InventoryTheorems.IdClashExample`); ids are distinct if and only if none does
  (`InventoryTheorems.DistinctIdsIff`), and for every bus if no configured id has the form of a
  generated one (`InventoryTheorems.PlainIdsAreDistinct`).
* *Accepted arguments meet the published bounds*, except for the DCMT `set_mode`, which encodes all
  three mode names whatever the flags advertise (`DeviceAdapter.AcceptedModes`).
* `retry_count + 1` overflows for the largest value the configuration schema admits
  (`src/config/config_schema.cpp:57`); session methods require a smaller one.

## Assumptions

* `SetConfirm.AckDecode` and `SetConfirm.AckClassify` stand for the two CRUMBS functions of the same
  purpose, as `src/devices/common/set_confirm.hpp:55-64` documents them: equal records mean not advanced; an advance
  of exactly one with our opcode is applied, refused or rejected; an advance of one with another
  opcode is a mismatch; anything else, including a device that has never counted a command, is
  unknown.
* Opcodes, type ids, capability bits, version numbers, refusal reasons and the number of acknowledgement
  reads from outside the repository are stand-ins.
* The firmware-contract parsers and compatibility checks used by a probe are parameters.

## Model

| member | source | states |
|---|---|---|
| `Bytes.I16RoundTrip` | src/devices/common/adapter_helpers.hpp:57-89 | little-endian two's-complement decoding undoes encoding for every 16-bit value at every offset |
| `CannedDevice.ReceiveGrows` | src/crumbs/crumbs_canned_bus.cpp:157-226 | a write extends the journal by at most its own frame, the outputs are what replaying the journal makes of them, the acknowledgement record stays true; a SET_REPLY changes nothing a reader sees |
| `CannedDevice.ReceiveCountsWrites` | src/crumbs/crumbs_canned_bus.cpp:128-180 | every command frame that arrives counts once under its opcode, lost or not; a staged query does not |
| `CannedDevice.EmitGrows` | src/crumbs/crumbs_canned_bus.cpp:228-261 | a read changes neither outputs nor record, only the counts of injected read faults |
| `CannedDevice.WhenRepliesCome` | src/crumbs/crumbs_canned_bus.cpp:228-261 | which staged queries are answered, and which acknowledgement reads fail after how many |
| `CannedDevice.CannedBus.AddDevice` | src/crumbs/crumbs_canned_bus.cpp:111-111 | a new address gets the seeded state; a known one keeps its state and takes the type |
| `CannedDevice.CannedBus.TripWatchdog` | src/crumbs/crumbs_canned_bus.cpp:137-144 | the trip latches and is counted modulo 256; an unknown address is ignored |
| `CannedDevice.CannedBus.ApplyWrite` | src/crumbs/crumbs_canned_bus.cpp:157-226 | exactly the addressed device changes, as `Receive` says: lost, refused, rejected or applied |
| `CannedDevice.CannedBus.EmitReply` | src/crumbs/crumbs_canned_bus.cpp:228-261 | the reply is built from the state held now; no device, no staged query or an injected fault gives none |
| `SessionObjects.Session.ExecuteWithRetry` | src/crumbs/session.cpp:45-71 | attempts stop at the first success, non-retryable code or bus timeout, and at retry_count + 1; every attempt is on record |
| `SessionObjects.Session.RecordOutcome` | src/crumbs/session.cpp:211-232 | the new counters and flags for every outcome |
| `SessionObjects.Session.Send` | src/crumbs/session.cpp:127-146 | refines one session operation, the refusals before any I/O included |
| `SessionObjects.Session.Read` | src/crumbs/session.cpp:148-165 | the same for a read |
| `SessionObjects.Session.QueryRead` | src/crumbs/session.cpp:167-198 | the same for a staged query and its read, retried together |
| `SessionObjects.Session.RecordRejection` | src/crumbs/session.cpp:206-209 | one more rejection at the address, nothing else |
| `SessionObjects.Session.TakeRecovery` | src/crumbs/session.cpp:234-237 | true exactly if a recovery was pending, which is consumed |
| `SessionHistory.FlagMeaning` | src/crumbs/session.cpp:211-242 | for every history, the failure flag says that the latest outcome at the address failed, the recovery flag that a success directly followed a failure since the last take |
| `SessionHistory.FlagsFollowHistory` | src/crumbs/session.cpp:127-242 | the same over every run of operations, takes and rejections under every fault pattern |
| `Footprint.AttemptsMove` | src/crumbs/session.cpp:45-71 | the retry engine makes as many attempts as it reports, all at one address, and sends nothing but its own frame |
| `Footprint.PerformMoves` | src/crumbs/session.cpp:127-232 | each operation keeps attempts = ok + failed + retried per address, and a success makes room for one rejection |
| `Footprint.RejectionMoves` | src/crumbs/session.cpp:206-209 | rejecting the reply of a successful query keeps rejected <= ok |
| `Retries.OperationDecides` | src/crumbs/session.cpp:45-71 | every try before the reported one ended in one of the six transport codes and not in a bus timeout; the reported one is a success, another failure, or number retry_count + 1, and what it returned is returned |
| `Retries.PassingFailuresAreRetried` | src/crumbs/session.cpp:45-71 | n such failures followed by a success, with n <= retry_count, answer OK with n + 1 attempts |
| `Retries.SendIsRetried` | src/crumbs/session.cpp:295-313 | the same for a send, over the fault pattern |
| `Retries.LostRepliesAreRetried` | src/crumbs/session.cpp:167-198 | the same for a query whose first n replies are lost |
| `Answers.RefusalMeaning` | src/crumbs/session.cpp:127-198 | a bad address, an over-long frame or a closed session touches nothing and says which; every other operation makes at least one attempt |
| `SetConfirm.ReadAckMoves` | src/devices/common/set_confirm.cpp:89-109 | reading an acknowledgement sends no command and rejects at most once per successful query |
| `SetConfirm.TransmitMoves` | src/devices/common/set_confirm.cpp:134-201 | a confirmed SET sends its own frame to its own address and nothing else |
| `SetConfirmMethods.ReadAcknowledgement` | src/devices/common/set_confirm.cpp:89-109 | the loop refines `ReadAck`: up to three reads, a failed one ends it, an undecodable one is rejected and repeated |
| `SetConfirmMethods.ConfirmLoop` | src/devices/common/set_confirm.cpp:151-201 | the loop refines `Rounds`: at most three sends, a new one only after "not advanced" |
| `SetConfirmMethods.SendAndRead` | src/devices/common/set_confirm.cpp:151-165 | one round refines `RunRound`: the acknowledgement decides, whatever the send reported |
| `SetConfirmMethods.Transmit` | src/devices/common/set_confirm.cpp:134-201 | the whole call refines `TransmitConfirmed`, unconfirmed firmware included |
| `UnconfirmedSet.ConfirmationByVersion` | src/devices/common/set_confirm.cpp:113-120 | SETs are unconfirmed exactly on CRUMBS before 1600; after that the refusal flag decides what is confirmed |
| `UnconfirmedSet.UnconfirmedMeaning` | src/devices/common/set_confirm.cpp:134-143 | on such firmware, under every fault pattern: one send operation, OK if and only if its last attempt reported success, else the code of its failure |
| `Answers.GarbledAckIsReadThrice` | src/devices/common/set_confirm.cpp:89-109 | an acknowledgement that does not decode is rejected and read again, three times in all |
| `Answers.FailedAckIsGivenUp` | src/devices/common/set_confirm.cpp:89-109 | one that fails on the bus is not |
| `Answers.ConfirmedCodes` | src/devices/common/set_confirm.cpp:51-71 | every answer carries the code of what it says; a refusal's depends on its reason |
| `ExactlyOnce.ReadAckTruth` | src/devices/common/set_confirm.cpp:89-109 | an acknowledgement that was read is the record the device holds after the read |
| `ExactlyOnce.RecordTellsCount` | src/devices/common/set_confirm.hpp:55-64 | classification tells zero, one and more counted commands apart, up to 255 of them, and names the verdict |
| `ExactlyOnce.RoundMeaning` | src/devices/common/set_confirm.cpp:151-201 | the frame is sent again exactly when the device has counted nothing since the baseline (and has a record to compare) |
| `ExactlyOnce.ConfirmedSetMeaning` | src/devices/common/set_confirm.cpp:134-201 | under every fault pattern the answer says what was counted: OK is applied exactly once, a refusal or rejection counted once and not acted on, "not counted" nothing, "not sent" no send attempt at all; at most one send's worth is ever counted |
| `ExactlyOnce.NoDeviceNothingSent` | src/devices/common/set_confirm.cpp:134-150 | with no device at the address the baseline fails, the answer is "not sent", and no send is even attempted |
| `RetryBound.CleanLinkAnswer` | src/devices/common/set_confirm.cpp:134-201 | on a clean link the answer is the device's verdict when it loses at most two frames and "not counted" from three on; a device without a record that loses the first frame is answered "cannot say" and gets no second one |
| `RetryBound.FloodedExample` | src/crumbs/session.cpp:45-71 | with 255 or more retries, a fault pattern under which an ordinary `set_mode` call answers OK and was applied 257 times |
| `RetryBound.OkMeansOnceIff` | src/devices/common/set_confirm.cpp:134-201 | OK means applied exactly once, for all faults, if and only if retry_count <= 254 |
| `Capabilities.PublishedDistinct` | src/devices/common/inventory.cpp:140-350 | for every flag word the published function ids are distinct and so are the names |
| `RlhtAdapter.ParsesOutputs` | src/devices/rlht/rlht_adapter.cpp:61-87 | parsing the device's state payload recovers every output |
| `DcmtAdapter.ParsesOutputs` | src/devices/dcmt/dcmt_adapter.cpp:53-95 | in open loop parsing recovers PWM and brakes; in a closed loop with invalid readings it fails |
| `DcmtAdapter.BrakedCommandIsNotSent` | src/devices/dcmt/dcmt_adapter.cpp:307-335 | a nonzero command for a motor whose brake reads engaged sends nothing |
| `DcmtAdapter.ZeroCommandSkipsBrakes` | src/devices/dcmt/dcmt_adapter.cpp:307-345 | a 0/0 command, or no motor command, makes no brake query |
| `Brakes.WhenBrakesAreRead` | src/devices/dcmt/dcmt_adapter.cpp:307-320 | brakes are asked about before a command with a nonzero argument, and before nothing else |
| `Brakes.WhichMotorIsHeld` | src/devices/dcmt/dcmt_adapter.cpp:320-335 | the motor held back is the first asked to move whose brake bit is set |
| `Brakes.CommandsAgainstBrakes` | src/devices/dcmt/dcmt_adapter.cpp:307-345 | on a clean link a motor command is refused, naming the motor and sending nothing, if and only if a motor it asks to move has its brake engaged |
| `DcmtAdapter.TransmitMoves` | src/devices/dcmt/dcmt_adapter.cpp:307-345 | a frame that needs encoders the device lacks is never sent |
| `DeviceAdapter.EncodedShape` | src/devices/rlht/rlht_adapter.cpp:199-335 | every encoded frame is a counted command of its family, at most 27 bytes, and only the clear function encodes the clear opcode |
| `DeviceAdapter.PublishedEncodes` | src/devices/common/inventory.cpp:140-350 | arguments that meet the published bounds encode, for every flag word |
| `DeviceAdapter.AcceptedMeetsSpec` | src/devices/dcmt/dcmt_adapter.cpp:182-305 | arguments encode if and only if they meet the published bounds, DCMT `set_mode` aside |
| `DeviceAdapter.AcceptedModes` | src/devices/dcmt/dcmt_adapter.cpp:222-242 | `set_mode` encodes three names; the published ones are those whose loop the flags advertise |
| `DeviceAdapter.BadArgumentsTouchNothing` | src/devices/common/device_adapter.cpp:45-57 | a call with bad arguments answers INVALID_ARGUMENT or OUT_OF_RANGE and leaves session and devices untouched |
| `DeviceAdapter.ExtraModesNeedEncoders` | src/devices/dcmt/dcmt_adapter.cpp:307-345 | without encoders the unpublished mode names are exactly those the transmit gate refuses |
| `WireFormats.RlhtMode` | src/devices/rlht/rlht_adapter.cpp:205-218 | the mode byte of each mode name |
| `WireFormats.RlhtSetpoints` | src/devices/rlht/rlht_adapter.cpp:219-250 | each setpoint stands on the wire as its nearest tenth, halves away from zero, in two's complement |
| `WireFormats.RlhtPid` | src/devices/rlht/rlht_adapter.cpp:251-272 | each gain stands in its byte, by name |
| `WireFormats.RlhtPeriods` | src/devices/rlht/rlht_adapter.cpp:273-291 | each period stands in its two bytes, by name |
| `WireFormats.RlhtSelection` | src/devices/rlht/rlht_adapter.cpp:292-309 | each thermocouple stands in its byte, by name |
| `WireFormats.RlhtDuty` | src/devices/rlht/rlht_adapter.cpp:310-324 | each duty stands in its byte, by name |
| `WireFormats.DcmtOpenLoop` | src/devices/dcmt/dcmt_adapter.cpp:188-206 | each PWM stands in its two bytes in two's complement, by name |
| `WireFormats.DcmtBrake` | src/devices/dcmt/dcmt_adapter.cpp:207-221 | each brake stands in its byte as 0 or 1, by name |
| `WireFormats.DcmtMode` | src/devices/dcmt/dcmt_adapter.cpp:222-242 | the mode byte of each mode name |
| `WireFormats.DcmtSetpoint` | src/devices/dcmt/dcmt_adapter.cpp:243-261 | each target stands in its two bytes in two's complement, by name |
| `WireFormats.DcmtPid` | src/devices/dcmt/dcmt_adapter.cpp:262-294 | the loop byte tells the two PID functions apart, and each gain stands in its two bytes, by name |
| `WireFormats.OpcodesTellFunctions` | src/devices/dcmt/dcmt_adapter.cpp:182-305 | functions have opcodes of their own, but for the PID pair |
| `WireFormats.RlhtPublishes` | src/devices/common/inventory.cpp:140-229 | which flag publishes which heater function |
| `WireFormats.DcmtPublishes` | src/devices/common/inventory.cpp:276-350 | which flags publish which motor function |
| `Answers.ReadFailures` | src/devices/rlht/rlht_adapter.cpp:104-140 | a failed read carries the code of the bus failure, or rejects the reply once and is an internal error |
| `Answers.OfflineCalls` | src/devices/common/device_adapter.cpp:45-57 | without a session good arguments are unavailable and bad ones an argument error |
| `AdapterMethods.TransmitDcmt` | src/devices/dcmt/dcmt_adapter.cpp:307-345 | the gates in order, then the confirmed SET |
| `AdapterMethods.CallDevice` | src/devices/common/device_adapter.cpp:45-57 | arguments are judged before the session is looked at, a missing session included |
| `AdapterMethods.ReadDevice` | src/devices/rlht/rlht_adapter.cpp:104-151 | a reply the adapter cannot use is rejected once and reported as an internal error |
| `AdapterMethods.DriveSafe` | src/devices/common/safe_outputs.cpp:9-23 | every step is called, the failed ones are listed, ok means none |
| `ReadBack.ReadObserves` | src/devices/rlht/rlht_adapter.cpp:104-197 | a successful read returns exactly the requested signals of the outputs the device holds |
| `ReadBack.SetpointRoundTrip` | src/devices/rlht/rlht_adapter.cpp:219-250 | every legal setpoint pair reads back within 0.05 C, or as FAULT exactly from -3276.75 C down |
| `ReadBack.ThermocoupleRoundTrip` | src/devices/rlht/rlht_adapter.cpp:175-183 | accepted thermocouple selections read back exactly |
| `ReadBack.PwmRoundTrip` | src/devices/dcmt/dcmt_adapter.cpp:182-205 | accepted PWM pairs, negatives included, read back exactly |
| `SignalTables.RlhtSwitches` | src/devices/rlht/rlht_adapter.cpp:153-197 | mode, relays and e-stop signals of the outputs held |
| `SignalTables.RlhtTimes` | src/devices/rlht/rlht_adapter.cpp:153-197 | period and on-time signals |
| `SignalTables.RlhtTemperatures` | src/devices/rlht/rlht_adapter.cpp:153-174 | temperature signals |
| `SignalTables.RlhtSetpointsShown` | src/devices/rlht/rlht_adapter.cpp:153-174 | setpoint signals, with the sentinel as a fault |
| `SignalTables.RlhtSelections` | src/devices/rlht/rlht_adapter.cpp:175-183 | thermocouple signals, with an undefined selection as a fault |
| `SignalTables.DcmtTable` | src/devices/dcmt/dcmt_adapter.cpp:128-180 | every motor signal of the outputs held in open loop |
| `SignalTables.RequestedSignals` | src/devices/rlht/rlht_adapter.cpp:89-102 | a read returns the signals named, or the defaults when none is |
| `SignalTables.DcmtStates` | src/devices/dcmt/dcmt_adapter.cpp:53-95 | targets and values of a motor state follow its mode; a sentinel reading makes a closed-loop state unusable |
| `SignalTables.EstopCounts` | src/devices/rlht/rlht_adapter.cpp:61-87 | a heater that advertises an e-stop count shows the byte behind the state, and is unusable without it |
| `SignalTables.DutyRoundTrip` | src/crumbs/crumbs_canned_bus.cpp:201-216 | an applied duty becomes its share of the period |
| `SignalTables.RlhtModeRoundTrip` | src/devices/rlht/rlht_adapter.cpp:205-218 | an applied heater mode reads back |
| `SignalTables.DcmtModeRoundTrip` | src/devices/dcmt/dcmt_adapter.cpp:222-242 | an applied motor mode is the one held |
| `CallReadBack.AppliedCallReadsBack` | src/devices/common/device_adapter.cpp:45-57 | under any faults, an adapter call that answers OK changed the outputs by its one frame, and a later read shows exactly that |
| `CallReadBack.PwmCallReadsBack` | src/devices/dcmt/dcmt_adapter.cpp:128-205 | after an adapter call, the PWM of a successful `set_open_loop` reads back exactly |
| `CallReadBack.SetpointCallReadsBack` | src/devices/rlht/rlht_adapter.cpp:153-250 | after an adapter call, the setpoints of a successful `set_setpoints` read back within 0.05 C or as the sentinel FAULT |
| `CallReadBack.ThermocoupleCallReadsBack` | src/devices/rlht/rlht_adapter.cpp:175-183 | after an adapter call, the selection of a successful `set_tc_select` reads back exactly |
| `SafeOutputs.SafeStepIsConfirmed` | src/devices/dcmt/dcmt_adapter.cpp:359-369 | a safe step passes every gate: its call is the confirmed SET of its frame |
| `SafeOutputs.DriveEffect` | src/devices/common/safe_outputs.cpp:9-23 | any step absent from the failure list has taken effect by the end of the drive, and no step undoes another |
| `SafeOutputs.DriveOkIsSafe` | src/devices/common/safe_outputs.cpp:9-23 | a drive without failures leaves the outputs safe, for any faults |
| `SafeOutputs.SafeOutputsReadBack` | src/devices/rlht/rlht_adapter.cpp:356-370 | after such a drive a later successful read shows open loop and 0/0 PWM, or setpoints 0, open loop and both relays off |
| `SafeOutputs.EveryStepAttempted` | src/devices/common/safe_outputs.cpp:9-23 | every step is taken from where the one before ended and reaches the transport there: it sends its frame, or tried the baseline and answers "not sent"; the failure list holds exactly the steps that did not answer OK |
| `CleanDrive.CleanDriveSucceeds` | src/devices/common/safe_outputs.cpp:9-23 | on a clean link, to a device that acts on what it receives, a drive reports no failure, acknowledgements or not |
| `CleanDrive.CleanDriveClearsFault` | src/core/bread_provider_runtime.cpp:36-52 | such a drive clears the FAULT of its device, whatever was on record |
| `CleanRuns.CleanRead` | src/devices/rlht/rlht_adapter.cpp:104-197 | on such a link a read answers OK with the requested signals of what the device holds |
| `CleanRuns.CleanCall` | src/devices/common/device_adapter.cpp:45-57 | and a call that encodes and that no gate holds answers OK |
| `Watchdog.ArmMoves` | src/devices/common/watchdog.cpp:33-58 | arming sends one frame, and only to a device configured to arm whose firmware has a watchdog |
| `Watchdog.ArmIfConfigured` | src/devices/common/watchdog.cpp:33-58 | refines `Arm`: a little-endian timeout, or nothing |
| `Arming.LaunchTriesToArm` | src/core/runtime_state.cpp:165-171 | under any faults startup sends each armable device a SET_WATCHDOG with its timeout, low byte first |
| `Arming.RecoveryTriesToArm` | src/core/bread_provider_runtime.cpp:36-52 | so does a recovery |
| `Arming.HealthTriesToArm` | src/devices/common/watchdog.cpp:60-75 | so does a health read that finds the device disarmed and not tripped |
| `Arming.LaunchArms` | src/core/runtime_state.cpp:165-171 | on a clean link every armable device that acts on what it receives holds its timeout after startup, whatever the other devices do |
| `Arming.RecoveryArms` | src/core/bread_provider_runtime.cpp:36-52 | and after a recovery |
| `Arming.HealthArms` | src/core/bread_provider_runtime.cpp:184-200 | and after a health read that finds it disarmed and not tripped; the read shows its status |
| `Watchdog.Query` | src/devices/common/watchdog.cpp:77-96 | refines `QueryStatus`: a reply that does not parse is rejected once |
| `Keepalive.Feeder.constructor` | src/devices/common/watchdog_keepalive.cpp:21-32 | the armable devices, each due one interval after arming; the interval is a quarter of the timeout to the millisecond, at least 1 ms |
| `Keepalive.Interval` | src/devices/common/watchdog_keepalive.cpp:21-32 | four intervals are at most the timeout and miss it by less than 4 ms; below 4 ms the interval is 1 ms |
| `Keepalive.Feeder.NoteContact` | src/devices/common/watchdog_keepalive.cpp:51-65 | exactly the entries of that id are done |
| `Keepalive.Feeder.FeedDue` | src/devices/common/watchdog_keepalive.cpp:84-103 | exactly the due entries are queried, in order, and the earliest next time is found |
| `Keepalive.Feeder.DoTick` | src/devices/common/watchdog_keepalive.cpp:72-103 | refines `Tick`: capped, cap reached, or fed |
| `KeepaliveRuns.NothingAfterNone` | src/devices/common/watchdog_keepalive.cpp:72-103 | a tick that returns nothing is absorbing: no later tick returns a time or queries any device |
| `KeepaliveRuns.QueriedOnceWhenDue` | src/devices/common/watchdog_keepalive.cpp:84-103 | a tick queries a device exactly when its entry is due before the cap, and then once |
| `KeepaliveRuns.ContactEndsFeeding` | src/devices/common/watchdog_keepalive.cpp:51-65 | after the first call to a device no tick ever queries it, and no other entry is touched |
| `KeepaliveRuns.QueriesAreSpaced` | src/devices/common/watchdog_keepalive.cpp:72-103 | the queries ticks make to one device are at least an interval apart, from its due time on and before the cap |
| `KeepaliveRuns.TrafficBound` | src/devices/common/watchdog_keepalive.cpp:21-103 | k queries to a device imply that it was armed and that k * max(timeout / 4, 1 ms) < cap |
| `KeepaliveRuns.GapBound` | src/devices/common/watchdog_keepalive.cpp:21-103 | if ticks come at most L late, an armable device is queried within max(timeout / 4, 1 ms) + L of arming and of each query, until its first call or the cap |
| `KeepaliveRuns.TickReturnsAhead` | src/devices/common/watchdog_keepalive.cpp:72-103 | what a tick returns lies ahead and is the cap or the due time of a fed device |
| `KeepaliveRuns.Run` | src/devices/common/watchdog_keepalive.cpp:105-114 | the thread's loop ends in the state and after the ticks that `RunFrom` says |
| `KeepaliveRuns.TickCosts` | src/devices/common/watchdog_keepalive.cpp:84-103 | every query of a tick comes out of what its entry can still be queried before the cap |
| `KeepaliveRuns.RunBound` | src/devices/common/watchdog_keepalive.cpp:105-114 | from any state: queries stay within the allowance, ticks within two more than queries and calls seen, calls seen are those of the waits, and a thread not stopped ends with nothing left to feed |
| `KeepaliveRuns.RunFromStart` | src/devices/common/watchdog_keepalive.cpp:21-114 | from arming: at most two ticks, plus cap / interval for each armed device, plus one per call seen |
| `FeedTraffic.FeedQueries` | src/devices/common/watchdog_keepalive.cpp:84-103 | on the bus, feeding makes a watchdog query of every device it names and no other attempt |
| `Interleaving.ReachableInvariant` | src/core/runtime_state.cpp:300-305 | in every interleaving locks are taken in rank order and the feeder emits only to devices still fed |
| `Interleaving.NoFeedingAfterContact` | src/devices/common/watchdog_keepalive.cpp:51-70 | once `note_contact(d)` has returned, every later frame to d is the dispatch thread's |
| `Interleaving.NoDeadlock` | src/core/runtime_state.cpp:285-305 | until both threads have finished, one of them can step |
| `Inventory.SortedUnique` | src/devices/common/inventory.cpp:526-529 | with distinct keys there is one sorted order, whatever sort finds it |
| `Inventory.PlaceProbes` | src/devices/common/inventory.cpp:531-598 | the loop's lists, counters and matched flags are those of the probes' fates |
| `Inventory.FirstExclusion` | src/devices/common/inventory.cpp:608-614 | the first exclusion at an address |
| `Inventory.ListMissing` | src/devices/common/inventory.cpp:600-616 | the unmatched ids in order, with the probe failure of their address if there is one |
| `Inventory.BuildInventory` | src/devices/common/inventory.cpp:524-619 | refines `Build` |
| `InventoryTheorems.BuildIgnoresOrder` | src/devices/common/inventory.cpp:524-619 | every permutation of distinct probes builds the same inventory |
| `InventoryTheorems.Partition` | src/devices/common/inventory.cpp:536-598 | as many entries as probes; a probe is a device if and only if it is supported, of a known type and not configured as another type at its address, and otherwise is excluded with that reason |
| `InventoryTheorems.ConfiguredOnceOrMissing` | src/devices/common/inventory.cpp:555-616 | a configured id is missing if and only if no accepted probe is at its address, and otherwise is on exactly one expected device |
| `InventoryTheorems.MissingInOrder` | src/devices/common/inventory.cpp:600-604 | the missing list names the configured devices that are not found, in the order of the configuration |
| `InventoryTheorems.GeneratedIdsDistinct` | src/devices/common/inventory.cpp:368-371 | generated ids of different devices differ, whatever the configuration |
| `InventoryTheorems.GeneratedIndexCounts` | src/devices/common/inventory.cpp:533-581 | the index in a generated id is the number of devices of that type at lower addresses |
| `InventoryTheorems.DistinctIdsIff` | src/devices/common/inventory.cpp:555-581 | device ids are pairwise distinct if and only if no configured id whose device is found equals the id generated for an extra probe: its type and the number of accepted probes of that type at lower addresses |
| `InventoryTheorems.PlainIdsAreDistinct` | src/devices/common/inventory.cpp:555-581 | if no configured id has the form of a generated one, device ids are distinct whatever is found on the bus |
| `InventoryTheorems.IdClashExample` | src/devices/common/inventory.cpp:555-581 | a configuration under which two devices share an id |
| `InventoryTheorems.BuildIsFaithful` | src/devices/common/inventory.cpp:583-598 | every device publishes what its flags offer, without the closed loops when it has no encoders |
| `InventoryTheorems.BuildEntry` | src/devices/common/inventory.cpp:410-451 | every entry carries the version, and a queried profile, of its probe, and the timeout, encoders, id and label of its configuration, or the defaults of an extra device |
| `InventoryTheorems.ConfiguredEntry` | src/devices/common/inventory.cpp:583-598 | a configured id that is found is on an entry that follows its spec and its probe |
| `InventoryTheorems.MissingDetails` | src/devices/common/inventory.cpp:600-616 | a missing device has a detail if and only if its address was probed, and it says why that probe was excluded |
| `InventoryTheorems.BuildDevicesDistinct` | src/devices/common/inventory.cpp:524-619 | one probe per address and no id clash give devices distinct in id and address |
| `Startup.StaleTolerance` | src/core/startup.cpp:41-55 | up to two stale replies before each real answer give the record that none would give |
| `Startup.ThirdStaleExcludes` | src/core/startup.cpp:41-55 | three stale version replies exclude the device, whatever follows |
| `Startup.AtMostSixQueries` | src/core/startup.cpp:59-181 | a probe makes one to six queries, at most three unless the device is supported |
| `Startup.CapsNeverGate` | src/core/startup.cpp:128-160 | the caps exchange changes the profile of a supported record and nothing else |
| `ProbeMeaning.SupportedMeaning` | src/core/startup.cpp:59-160 | which version replies make a probe supported, and which profile the capability reply makes |
| `ProbeMeaning.UnsupportedMeaning` | src/core/startup.cpp:66-126 | which fault of the version reply gives which status |
| `ProbeMeaning.RlhtBaseline` | src/devices/common/inventory.cpp:453-470 | what a heater without a capability report publishes |
| `ProbeMeaning.DcmtBaseline` | src/devices/common/inventory.cpp:453-470 | what a motor module without one publishes |
| `Startup.Port.Query` | src/core/startup.cpp:41-55 | the re-query loop refines `QueryReply` |
| `Startup.Port.ProbeDevice` | src/core/startup.cpp:59-181 | the staged probe refines `Probe` |
| `Discovery.SweepCandidates` | src/core/startup.cpp:193-226 | the loop over the candidates refines `Sweep` |
| `Discovery.RunDiscovery` | src/core/startup.cpp:183-236 | refines `Discover`; a failed bus scan is an error |
| `Discovery.EntriesNameTheirSource` | src/core/startup.cpp:183-226 | every entry of a discovery says whether a scan or the configured list found it |
| `Discovery.PrefixProbed` | src/core/startup.cpp:183-226 | the candidates split into a probed prefix and an unprobed suffix; a probe starts exactly when the clock read before the deadline |
| `Discovery.NotProbedExactly` | src/core/startup.cpp:228-236 | "not probed" is the detail of exactly the configured devices whose address is in the suffix, and they are all missing |
| `StaleDiscovery.ProbeTakesExchange` | src/core/startup.cpp:59-181 | a probe consumes exactly its own answers, stale ones included, and records what the real ones decide |
| `StaleDiscovery.DiscoveryIgnoresStaleReplies` | src/core/startup.cpp:183-236 | with up to two stale replies before each real answer of each probe, the whole discovery reports what it would report with none |
| `RuntimeModel.RecoverMoves` | src/core/bread_provider_runtime.cpp:36-52 | a recovery sends the safe frames the policy allows and the arming frame, and nothing else |
| `RuntimeModel.StepMoves` | src/core/bread_provider_runtime.cpp:137-300 | what each read, call, health read and tick may send, and to whom |
| `RuntimeModel.LaunchMoves` | src/core/runtime_state.cpp:115-171 | what startup may send |
| `CleanRuns.StartupInOrder` | src/core/runtime_state.cpp:159-171 | startup sends all safe frames before it arms any watchdog |
| `CleanRuns.RecoveryInOrder` | src/core/bread_provider_runtime.cpp:36-52 | so does a recovery |
| `CleanRuns.ReadHandlesRecovery` | src/core/bread_provider_runtime.cpp:247-275 | a successful read with a recovery pending drives the device once, under the safe policy; any other drives nothing |
| `CleanRuns.CallHandlesRecovery` | src/core/bread_provider_runtime.cpp:277-300 | so does a call |
| `CleanRuns.UnknownRequests` | src/core/bread_provider_runtime.cpp:247-287 | unknown devices and functions are not found and touch no bus |
| `CleanRuns.ProviderReads` | src/core/bread_provider_runtime.cpp:247-275 | on a clean link a provider read answers OK with what the device holds |
| `CleanRuns.ProviderCalls` | src/core/bread_provider_runtime.cpp:277-300 | and a provider call that no gate holds answers OK |
| `RuntimeTheorems.TripStaysLatched` | src/devices/common/watchdog.cpp:33-75 | in every run a latched trip stays set between any two points without a `clear_watchdog_trip` call for that address |
| `RuntimeTheorems.StartupKeepsTrips` | src/core/runtime_state.cpp:115-171 | startup keeps trips latched and never sends the clear opcode |
| `RuntimeTheorems.ClearSentOnlyOnCall` | src/core/bread_provider_runtime.cpp:277-300 | the clear opcode is sent only by such a call, to a device whose flags carry both watchdog bits |
| `RuntimeTheorems.ClearNeedsBothFlags` | src/devices/common/inventory.cpp:222-228 | the clear function is published if and only if both watchdog bits are set |
| `RuntimeTheorems.SoundThroughout` | src/crumbs/session.cpp:206-232 | over every run, startup included: attempts = ok + failed + retried per address, a success on record iff ok > 0, rejected <= ok, and every acknowledgement record true |
| `RuntimeTheorems.FaultMeansLastDriveFailed` | src/core/bread_provider_runtime.cpp:157-165 | at every point of every run health reports FAULT exactly when the device's most recent drive failed; under `leave` there is no drive and no FAULT |
| `RuntimeTheorems.MetricMeaning` | src/core/runtime_state.cpp:115-132 | at every point of every run health shows "left" under `leave`, else "set" or "not set" as the most recent drive ended |
| `RuntimeTheorems.LeaveSendsOnlyArming` | src/core/bread_provider_runtime.cpp:36-52 | under `leave` a read, health read or tick sends nothing but the arming frame of its device |
| `RuntimeTheorems.LeaveStartupOnlyArms` | src/core/runtime_state.cpp:115-171 | under `leave` startup sends nothing but arming frames |
| `RuntimeTheorems.NoClosedLoopWithoutEncoders` | src/devices/common/inventory.cpp:585-598 | in every run a device entry of a DCMT without encoders is never sent SET_SETPOINT, SET_PID or a closed-loop SET_MODE |
| `ConfiguredRuns.NoClosedLoopAsConfigured` | src/devices/common/inventory.cpp:585-598 | in every run of a provider built from a configuration and any probes, nothing ever sent to the address of a DCMT configured without encoders is such a frame, startup included |
| `ConfiguredRuns.ContactEndsFeeding` | src/core/bread_provider_runtime.cpp:254-284 | once a device has been read or called, no later tick of the run queries it |
| `RuntimeTheorems.StartupNeedsNoEncoders` | src/core/runtime_state.cpp:115-171 | startup sends no such frame to any DCMT |
| `RuntimeTheorems.BrakedCallSendsNothing` | src/core/bread_provider_runtime.cpp:277-300 | a call whose motor command meets an engaged brake fails and sends nothing |
| `SafeRuns.LaunchSafeOrFault` | src/core/runtime_state.cpp:115-171 | startup under the safe policy leaves every device safe or its FAULT on record |
| `SafeRuns.SafeOrFaultSinceDrive` | src/core/bread_provider_runtime.cpp:36-52 | at every point of every run, if no call to a device follows its most recent drive (startup's, or a recovery's inside a read or a call to the device itself), its outputs are safe or health reports FAULT |
| `SafeRuns.SafeOrFaultUntilCalled` | src/core/bread_provider_runtime.cpp:36-52 | in particular at every point before the first call to a device |
| `ProviderReadBack.ProviderCallOutputs` | src/core/bread_provider_runtime.cpp:277-300 | an OK call leaves the outputs its frame makes, if the policy is `leave` or no recovery is pending after the adapter's part; otherwise they are safe or FAULT is on record |
| `ProviderReadBack.ProviderCallReadsBack` | src/core/bread_provider_runtime.cpp:247-300 | in the first case a later provider read shows exactly those outputs |
| `ProviderReadBack.PwmReadsBack` | src/core/bread_provider_runtime.cpp:247-300 | PWM, negatives included, then reads back exactly |
| `ProviderReadBack.SetpointsReadBack` | src/core/bread_provider_runtime.cpp:247-300 | setpoints then read back within 0.05 C or as the sentinel FAULT |
| `ProviderReadBack.ThermocouplesReadBack` | src/core/bread_provider_runtime.cpp:247-300 | a thermocouple selection reads back exactly, recovery or not |
| `ProviderReadBack.RecoveryUndoesCall` | src/core/bread_provider_runtime.cpp:36-52 | a run in which a call asking for PWM answers OK and leaves both motors at zero, with no FAULT |
| `WatchdogHealth.StatusIsTrue` | src/devices/common/watchdog.cpp:77-96 | a watchdog status that was read, after any retries, is what the device holds |
| `WatchdogHealth.UnusableStatusIsRejected` | src/devices/common/watchdog.cpp:77-96 | a reply of another opcode or under five bytes gives no status and is rejected once |
| `WatchdogHealth.HealthIsTrue` | src/core/bread_provider_runtime.cpp:172-200 | health reports armed, timeout, tripped and trip count as they are |
| `WatchdogHealth.HealthRearmsOnlyDisarmed` | src/devices/common/watchdog.cpp:60-75 | a health read sends nothing to a device that is tripped, armed, failing or not configured to arm |
| `Arming.HealthStatistics` | src/core/bread_provider_runtime.cpp:157-171 | health knows exactly the devices of the inventory and carries the statistics on record at their address |
| `ProviderObject.Provider.constructor` | src/core/runtime_state.cpp:135-171 | startup refines `Launch`: safe outputs first, then the watchdogs, then the feeder's list |
| `ProviderObject.Provider.ApplyOutputsPolicies` | src/core/runtime_state.cpp:115-132 | the policy on every device in order, with its metric |
| `ProviderObject.Provider.HandleRecovery` | src/core/bread_provider_runtime.cpp:36-52 | refines `Recover`: the flag is consumed, then safe outputs, then arming |
| `ProviderObject.Provider.Read` | src/core/bread_provider_runtime.cpp:247-275 | refines `Read`: contact is noted first, a success handles a recovery |
| `ProviderObject.Provider.Call` | src/core/bread_provider_runtime.cpp:277-300 | refines `Call`: unknown devices and unpublished functions never reach the adapter |
| `ProviderObject.Provider.DeviceHealth` | src/core/bread_provider_runtime.cpp:137-218 | refines `Health`: no bus traffic for a device whose last operation failed, and a disarmed, untripped device is re-armed |
| `ProviderObject.Provider.KeepaliveTick` | src/devices/common/watchdog_keepalive.cpp:67-103 | a tick changes the feed list and the bus as `FeedTick` says |

## Left out

- Transport framing, CRC and the bus scan (`src/crumbs/crumbs_transport.cpp`): they wrap codec functions that are not part of the repository; the model's transport may lose, fail or deliver.
- Configuration loading and validation (`src/config/`): only the facts it gives are used (distinct ids and addresses, a 16-bit watchdog timeout).
- Process start, logging, host checks, the ADPP transport and message plumbing: I/O and formatting.
- Message texts, labels' hexadecimal addresses and signal names: texts are reduced to what health and callers distinguish, and signal ids are enumerated.
- NaN, infinity and IEEE rounding of setpoints: setpoints are reals, rounded half away from zero.
- Firmware behaviour beyond the canned device, reboots included: brakes are an arbitrary value that never changes, and a recovery follows failed operations only.
- Wrap-around of the 64-bit statistics and of tick times: both are unbounded integers.
- The capability set itself: a device carries the flags it was built from (`offered`), of which the published functions are a function; published signals are not modelled.
- `build_seed_probes` and the mock bus setup: a seeded inventory is `Build` on any list of probes.
- The sort algorithm: an insertion sort stands for `std::sort`, which agrees with it on distinct keys.
- A probe's queries run against arbitrary answers, not against the canned device, which answers neither version nor caps queries.
- In whole-run theorems a tick falls between two requests, not inside one; `Interleaving` covers the finer grain for the traffic of one device.
- Reinitialisation and the destruction order of session, transport and feeder: a run is one startup and what follows.
- The offline runtime, a provider with an inventory but no session, is modelled for calls (`AdapterMethods.CallDevice`) only.
