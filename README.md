# StoneGate control plane: a Dafny model

StoneGate is a control-plane server for laboratory instruments. A C++ backend
keeps a registry of devices, such as lasers, LN2 cooling controllers, pulse sequencers,
quantum registers and QEC modules. It exchanges JSON messages with clients over
a WebSocket: legacy `control` commands answered with `control_ack`, and
JSON-RPC-like requests answered with `rpc_result` envelopes. It records device
streams into JSONL files, caches measurement history, merges physics
overrides, and runs scripts through registered runners. Around it sit client
SDKs in C++ and Python, a toolbox command-line client, QEC helper libraries,
and a small QEC-health HTTP service.

This project models the sequential core of that system in Dafny and proves what
it promises:

- `json.dfy`: the JSON value model the code relies on. Objects iterate in
  ascending key order, as `std::map` does. Typed reads convert or throw.
  Python's truthiness, `or`, `dict.get` and `str()` are modelled here too.
- `error_catalog.dfy`: the catalogued error codes and details, `code_string`,
  and the E2400 message form.
- `device_ops.dfy`: the operation enum, its string verbs, and the default
  `perform_action` forwarding.
- `registry.dfy`: the device registry and the descriptor and measurement-update
  envelopes.
- `dispatch.dfy`, `set_actions.dfy`, `qec_decode.dfy`, `ws_names.dfy`: the
  WebSocket server's message dispatch and validation order, the
  `set:{...}` alias expansion, the `qec.decode` majority tally, the
  schematic-name sanitiser, and the FNV-1a 64-bit content hash.
- `recorder.dfy`: measurement normalisation and filtering, `start` validation,
  file-base sanitising, the session map, and the per-stream scheduling step.
- `state_cache.dfy`: the bounded per-device measurement history.
- `physics.dfy`: the deep override merge and the physics engine's node, edge
  and controller maps.
- `reception.dfy`: first-success runner dispatch for scripts.
- `devices.dfy`: the concrete devices' command handlers as small state
  machines.
- `launch_args.dfy`: the server's port and simulator-mode argument loop.
- `ws_endpoint.dfy`, `sdk_client.dfy`: the client SDK helpers, namely `ws://` URL
  parsing, `eval_condition`, poll flattening, the `record_stop` guard and
  `apply_safe_state`.
- `toolbox_cli.dfy`, `toolbox_client.dfy`: the toolbox clients' argument
  checks, request ids, response matching, error mapping and JSONL recording
  loader.
- `qec_helpers.dfy`, `qec_health.dfy`: the QEC helper functions and the
  QEC-health recommendation service.

Sockets, threads, clocks, randomness and the filesystem are outside the model.
Where the code reads one of them, the model takes the value as a parameter.

## Model

| member | source | states |
|---|---|---|
| DeviceOps.OperationFromString | backend/include/Device.hpp:43-54 | a string maps to `Unknown` exactly when it is not one of the nine known verbs |
| DeviceOps.OperationToString | backend/include/Device.hpp:56-69 | every known operation is named by a known verb, and `Unknown` (only it) by `"unknown"` |
| DeviceOps.OperationRoundTrip | backend/include/Device.hpp:43-69 | parsing an operation's name gives back the operation, for all ten operations including `Unknown` |
| DeviceOps.VerbRoundTrip | backend/include/Device.hpp:43-69 | naming the operation parsed from a known verb gives back that verb |
| DeviceOps.OperationToStringInjective | backend/include/Device.hpp:56-69 | two operations with the same name are the same operation |
| DeviceOps.DefaultCommand | backend/include/Device.hpp:72-78 | the forwarded command is an object with exactly one key; that key parses back to the operation and maps to the given args |
| Decimal.NatText | backend/include/core/ErrorCatalog.hpp:40-42 | the decimal text of a natural number is a non-empty run of digits without a leading zero |
| Decimal.IntText | backend/include/core/ErrorCatalog.hpp:40-42 | the decimal text of an integer is non-empty, starts with a minus sign exactly when the integer is negative, and is all digits otherwise |
| Decimal.NatTextRoundTrip | backend/include/core/ErrorCatalog.hpp:40-42 | the decimal digits written for a natural number read back as that number |
| Decimal.IntTextRoundTrip | backend/include/core/ErrorCatalog.hpp:40-42 | `std::to_string` of an integer is a well-formed integer text (optional minus, then digits) that reads back as the integer |
| Decimal.IntTextInjective | backend/include/core/ErrorCatalog.hpp:40-42 | different integers have different decimal texts |
| ErrorCatalog.CodeString | backend/include/core/ErrorCatalog.hpp:40-42 | a code string is never empty, and for a non-negative code it is all digits |
| ErrorCatalog.CodeStringOfE2400 | backend/include/core/ErrorCatalog.hpp:11-42 | the code string of `E2400_CONTROL_REJECTED` is `"2400"` |
| ErrorCatalog.CodeStringInjective | backend/include/core/ErrorCatalog.hpp:40-42 | two codes with the same code string are equal |
| ErrorCatalog.FormatControlRejected | backend/include/core/ErrorCatalog.hpp:44-54 | the message starts with the E2400 prefix, continues with the detail, or with `"invalid request"` when the detail is empty, and is longer than the prefix |
| ErrorCatalog.FormatDetailRoundTrip | backend/include/core/ErrorCatalog.hpp:44-54 | the detail read back from a formatted message is the detail given, or `"invalid request"` for the empty detail |
| ErrorCatalog.FormatInjective | backend/include/core/ErrorCatalog.hpp:44-54 | two details format alike only when they are equal, or when they are the empty detail and `"invalid request"` |
| Registry.FindDevice | backend/src/DeviceRegistry.cpp:16-22 | the lookup finds nothing exactly when no slot holds a device with the id; what it finds has that id and is one of the registered slots |
| Registry.FindDeviceIsFirst | backend/src/DeviceRegistry.cpp:18-20 | the device found is the one in the first matching slot |
| Registry.FindAfterAppend | backend/src/DeviceRegistry.cpp:6-22 | registering a device never changes what an already-resolving id finds, so a duplicate registered later is shadowed; an id unresolved before resolves to the new device only if it matches |
| Registry.PollEntry | backend/src/DeviceRegistry.cpp:37 | a poll entry has exactly the keys `id` and `measurement`, holding the device's id and its reading |
| Registry.DeviceRegistry.constructor | backend/src/DeviceRegistry.cpp:4 | a new registry holds no devices |
| Registry.DeviceRegistry.RegisterDevice | backend/src/DeviceRegistry.cpp:6-9 | the device, null or duplicate included, is appended after all earlier devices, which keep their order |
| Registry.DeviceRegistry.ForEachDevice | backend/src/DeviceRegistry.cpp:11-14 | the callback sees each registered slot exactly once, in registration order |
| Registry.DeviceRegistry.GetDevice | backend/src/DeviceRegistry.cpp:16-22 | the result is the first non-null device with the id, or none |
| Registry.DeviceRegistry.GetDescriptorGraph | backend/src/DeviceRegistry.cpp:24-31 | the graph is an array with one descriptor per device, the i-th being the i-th device's descriptor |
| Registry.DeviceRegistry.PollAll | backend/src/DeviceRegistry.cpp:33-40 | the updates are an array with one `{id, measurement}` entry per device, in registration order |
| DescriptorProtocol.DescriptorProtocol.constructor | backend/src/DescriptorProtocol.cpp:4-5 | the protocol builds from the registry it is given |
| DescriptorProtocol.DescriptorProtocol.BuildDescriptorMessage | backend/src/DescriptorProtocol.cpp:7-12 | the message has exactly the keys `type` (`"descriptor"`) and `devices`, an array with one descriptor per registered device, in order |
| DescriptorProtocol.DescriptorProtocol.BuildMeasurementUpdate | backend/src/DescriptorProtocol.cpp:14-19 | the message has exactly the keys `type` (`"measurement_update"`) and `updates`, an array with one poll entry per registered device, in order |
| StateCache.Capped | backend/src/core/state_cache.cpp:21 | a capped history holds the newest `min(size, 1000)` entries of the history, in order |
| StateCache.LastN | backend/src/core/state_cache.cpp:29-30 | the query result is the newest `min(max, size)` entries, in order |
| StateCache.PushKeepsNewest | backend/src/core/state_cache.cpp:17-22 | after a push the history is within the cap, ends with the pushed measurement, and before it keeps the newest earlier entries in order; below the cap nothing is dropped |
| StateCache.LastNOfLastN | backend/src/core/state_cache.cpp:24-32 | asking for the last n entries of the last m (n ≤ m) is asking for the last n |
| StateCache.StateCache.constructor | backend/include/core/state_cache.h:29-41 | a new cache holds no metadata and no histories |
| StateCache.StateCache.UpsertDeviceMeta | backend/src/core/state_cache.cpp:12-15 | the metadata for the id is replaced, every other id's metadata and all histories are unchanged, and the cache invariant is kept |
| StateCache.StateCache.PushMeasurement | backend/src/core/state_cache.cpp:17-22 | only that device's history changes: it becomes the capped old history plus the new entry; metadata is unchanged and every history stays within 1000 entries filed under its own id |
| StateCache.StateCache.GetMeasurements | backend/src/core/state_cache.cpp:24-32 | an unknown id gives an empty list; otherwise the newest `min(max, size)` entries, in order; `max` defaults to 100 |
| StateCache.StateCache.GetLast | backend/src/core/state_cache.cpp:34-39 | nothing exactly when the id is unknown or its history is empty; otherwise the newest entry |
| StateCache.StateCache.ListDeviceMeta | backend/src/core/state_cache.cpp:41-47 | one entry per stored id: as many entries as ids, each equal to the stored metadata for its id, no id twice |
| Physics.DeepMerge | backend/src/core/PhysicsEngine.cpp:90-103 | when either side is not an object the result is `src`; when both are, the result is an object whose keys are the union of both sides' keys |
| Physics.DeepMergeField | backend/src/core/PhysicsEngine.cpp:95-102 | per key of a merge of two objects: a key only in `dest` keeps its value, a pair of nested objects merges recursively, and any other `src` value overwrites |
| Physics.DeepMergeIdempotent | backend/src/core/PhysicsEngine.cpp:90-103 | merging the same overrides a second time changes nothing |
| Physics.DeepMergeSelf | backend/src/core/PhysicsEngine.cpp:90-103 | merging a value into itself gives it back |
| Physics.DeepMergeEmpty | backend/src/core/PhysicsEngine.cpp:95-102 | merging an empty object of overrides leaves an object unchanged |
| Physics.MergedFieldIsDeepMerge | backend/src/core/PhysicsEngine.cpp:95-102 | every key of the merged object holds the value the one-key step computes for it |
| Physics.MergeInto | backend/src/core/PhysicsEngine.cpp:90-103 | the in-place merge, which walks `src`'s keys and updates `dest` one key at a time, ends with exactly the value `DeepMerge` specifies |
| Physics.MergeFields | backend/src/core/PhysicsEngine.cpp:95-102 | the key loop over any order that lists each `src` key once produces the fields of the merge |
| Physics.MergeComplete | backend/src/core/PhysicsEngine.cpp:95-102 | once every `src` key has been written and every `dest`-only key kept, the fields are those of the merge |
| Physics.MergeKey | backend/src/core/PhysicsEngine.cpp:96-101 | one loop step writes the merged value of its key and changes no other key |
| Physics.Flows | backend/src/core/PhysicsEngine.cpp:81-86 | a controller has a flow exactly when its state has a `flow_rate_Lmin` that reads as a number |
| Physics.SpecNumber | backend/src/core/PhysicsEngine.cpp:112-128 | field by field: when `specs` holds the key and its value reads as a number that number is used; when `specs` or the key is absent, or the value is not a number (the swallowed `get<double>` throw), the fallback is used |
| Physics.NodeStep | backend/src/core/PhysicsEngine.cpp:112-133 | a node's entry has exactly the keys `temperature_K` and `noise_coeff`; the temperature is `max(1, setpoint_default + delta)` when the spec gives a numeric `setpoint_default` and `max(1, 300 + delta)` otherwise, never below 1.0; the noise is the spec's numeric `noise_coeff`, otherwise 0.01 |
| Physics.PhysicsEngine.constructor | backend/src/core/PhysicsEngine.cpp:12-15 | a new engine has no overrides, no overrides path, no nodes, edges or controller states, and no cached step |
| Physics.PhysicsEngine.RegisterNode | backend/src/core/PhysicsEngine.cpp:65-67 | the node entry for the id is overwritten and nothing else changes |
| Physics.PhysicsEngine.RegisterEdge | backend/src/core/PhysicsEngine.cpp:69-71 | the edge is appended, duplicates kept, and nothing else changes |
| Physics.PhysicsEngine.UpdateControllerState | backend/src/core/PhysicsEngine.cpp:73-75 | the controller state for the id is overwritten and nothing else changes |
| Physics.PhysicsEngine.ComputeStep | backend/src/core/PhysicsEngine.cpp:78-137 | one entry per registered node, each with exactly `temperature_K` (at least 1.0) and `noise_coeff` |
| Physics.PhysicsEngine.LoadDeviceOverrides | backend/src/core/PhysicsEngine.cpp:46-58 | succeeds exactly when the file parses; on success the overrides, their path and the cached step are replaced, on failure nothing changes |
| Physics.PhysicsEngine.ReloadOverrides | backend/src/core/PhysicsEngine.cpp:60-63 | false, changing nothing, when no overrides path was loaded; otherwise a reload from the same path that succeeds exactly when the file parses |
| Physics.ComputeStepDefaults | backend/src/core/PhysicsEngine.cpp:104-128 | in the step the engine computes, each node's temperature is its effective spec's setpoint (300 K when absent or not a number) plus its cooling delta, floored at 1 K, and its noise is the spec's `noise_coeff` (0.01 when absent or not a number), each field falling back on its own |
| Physics.StepEntry | backend/src/core/PhysicsEngine.cpp:104-133 | the step's entry for a registered node is the one its part spec merged with its overrides, and its cooling delta, determine |
| Physics.OverrideSpecWins | backend/src/core/PhysicsEngine.cpp:107-114 | a number an override gives under `specs` is the one the node's merged spec reads, whatever the part spec held |
| Physics.DeltaWithoutFlows | backend/src/core/PhysicsEngine.cpp:117-121 | with no controller flows a node's cooling delta is zero |
| Physics.DeltaNonPositive | backend/src/core/PhysicsEngine.cpp:117-121 | non-negative controller flows never warm a node |
| Reception.Attempts | backend/src/backend/reception.cpp:14-17 | the runners offered one instruction number at most the runners registered, and each call is about that instruction |
| Reception.ScriptCallsFrom | backend/src/backend/reception.cpp:12-19 | the calls made from instruction i on are its attempts, followed by the rest of the script only when it was handled |
| Reception.ScriptCallsStep | backend/src/backend/reception.cpp:12-19 | one turn of the script loop: a handled instruction lets the loop go on, an unhandled one ends the calls there and the script fails |
| Reception.AttemptsStopAtFirst | backend/src/backend/reception.cpp:14-17 | for one instruction the runners are called in registration order up to and including the first that accepts, and none after it |
| Reception.AttemptsAllWhenUnhandled | backend/src/backend/reception.cpp:14-17 | when no runner accepts, every runner is called once, in order |
| Reception.StopsAtFirstFailure | backend/src/backend/reception.cpp:18 | the calls of a script are those of the script cut just after its first unhandled instruction, and the script fails |
| Reception.MoreRunnersKeepSuccess | backend/src/backend/reception.cpp:7-21 | registering one more runner never makes a script that ran fail |
| Reception.ScriptEdgeCases | backend/src/backend/reception.cpp:11-21 | an empty script succeeds; a non-empty script fails when no runner is registered |
| Reception.ReceptionManager.constructor | backend/src/backend/reception.cpp:5 | a new manager has no runners |
| Reception.ReceptionManager.RegisterRunner | backend/src/backend/reception.cpp:7-9 | the runner is appended after the earlier ones, which keep their precedence |
| Reception.ReceptionManager.RunScript | backend/src/backend/reception.cpp:11-21 | the result is true exactly when every instruction is accepted by some runner, and the calls made are exactly those the first-success, stop-at-first-failure order prescribes |
| Reception.ReceptionManager.Offer | backend/src/backend/reception.cpp:13-17 | an instruction is handled exactly when some runner accepts it, and the runners called are those up to the first that accepts |
| LaunchArgs.Stoi | backend/src/main.cpp:34-56 | whatever `std::stoi` reads is within the 32-bit `int` range; anything else throws and yields no value |
| LaunchArgs.StoiOfDigits | backend/src/main.cpp:31-38 | an all-digit argument reads as its decimal value when that fits in an `int`, and throws otherwise |
| LaunchArgs.StoiNatText | backend/src/main.cpp:34 | `stoi` reads back the decimal text of every non-negative `int` |
| LaunchArgs.InitialPort | backend/src/main.cpp:27-39 | without an all-digit first argument the port starts at 9001 |
| LaunchArgs.ResolveArgs | backend/src/main.cpp:26-58 | the argument loop, processing arguments left to right, ends with exactly the launch `Resolve` specifies |
| LaunchArgs.ScanHelpIff | backend/src/main.cpp:44-49 | the scan from argument i stops for help exactly when some later argument is `-h` or `--help` |
| LaunchArgs.HelpIff | backend/src/main.cpp:44-49 | the server prints its usage and exits exactly when some argument is `-h` or `--help`, wherever it stands |
| LaunchArgs.ScanSimIff | backend/src/main.cpp:43-51 | when the scan serves, sim mode is on exactly when it was on already or some later argument is `--sim` or `-s` |
| LaunchArgs.SimIff | backend/src/main.cpp:43-51 | when the server starts, simulator mode is on exactly when some argument is `--sim` or `-s` |
| LaunchArgs.ScanReaches | backend/src/main.cpp:44-58 | arguments without a help flag can be skipped over: the scan from i is the scan from k with the port and mode reached at k |
| LaunchArgs.TrailingSimWins | backend/src/main.cpp:51 | with no help flag, a last `--sim` or `-s` serves on 8080 in simulator mode, overriding any earlier port setting |
| LaunchArgs.TrailingPortWins | backend/src/main.cpp:52-54 | with no help flag, a closing `--port X` or `-p X` whose value `stoi` reads serves on that port: the last port setting wins |
| LaunchArgs.TrailingPortAssignWins | backend/src/main.cpp:55-57 | with no help flag, a last `--port=X` whose value `stoi` reads serves on that port |
| LaunchArgs.ScanInert | backend/src/main.cpp:44-58 | arguments that are no flag change neither the port nor the mode |
| LaunchArgs.DefaultLaunch | backend/src/main.cpp:27-39 | without any flag the server serves on 9001 outside simulator mode, or on the value of an all-digit first argument that fits in an `int` |
| Devices.ReadWith | backend/src/devices/QECModuleDevice.cpp:35-37 | a command member is absent exactly when the key is missing, throws exactly when it is present with a value `get<T>` rejects, and otherwise is the converted value |
| Devices.AncillaQubit.constructor | backend/src/devices/AncillaQubitDevice.cpp:3-4 | a new ancilla has last measurement 0 and role `"syndrome"` |
| Devices.AncillaQubit.Type | backend/src/devices/AncillaQubitDevice.cpp:7-16 | the type is the one the descriptor reports, next to this device's id and status `"ok"` |
| Devices.AncillaQubit.Descriptor | backend/src/devices/AncillaQubitDevice.cpp:9-16 | the descriptor has exactly four members and reports the current role |
| Devices.AncillaQubit.ReadMeasurement | backend/src/devices/AncillaQubitDevice.cpp:18-24 | the drawn bit becomes the last measurement and is reported as a `state` in {0,1}, next to the unchanged role |
| Devices.AncillaQubit.PerformAction | backend/src/devices/AncillaQubitDevice.cpp:26-29 | `reset` sets the last measurement to 0; `set_role` sets the role when it is a string and throws otherwise |
| Devices.LaserController.constructor | backend/src/devices/LaserControllerDevice.cpp:3-4 | a new laser has phase 0.0 and intensity 1.0 |
| Devices.LaserController.Type | backend/src/devices/LaserControllerDevice.cpp:7-21 | the type is the one the descriptor reports, next to this device's id and status `"ok"` |
| Devices.LaserController.Descriptor | backend/src/devices/LaserControllerDevice.cpp:9-21 | the descriptor's specs give a phase precision of 0.001 |
| Devices.LaserController.ReadMeasurement | backend/src/devices/LaserControllerDevice.cpp:23-28 | the reading has exactly `phase_rad` and `intensity`, equal to the current fields |
| Devices.LaserController.PerformAction | backend/src/devices/LaserControllerDevice.cpp:30-33 | `set_phase` changes only the phase and `set_intensity` only the intensity; a non-numeric member throws, and a bad `set_phase` stops `set_intensity` from being applied |
| Devices.PhotonicDetector.constructor | backend/src/devices/PhotonicDetectorDevice.cpp:3-4 | a new detector has dark rate 0.02 |
| Devices.PhotonicDetector.Type | backend/src/devices/PhotonicDetectorDevice.cpp:7-20 | the type is the one the descriptor reports, next to this device's id and status `"ok"` |
| Devices.PhotonicDetector.Descriptor | backend/src/devices/PhotonicDetectorDevice.cpp:9-20 | the descriptor's `specs.dark_rate` is the current dark rate |
| Devices.PhotonicDetector.ReadMeasurement | backend/src/devices/PhotonicDetectorDevice.cpp:22-29 | the reading is 1000 counts and the current dark rate, each plus its noise draw |
| Devices.PhotonicDetector.PerformAction | backend/src/devices/PhotonicDetectorDevice.cpp:31-33 | `zero` sets the dark rate to 0.0; any other command leaves it unchanged |
| Devices.PulseSequencer.constructor | backend/src/devices/PulseSequencerDevice.cpp:3-4 | a new sequencer has no sequence loaded, is at step 0 and is not running |
| Devices.PulseSequencer.Type | backend/src/devices/PulseSequencerDevice.cpp:7-25 | the type is the one the descriptor reports, next to this device's id and a status of `"running"` or `"idle"` that follows the running flag |
| Devices.PulseSequencer.Descriptor | backend/src/devices/PulseSequencerDevice.cpp:9-25 | the descriptor reports the loaded sequence, and its status is `"running"` exactly when the reading reports running |
| Devices.PulseSequencer.ReadMeasurement | backend/src/devices/PulseSequencerDevice.cpp:27-32 | the reading has exactly `current_step` and `running`, equal to the current fields |
| Devices.PulseSequencer.PerformAction | backend/src/devices/PulseSequencerDevice.cpp:34-39 | `load_sequence` must be a string and sets the sequence; `start` sets running and `stop` clears it, `stop` winning when both are present; `step` adds exactly 1; without any of the four keys nothing changes |
| Devices.QecModule.constructor | backend/src/devices/QECModuleDevice.cpp:3-4 | a new module has code type `"surface"`, syndrome 0 and no correction applied |
| Devices.QecModule.Type | backend/src/devices/QECModuleDevice.cpp:7-25 | the type is the one the descriptor reports, next to this device's id and status `"ok"` |
| Devices.QecModule.Descriptor | backend/src/devices/QECModuleDevice.cpp:9-25 | the descriptor reports the current code type |
| Devices.QecModule.ReadMeasurement | backend/src/devices/QECModuleDevice.cpp:27-32 | the reading reports the current syndrome and correction flag |
| Devices.QecModule.PerformAction | backend/src/devices/QECModuleDevice.cpp:34-38 | `extract_syndrome`, `apply_correction` and `set_code_type` each set only their own field, in that order; a member of the wrong type throws and stops the members after it |
| Devices.Zeros | backend/src/devices/QuantumRegisterDevice.cpp:4 | a register of n zeros has n entries, all bits |
| Devices.Flipped | backend/src/devices/QuantumRegisterDevice.cpp:30-33 | flipping keeps the register's length |
| Devices.FlippedBits | backend/src/devices/QuantumRegisterDevice.cpp:30-33 | flipping a register of bits gives a register of bits |
| Devices.FlipTwice | backend/src/devices/QuantumRegisterDevice.cpp:30-33 | applying the gate twice restores the register |
| Devices.ResetThenFlip | backend/src/devices/QuantumRegisterDevice.cpp:28-34 | a command with both `reset_all` and `apply_gate` leaves every qubit at 1, since the reset runs first |
| Devices.QuantumRegister.constructor | backend/src/devices/QuantumRegisterDevice.cpp:3-4 | a new register of a given size holds that many zeros |
| Devices.QuantumRegister.Type | backend/src/devices/QuantumRegisterDevice.cpp:7-20 | the type is the one the descriptor reports, next to this device's id and status `"ok"` |
| Devices.QuantumRegister.Descriptor | backend/src/devices/QuantumRegisterDevice.cpp:9-20 | the descriptor's `size` is the register size |
| Devices.QuantumRegister.ReadMeasurement | backend/src/devices/QuantumRegisterDevice.cpp:22-26 | the reading's `state_vector` has one entry per qubit, as many as the descriptor's size, each the qubit's current value |
| Devices.QuantumRegister.PerformAction | backend/src/devices/QuantumRegisterDevice.cpp:28-34 | `reset_all` zeroes the register, then `apply_gate` flips every qubit; the register keeps its length and holds only bits |
| Devices.QuantumRegister.Fill | backend/src/devices/QuantumRegisterDevice.cpp:29 | every qubit becomes 0 |
| Devices.QuantumRegister.FlipAll | backend/src/devices/QuantumRegisterDevice.cpp:32 | every qubit q becomes 1 - q, in place |
| Devices.Thermocouple.constructor | backend/src/devices/ThermocoupleDevice.cpp:3-4 | a new thermocouple has offset 0.0 |
| Devices.Thermocouple.Type | backend/src/devices/ThermocoupleDevice.cpp:7-21 | the type is the one the descriptor reports, next to this device's id and status `"ok"` |
| Devices.Thermocouple.Descriptor | backend/src/devices/ThermocoupleDevice.cpp:9-21 | the descriptor's specs give the range [-200, 500] |
| Devices.Thermocouple.ReadMeasurement | backend/src/devices/ThermocoupleDevice.cpp:23-28 | the reading has exactly `temperature_C`, which is 300 plus the offset plus the noise draw |
| Devices.Thermocouple.PerformAction | backend/src/devices/ThermocoupleDevice.cpp:30-32 | `zero` sets the offset to 0.0; any other command leaves it unchanged |
| Devices.ControllerState | backend/src/devices/LN2CoolingControllerDevice.cpp:49-69 | the pushed state has exactly `flow_rate_Lmin` and `setpoint_K`, holding the flow and the setpoint |
| Devices.ControllerStateFeedsFlows | backend/src/devices/LN2CoolingControllerDevice.cpp:65-72 | after a push, the physics step sees the pushed flow for that controller, and every other controller keeps its flow |
| Devices.LN2CoolingController.constructor | backend/src/devices/LN2CoolingControllerDevice.cpp:4-5 | a new controller has setpoint 77.0 and flow 0.0 and keeps the physics engine it is given |
| Devices.LN2CoolingController.Type | backend/src/devices/LN2CoolingControllerDevice.cpp:8-41 | the type is the one the descriptor reports, next to this device's id and status `"ok"` |
| Devices.LN2CoolingController.Descriptor | backend/src/devices/LN2CoolingControllerDevice.cpp:10-41 | the descriptor declares the setpoint range [60, 300] K and a maximum flow of 10.0 |
| Devices.LN2CoolingController.ReadMeasurement | backend/src/devices/LN2CoolingControllerDevice.cpp:43-59 | the reading is the setpoint and the flow plus their noise draws; an attached engine gets the noisy flow and the exact setpoint as this controller's state, and nothing else in it changes |
| Devices.LN2CoolingController.PerformAction | backend/src/devices/LN2CoolingControllerDevice.cpp:61-73 | `set_setpoint` and `set_flow_rate` each set only their own field, with no clamping; when both read, an attached engine gets the new settings as this controller's state; a bad member throws before that push |
| SetActions.LastUnderscore | backend/src/WebSocketServer.cpp:411 | the position found holds `_` and no `_` follows it; none is found only when the key has no `_` |
| SetActions.SetTargets | backend/src/WebSocketServer.cpp:394-416 | every `set` entry is written to one or two keys, and each of them starts with `set_` |
| SetActions.SetKeysPassThrough | backend/src/WebSocketServer.cpp:397 | a key that already starts with `set_` is written to itself alone, for any device |
| SetActions.DeviceAliases | backend/src/WebSocketServer.cpp:399-407 | for `laser_controller`, `phase_rad` goes to `set_phase` and `intensity`/`power`/`optical_power` to `set_intensity`; for `ln2_cooling_controller`, `temperature_K`/`setpoint_K` go to `set_setpoint` and `flow_rate_Lmin` to `set_flow_rate` |
| SetActions.GenericTargets | backend/src/WebSocketServer.cpp:399-415 | any key k that is not an alias of its device (so also a laser `phase` or `wavelength_nm`, or an LN2 `pressure`) goes to `set_<k>`, and also to `set_<prefix>` exactly when k has an underscore after position 0, the prefix ending at its last underscore |
| SetActions.AllTargets | backend/src/WebSocketServer.cpp:394-416 | every key written by the expansion starts with `set_` |
| SetActions.AllTargetsMember | backend/src/WebSocketServer.cpp:394-416 | a key is written by the expansion exactly when it is a target of one of the applied entries |
| SetActions.ExpandSetKeys | backend/src/WebSocketServer.cpp:385-418 | the expanded action's keys are the copied keys plus every target of every `set` entry |
| SetActions.ExpandSetLastWriter | backend/src/WebSocketServer.cpp:394-416 | a target holds the value of the last entry, in iteration order, that writes it |
| SetActions.ExpandSetUntouched | backend/src/WebSocketServer.cpp:388-391 | a key no entry writes is present only if it was copied, and then keeps its value |
| SetActions.MappedActionPassThrough | backend/src/WebSocketServer.cpp:382-383 | an action that is not an object, or has no object-valued `set`, is returned unchanged |
| SetActions.MappedActionDropsSet | backend/src/WebSocketServer.cpp:385-391 | an expanded action is an object and never has a `set` key |
| SetActions.MappedActionKeepsOthers | backend/src/WebSocketServer.cpp:388-391 | every other key of the action keeps its value unless a `set` entry writes over it |
| SetActions.MappedActionWritesTargets | backend/src/WebSocketServer.cpp:394-416 | every target of a `set` entry is present, with the value of the entry that comes last in key order among those writing it |
| SetActions.WriteOne | backend/src/WebSocketServer.cpp:397 | writing one key is merging the one-entry map of that key |
| SetActions.WriteTwo | backend/src/WebSocketServer.cpp:410-414 | writing two keys in turn is merging the map of both |
| SetActions.CopyWithoutSet | backend/src/WebSocketServer.cpp:388-391 | the copy loop yields every entry of the action except `set` |
| SetActions.CopyInOrder | backend/src/WebSocketServer.cpp:388-391 | the copy loop, over any order listing every key, yields every entry except `set` |
| SetActions.WriteEntry | backend/src/WebSocketServer.cpp:395-415 | one entry's value is written to each of its targets, and every other key is left alone |
| SetActions.MapSetAction | backend/src/WebSocketServer.cpp:381-419 | the expansion computed in place is exactly the mapped action the lemmas above describe |
| SetActions.WriteEntries | backend/src/WebSocketServer.cpp:394-416 | the write loop over the entries in a given order produces the expansion in that order |
| SchematicNames.CharImage | backend/src/WebSocketServer.cpp:109-117 | one input character contributes at most one character, and only a kept one |
| SchematicNames.Mapped | backend/src/WebSocketServer.cpp:109-117 | mapping never lengthens the input and yields only `[A-Za-z0-9_.-]` |
| SchematicNames.TrimLeadingDots | backend/src/WebSocketServer.cpp:121 | the result is a suffix of the input that does not start with `.` |
| SchematicNames.TrimTrailingDots | backend/src/WebSocketServer.cpp:122 | the result is a prefix of the input that does not end with `.` |
| SchematicNames.MappedAppend | backend/src/WebSocketServer.cpp:109-117 | the character loop works character by character: mapping a concatenation concatenates the mappings |
| SchematicNames.Capped | backend/src/WebSocketServer.cpp:109-119 | the name before trimming has at most 96 characters, all kept ones |
| SchematicNames.CappedAfterBreak | backend/src/WebSocketServer.cpp:118 | once 96 characters are out, the rest of the input no longer matters |
| SchematicNames.MappedOfKept | backend/src/WebSocketServer.cpp:109-117 | mapping leaves a string of kept characters unchanged |
| SchematicNames.TrimLeadingKeeps | backend/src/WebSocketServer.cpp:121 | a string that does not start with `.` is not trimmed at the front |
| SchematicNames.TrimTrailingKeeps | backend/src/WebSocketServer.cpp:122 | a string that does not end with `.` is not trimmed at the back |
| SchematicNames.TrimBoth | backend/src/WebSocketServer.cpp:120-122 | trimming both ends keeps only kept characters, never lengthens, and leaves no dot at either end |
| SchematicNames.SanitizedIsSafe | backend/src/WebSocketServer.cpp:106-125 | every sanitised name is safe: only `[A-Za-z0-9_.-]`, 1 to 96 characters, no dot at either end |
| SchematicNames.SafeNameIsFixed | backend/src/WebSocketServer.cpp:106-125 | a safe name sanitises to itself |
| SchematicNames.SanitizeIdempotent | backend/src/WebSocketServer.cpp:106-125 | sanitising twice is the same as sanitising once |
| SchematicNames.SanitizeSchematicName | backend/src/WebSocketServer.cpp:106-125 | the sanitiser's loops compute exactly the specified name, and the name is safe |
| SchematicNames.MapCapped | backend/src/WebSocketServer.cpp:107-119 | the character loop with its break at 96 computes the capped mapping |
| SchematicNames.TrimDots | backend/src/WebSocketServer.cpp:120-122 | the two trimming loops remove the leading dots and then the trailing dots |
| HexText.HexCharValue | backend/src/WebSocketServer.cpp:56-60 | every nibble renders as a lowercase hex digit that reads back as that nibble |
| HexText.Hex16 | backend/src/WebSocketServer.cpp:57-61 | the rendering has exactly 16 characters |
| HexText.NibblesReassemble | backend/src/WebSocketServer.cpp:59-61 | the 16 nibbles the loop extracts put back together give the 64-bit value |
| HexText.Hex16RoundTrip | backend/src/WebSocketServer.cpp:56-62 | the rendering is 16 lowercase hex digits, most significant first, that read back as the same 64-bit value |
| HexText.RenderHex16 | backend/src/WebSocketServer.cpp:56-62 | the rendering loop writes nibble k at position 15 - k, which is the 16-digit rendering |
| ContentHash.HashBytes | backend/src/WebSocketServer.cpp:51-55 | the hashing loop computes FNV-1a over 64 bits: offset basis 1469598103934665603, then per byte an xor and a multiplication by 1099511628211, modulo 2^64 |
| ContentHash.Fnv1a64Hex | backend/src/WebSocketServer.cpp:50-63 | the result is the FNV-1a hash as 16 lowercase hex digits, from which the hash reads back |
| QecDecode.EntryVote | backend/src/WebSocketServer.cpp:896-901 | a non-object entry is skipped, and every vote cast is for a non-negative qubit |
| QecDecode.AddVote | backend/src/WebSocketServer.cpp:900-901 | adding a vote keeps the counts well-formed: each tallied qubit is listed exactly once |
| QecDecode.VoteCount | backend/src/WebSocketServer.cpp:895-902 | a reference count never exceeds the number of entries |
| QecDecode.TallyAllDefined | backend/src/WebSocketServer.cpp:895-902 | the tally fails exactly when reading some entry's `qubit` or `value` throws |
| QecDecode.TallyMatchesVotes | backend/src/WebSocketServer.cpp:894-902 | a qubit is tallied exactly when it received a 0 or 1 vote, and its pair counts the 0-votes and the 1-votes; skipped entries, negative qubits and other values count nowhere |
| QecDecode.Correction | backend/src/WebSocketServer.cpp:905 | the correction is 1 exactly when the ones outnumber the zeros, and 0 otherwise (ties included) |
| QecDecode.CorrectionsMeaning | backend/src/WebSocketServer.cpp:903-907 | each correction entry names a qubit that received a vote, with round 0, and its correction is 1 exactly when that qubit's 1-votes outnumber its 0-votes |
| QecDecode.OrderCoversTallies | backend/src/WebSocketServer.cpp:904-912 | the number of correction entries equals the number of tallied qubits |
| QecDecode.TallyVotes | backend/src/WebSocketServer.cpp:894-902 | the tally loop, updating the counts in place one entry at a time, computes the specified tally or fails on the first entry that throws |
| QecDecode.TallyNoneAfter | backend/src/WebSocketServer.cpp:897-898 | once an entry throws, the whole tally fails |
| QecDecode.DecodeResult | backend/src/WebSocketServer.cpp:908-913 | the result has exactly `job_id`, `status`, `corrections` and `statistics`; the statistics give the number of tallied qubits and the number of input entries |
| Dispatch.RpcOk | backend/src/WebSocketServer.cpp:429-431 | a success envelope has exactly `type` (`"rpc_result"`), `id`, `ok` (true) and `result` |
| Dispatch.Rejected | backend/src/WebSocketServer.cpp:421-428 | a failure envelope has exactly `type` (`"rpc_result"`), `id`, `ok` (false) and `error` |
| Dispatch.ControlAck | backend/src/WebSocketServer.cpp:448-472 | a `control_ack` has `type`, `cmd` and `ok` as given, plus exactly the extra members |
| Dispatch.ReloadAck | backend/src/WebSocketServer.cpp:434-445 | the reload reply is an ok `control_ack` for `reload_overrides` that says whether some simulated device reloaded |
| Dispatch.RecordStartReply | backend/src/WebSocketServer.cpp:861-871 | the `record.start` reply is an `rpc_result` for the request, ok exactly when the recorder started |
| Dispatch.RecordStopReply | backend/src/WebSocketServer.cpp:872-886 | the `record.stop` reply is an `rpc_result` for the request, ok exactly when the recorder knew the recording |
| Dispatch.KeyArray | backend/src/WebSocketServer.cpp:490-494 | the keys become a string array of the same length |
| Dispatch.RpcInLog | backend/src/WebSocketServer.cpp:490-500 | the `rpc.in` log is at level `info` and carries the request id, the method and the params' keys in iteration order; it is missing (the handler throws) exactly when a `device.action` `device_id` or a graph `name` is present but not a string |
| Dispatch.RpcInFields | backend/src/WebSocketServer.cpp:495-498 | every `rpc.in` log has exactly `rpc_id`, `method` and `params_keys` before its method-specific member |
| Dispatch.Handle | backend/src/WebSocketServer.cpp:346-1000 | a message that is not an object answers nothing and logs nothing, and no message logs more than once |
| Dispatch.RejectedMeaning | backend/src/WebSocketServer.cpp:421-428 | every RPC rejection carries code `"2400"`, a message from which the detail reads back (`"invalid request"` for an empty one), and the detail and extra members under `details` |
| Dispatch.RpcAnswersCarryId | backend/src/WebSocketServer.cpp:475-990 | every answer to an RPC request is an `rpc_result` for its id, or for the fresh random id when the id is empty; a request whose id is not a string is dropped; the only log is `rpc.in` |
| Dispatch.RpcMethodAnswers | backend/src/WebSocketServer.cpp:502-990 | every method handler answers only with `rpc_result`s for the request id |
| Dispatch.MissingIdUsesFreshId | backend/src/WebSocketServer.cpp:476-481 | a request with a missing or empty id is rejected under a freshly drawn id with `rpc request missing id`, before anything is logged |
| Dispatch.UnknownMethodRejected | backend/src/WebSocketServer.cpp:989 | a method the dispatcher does not know is logged once as `rpc.in` and then rejected with `unknown rpc method`, the method echoed in `details` |
| Dispatch.CapabilitiesHandled | backend/src/WebSocketServer.cpp:70-87 | every capability `backend.info` advertises has a handler except `backend.logs`, which is answered as an unknown method |
| Dispatch.RpcDeviceActionChecks | backend/src/WebSocketServer.cpp:849-860 | `device.action` hands the mapped action to the first device with the id exactly when the id is non-empty, `action` is an object and the device is registered; checks run in that order and the first failure is the one reported; the acknowledgement prepared for success is ok with the device id |
| Dispatch.RpcDeviceActionAck | backend/src/WebSocketServer.cpp:849-860 | the reply sent is an ok `rpc_result` exactly when the checks pass and the device's `perform_action` returns; when it throws nothing is sent |
| Dispatch.ControlDeviceActionChecks | backend/src/WebSocketServer.cpp:448-472 | the `action`/`device_action` command makes the same checks, logs exactly one `control.device_action` event (`info` on success, `warn` otherwise), and prepares a `control_ack` for the cmd that is ok exactly when the mapped action is handed to the device |
| Dispatch.ControlDeviceActionAck | backend/src/WebSocketServer.cpp:448-472 | the `control_ack` sent is ok exactly when the checks pass and the device's `perform_action` returns; when it throws nothing is sent |
| Dispatch.QecDecodeSilentIff | backend/src/WebSocketServer.cpp:887-902 | `qec.decode` answers nothing exactly when reading its parameters throws: params that are not an object, an entry whose `qubit` or `value` is neither a number nor a boolean (`get<int>` accepts both), or a `job_id` that is not a string |
| Dispatch.QecDecodeAnswer | backend/src/WebSocketServer.cpp:887-916 | a successful `qec.decode` answers ok with status `"done"`, the job id (the request id by default), one correction per voted qubit, and the number of entries |
| Dispatch.NoRecorderNoRecording | backend/src/WebSocketServer.cpp:861-873 | without a recorder, neither `record.start` nor `record.stop` ever reaches it |
| Dispatch.RpcMethodNoRecorder | backend/src/WebSocketServer.cpp:861-873 | without a recorder, the method switch never calls into the recorder |
| Dispatch.OtherMessages | backend/src/WebSocketServer.cpp:993-996 | a message that is neither a control command nor an RPC is ignored when its `cmd` is empty, and otherwise answered with a failed `control_ack` for that cmd whose error is the E2400 `invalid request` message; nothing is logged |
| Dispatch.Descriptors | backend/src/WebSocketServer.cpp:502-505 | `devices.list` lists one descriptor per registered device, in registration order |
| Dispatch.Readings | backend/src/WebSocketServer.cpp:506-509 | `devices.poll` lists one `{id, measurement}` per registered device, in registration order |
| Dispatch.Server.constructor | backend/src/WebSocketServer.cpp:346 | the server handles messages with the registry and the recorder it is given |
| Dispatch.Server.HandleMessage | backend/src/WebSocketServer.cpp:346-1000 | the logs broadcast are those of the decision; the reply sent and the device action attempted are those the decision calls for, with no acknowledgement when the device's `perform_action` throws; the recorder's sessions change exactly as `record.start`/`record.stop` prescribe |
| Dispatch.Server.Execute | backend/src/WebSocketServer.cpp:434-886 | carrying out an outcome sends its reply, hands its action to the device and acknowledges it only when `perform_action` returns, answers `devices.list`/`devices.poll` from the registry snapshots, and runs the recorder's start or stop; the recorder's invariant is kept |
| Recorder.MetricEntry | backend/src/core/Recorder.cpp:90-94 | a numeric field becomes `{value: <double>}`, and an object with a numeric `value` is kept as it is; either way the entry has a numeric `value` |
| Recorder.FlatMetrics | backend/src/core/Recorder.cpp:84-96 | the metrics of a flat object are exactly its metric fields other than `ts` and `state`, each converted as one entry |
| Recorder.Normalize | backend/src/core/Recorder.cpp:68-104 | a non-object becomes `{ts: now, state: "unknown", measurements: {}}`; a result has exactly `ts` (integer), `state` (string) and `measurements` (object); normalising fails exactly when a present `ts` is not a number or boolean, or a present `state` is not a string |
| Recorder.NormalizeKeepsTsAndState | backend/src/core/Recorder.cpp:71-97 | the raw object's own `ts` and `state` win over the defaults (the given time, `"unknown"`) |
| Recorder.NormalizeSchemaShape | backend/src/core/Recorder.cpp:77-82 | an object-valued `measurements` is copied verbatim |
| Recorder.NormalizeFlat | backend/src/core/Recorder.cpp:84-96 | otherwise a key is a metric exactly when it is a metric field other than `ts` and `state`, with the converted value |
| Recorder.NormalizeIdempotent | backend/src/core/Recorder.cpp:68-104 | normalising a normalised record gives it back, whatever the default time |
| Recorder.Filter | backend/src/core/Recorder.cpp:106-118 | filtering leaves non-objects, records without object `measurements`, and an empty metric list untouched; otherwise only `measurements` changes, and it stays an object |
| Recorder.FilterKeepsListed | backend/src/core/Recorder.cpp:111-116 | after filtering, a metric is present exactly when it was listed and present before, with the same value |
| Recorder.FilterEmptyIsIdentity | backend/src/core/Recorder.cpp:109 | an empty metric list keeps every metric |
| Recorder.FilterIdempotent | backend/src/core/Recorder.cpp:106-118 | filtering twice by the same list is filtering once |
| Recorder.ErrorText | backend/src/WebSocketServer.cpp:861-871 | the text of a catalogued rejection is its detail |
| Recorder.StringField | backend/src/core/Recorder.cpp:149-150 | a string field with a default reads the field when it is a string, the default when absent, and fails on any other type |
| Recorder.RateField | backend/src/core/Recorder.cpp:133 | `rate_hz` defaults to 1.0 and fails exactly when present and not a number |
| Recorder.ParseStream | backend/src/core/Recorder.cpp:127-142 | a non-object entry is skipped; an accepted stream has a non-empty device id and a positive rate |
| Recorder.ParseStreamsValid | backend/src/core/Recorder.cpp:126-143 | the parsed streams are one per object entry, each with a non-empty device id and a positive rate |
| Recorder.ParseStart | backend/src/core/Recorder.cpp:120-172 | accepted parameters always hold at least one stream |
| Recorder.ParseStartRejections | backend/src/core/Recorder.cpp:121-144 | a non-object is rejected as `params not object`; a missing, non-array or empty `streams` as `streams required`; streams with no object entry as `no valid streams` |
| Recorder.ParseStartStreams | backend/src/core/Recorder.cpp:123-144 | accepted parameters have an array `streams` and one valid stream per object entry, at least one |
| Recorder.ParseStreamDefaults | backend/src/core/Recorder.cpp:133-141 | a stream without `rate_hz` samples at 1 Hz, and its metrics are string elements of its `metrics` array |
| Recorder.StringItemsAreStrings | backend/src/core/Recorder.cpp:137-141 | every metric name kept was a string element of the array |
| Recorder.SanitizedBase | backend/src/core/Recorder.cpp:172-177 | the sanitised base keeps the length of a non-empty base and holds only letters, digits, `_`, `-` and `.`; an empty base becomes `recording` |
| Recorder.SanitizedBaseMeaning | backend/src/core/Recorder.cpp:174-176 | each allowed character stays where it was and every other one becomes `_` |
| Recorder.SanitizedBaseIdempotent | backend/src/core/Recorder.cpp:172-177 | sanitising a sanitised base changes nothing |
| Recorder.SanitizeFileBase | backend/src/core/Recorder.cpp:172-177 | the in-place loop over the base computes the sanitised base |
| Recorder.IntervalMs | backend/src/core/Recorder.cpp:241 | the sampling interval is at least 1 ms, and it is `1000 / rate` truncated when that is at least 1 |
| Recorder.InitialSchedule | backend/src/core/Recorder.cpp:235-244 | there is one schedule entry per stream, in order, with its configuration, an interval of at least 1 ms, and the start time as its first due time |
| Recorder.StartSession | backend/src/core/Recorder.cpp:120-226 | a created session is valid, has the fresh id and no lines yet; validation errors come before the file's open failure, which is `open file failed` |
| Recorder.StopSessions | backend/src/core/Recorder.cpp:311-319 | stop removes exactly the named session and reports a result exactly when it was running; other sessions are untouched |
| Recorder.StopExactlyOnce | backend/src/core/Recorder.cpp:311-319 | a second stop of the same id finds nothing and changes nothing |
| Recorder.StopReportsSession | backend/src/core/Recorder.cpp:324-336 | stopping a running session reports its id, path, sample count, start time and stop time |
| Recorder.SampleLine | backend/src/core/Recorder.cpp:256-266 | a sample line has exactly `type` (`"sample"`), `ts_ms`, `device_id` (the stream's), `state` and `measurements` |
| Recorder.StreamLines | backend/src/core/Recorder.cpp:251-278 | polling one stream writes at most one line, and only when the stream is due |
| Recorder.Advance | backend/src/core/Recorder.cpp:251-279 | a due stream is next due one interval after now; a stream not due keeps its due time; the configuration and interval never change |
| Recorder.PassLines | backend/src/core/Recorder.cpp:250-282 | a pass writes at most one line per stream |
| Recorder.PassSchedule | backend/src/core/Recorder.cpp:250-282 | a pass keeps one schedule entry per stream |
| Recorder.PassScheduleEach | backend/src/core/Recorder.cpp:250-280 | the pass advances each stream independently |
| Recorder.NextWake | backend/src/core/Recorder.cpp:249-281 | the next wake time is never after now + 250 ms |
| Recorder.NextWakeIsEarliest | backend/src/core/Recorder.cpp:281 | no stream is due before the wake time |
| Recorder.NextWakeAttained | backend/src/core/Recorder.cpp:249-281 | the wake time is the 250 ms cap or some stream's due time |
| Recorder.SleepMs | backend/src/core/Recorder.cpp:285-287 | the sleep lies in [1, 100] ms, and it is the time left to the wake time when that does |
| Recorder.SessionAfterPass | backend/src/core/Recorder.cpp:246-282 | a pass keeps the session valid, advances the schedule, appends the pass's lines, and counts exactly the lines written |
| Recorder.PassLeavesNothingDue | backend/src/core/Recorder.cpp:250-280 | after a pass no stream is overdue |
| Recorder.PassLinesOnlyWhenDue | backend/src/core/Recorder.cpp:250-282 | a pass writes no more lines than there are due streams |
| Recorder.Recorder.constructor | backend/src/core/Recorder.cpp:120 | a new recorder holds no sessions |
| Recorder.Recorder.Start | backend/src/core/Recorder.cpp:120-226 | start returns the fresh id and the path and registers the session under that id exactly when validation and opening succeed; otherwise it returns the error and the sessions are unchanged; every stored session stays valid under its own id |
| Recorder.Recorder.Stop | backend/src/core/Recorder.cpp:311-337 | stop removes the session before reporting it, as `StopSessions` prescribes |
| Recorder.Recorder.RunPass | backend/src/core/Recorder.cpp:246-287 | one pass of the worker loop replaces only that session, by the session after the pass, and returns the clamped sleep to the next wake |
| Recorder.PassOver | backend/src/core/Recorder.cpp:249-282 | the loop over the streams computes the pass's schedule, lines, their count and the wake time |
| Recorder.PollStream | backend/src/core/Recorder.cpp:251-280 | polling one stream yields its lines and its advanced schedule |
| WsEndpoint.Find | sdk/cpp/include/stonegate_api.hpp:55-65 | `find` gives none exactly when the character is absent, and otherwise its first position |
| WsEndpoint.ParseWsUrl | sdk/cpp/include/stonegate_api.hpp:47-76 | a URL without the `ws://` prefix fails and leaves the output as it was; otherwise parsing succeeds exactly when the host is non-empty; a parsed host holds no `:` or `/`, the port is non-empty and holds no `/`, and the target starts with `/` |
| WsEndpoint.SplitHostPort | sdk/cpp/include/stonegate_api.hpp:65-75 | splitting at the first colon succeeds exactly when the host is non-empty and never yields an empty port |
| WsEndpoint.Render | sdk/cpp/include/stonegate_api.hpp:47-51 | a rendered endpoint starts with `ws://` |
| WsEndpoint.SplitPath | sdk/cpp/include/stonegate_api.hpp:54-63 | the target is everything from the first slash after the prefix |
| WsEndpoint.SplitColon | sdk/cpp/include/stonegate_api.hpp:65-73 | the host is the text before the first colon and the port the text after it, or 80 when that is empty |
| WsEndpoint.ParseRender | sdk/cpp/include/stonegate_api.hpp:47-76 | an endpoint with a non-empty host, a non-empty port and a target starting with `/` parses back from its URL |
| WsEndpoint.ParseDefaults | sdk/cpp/include/stonegate_api.hpp:56-68 | `ws://host` connects to port 80 with target `/` |
| WsEndpoint.ParseEmptyPort | sdk/cpp/include/stonegate_api.hpp:69-72 | an empty port after the colon also falls back to 80 |
| WsEndpoint.FindFirst | sdk/cpp/include/stonegate_api.hpp:55-65 | `find` returns the first occurrence |
| SdkClient.RequestFrame | sdk/cpp/include/stonegate_api.hpp:107-108 | a request frame has exactly `type` (`"rpc"`), `id`, `method` and `params` |
| SdkClient.PythonRequestId | sdk/python/stonegate_sdk/stonegate_api/__init__.py:40 | a Python request id is `py_` followed by 32 hex digits, 35 characters in all |
| SdkClient.PythonRequestIdInjective | sdk/python/stonegate_sdk/stonegate_api/__init__.py:40 | different UUIDs give different request ids |
| SdkClient.PythonParams | sdk/python/stonegate_sdk/stonegate_api/__init__.py:41 | falsy params go out as an empty object, and truthy ones as they are |
| SdkClient.RequestFrameAnswered | sdk/cpp/include/stonegate_api.hpp:107-130 | every reply the server gives to a frame the client builds is an `rpc_result` for the frame's id, so the client's match on type and id finds it |
| SdkClient.EvalConditionCpp | sdk/cpp/include/stonegate_api.hpp:181-189 | each of the six operators compares as named, and any other operator is false |
| SdkClient.EvalConditionPy | sdk/python/stonegate_sdk/stonegate_api/__init__.py:102-117 | no reading is false whatever the operator, and an unknown operator raises `Unknown op: <op>` |
| SdkClient.EvalConditionEditionsAgree | sdk/python/stonegate_sdk/stonegate_api/__init__.py:102-117 | given a reading and a known operator, the Python and C++ editions decide alike |
| SdkClient.EvalConditionNegations | sdk/cpp/include/stonegate_api.hpp:181-189 | `<`/`>=`, `>`/`<=` and `==`/`!=` are negations of each other |
| SdkClient.Unwrap | sdk/cpp/include/stonegate_api.hpp:154-155 | a value that is not an object with `value` is kept as it is |
| SdkClient.Flatten | sdk/cpp/include/stonegate_api.hpp:146-158 | a device's flat reading has the keys of its metrics (of the inner `measurements` when the reading is in recorder shape), and nothing for a non-object |
| SdkClient.UpdateList | sdk/cpp/include/stonegate_api.hpp:138-139 | a poll result that is not an object makes both editions throw |
| SdkClient.PollAllFlat | sdk/cpp/include/stonegate_api.hpp:134-164 | the flattening loop fails exactly when the update list or some update throws, and otherwise returns the snapshot of the updates applied left to right |
| SdkClient.FoldStaysFailed | sdk/python/stonegate_sdk/stonegate_api/__init__.py:60-72 | once an update throws, the whole poll throws |
| SdkClient.CppSnapshotKeys | sdk/cpp/include/stonegate_api.hpp:141-161 | the C++ snapshot has exactly one entry per non-empty string id among the object updates |
| SdkClient.LastUpdateWins | sdk/cpp/include/stonegate_api.hpp:160 | the last update of a device gives its entry, in both editions |
| SdkClient.FlattenFalsy | sdk/python/stonegate_sdk/stonegate_api/__init__.py:62 | a falsy measurement flattens to nothing, as the `{}` Python puts in its place |
| SdkClient.EditionsAgree | sdk/python/stonegate_sdk/stonegate_api/__init__.py:57-72 | when every update is an object with a non-empty string id, the two editions produce the same snapshot and neither throws |
| SdkClient.FlattenNormalized | sdk/cpp/include/stonegate_api.hpp:146-158 | a reading the recorder normalised from a flat object flattens back to exactly its metrics, each a number, a numeric field to its own value |
| SdkClient.SafeSetRequests | sdk/cpp/include/stonegate_api.hpp:273-282 | at most one `set` request per visited target |
| SdkClient.SafeSetRequestsMeaning | sdk/cpp/include/stonegate_api.hpp:273-282 | a `set` request is sent exactly for each visited target that is safe (C++: a non-empty object; Python: truthy), with its params |
| SdkClient.MacroSession.constructor | sdk/cpp/include/stonegate_api.hpp:260-263 | a session starts with the given open recordings and nothing sent |
| SdkClient.MacroSession.RecordStop | sdk/cpp/include/stonegate_api.hpp:176-179 | `record_stop` with an empty id sends nothing; otherwise it sends one `record.stop` for the id |
| SdkClient.MacroSession.ApplySafeState | sdk/cpp/include/stonegate_api.hpp:260-283 | every open recording is stopped exactly once and forgotten, then the safe targets are set in iteration order; Python raises only for truthy targets that are not an object, after the stops |
| SdkClient.MacroSession.StopAll | sdk/cpp/include/stonegate_api.hpp:264-270 | the first loop stops every open recording once, in some order, and forgets all of them |
| SdkClient.MacroSession.StopOne | sdk/cpp/include/stonegate_api.hpp:265-269 | one turn stops the recording and forgets it |
| SdkClient.MacroSession.SetTargets | sdk/cpp/include/stonegate_api.hpp:272-282 | the second loop sends exactly the `set` requests of the safe targets, in order, and leaves the open recordings alone |
| SdkClient.StopRequests | sdk/python/stonegate_sdk/stonegate_api/__init__.py:96-99 | at most one stop request per id |
| SdkClient.StopRequestsMeaning | sdk/python/stonegate_sdk/stonegate_api/__init__.py:96-99 | an id gets its stop request exactly when it is non-empty and among the ids |
| ToolboxCli.RequestIds.constructor | tools/toolbox_ws_client.cpp:55 | the counter starts at zero |
| ToolboxCli.RequestIds.Next | tools/toolbox_ws_client.cpp:53-57 | each call increments the counter and returns the id of its new value |
| ToolboxCli.RequestId | tools/toolbox_ws_client.cpp:56 | every id starts with `req_` followed by at least one digit |
| ToolboxCli.RequestIdInjective | tools/toolbox_ws_client.cpp:53-57 | two calls never issue the same id |
| ToolboxCli.CheckArgs | tools/toolbox_ws_client.cpp:59-84 | fewer than three arguments, params that do not parse, or a URL that does not parse each exit with 2; otherwise the client connects with the parsed endpoint, the method, and the params (an empty object when none are given) |
| ToolboxCli.FrameEffect | tools/toolbox_ws_client.cpp:111-121 | a frame ends the loop by printing only when it is an `rpc_result` for the request's id |
| ToolboxCli.AwaitReply | tools/toolbox_ws_client.cpp:107-122 | the read loop stops at the first frame that is the reply (printed) or that throws, and every earlier JSON frame is skipped |
| ToolboxCli.ExitCode | tools/toolbox_ws_client.cpp:119-131 | the exit code is 0 exactly when the reply was printed, and 1 otherwise |
| ToolboxCli.OtherRepliesSkipped | tools/toolbox_ws_client.cpp:118 | a message of another type, or a reply to another id, never ends the loop |
| ToolboxCli.NonObjectFrameExits | tools/toolbox_ws_client.cpp:118-131 | a JSON frame that is not an object makes the client exit with 1 |
| ToolboxClient.Get | tools/toolbox_python/stonegate_toolbox_client.py:91-95 | `d.get(key)` is the member when present and None otherwise |
| ToolboxClient.Or | tools/toolbox_python/stonegate_toolbox_client.py:89-92 | `a or b` is `a` when it is truthy and `b` otherwise |
| ToolboxClient.PyStr | tools/toolbox_python/stonegate_toolbox_client.py:91-92 | `str` of a string is the string itself |
| ToolboxClient.ErrorText | tools/toolbox_python/stonegate_toolbox_client.py:17-21 | the text starts with `code: message`; exactly when details are present it continues with ` (`, the details' text and `)` |
| ToolboxClient.ErrorTextCode | tools/toolbox_python/stonegate_toolbox_client.py:17-21 | a code without a colon is read back as everything before the first colon |
| ToolboxClient.CallResult | tools/toolbox_python/stonegate_toolbox_client.py:88-95 | `call` returns exactly when the reply is a dict with a truthy `ok`, and then returns its `result`; a falsy non-dict reply raises with the defaults `error`/`RPC failed`; `call` fails on `.get` exactly when the reply is a truthy non-dict, or a failed reply's truthy `error` is not a dict |
| ToolboxClient.OkReturnsResult | tools/toolbox_python/stonegate_toolbox_client.py:88-95 | the server's success envelope returns its result |
| ToolboxClient.RejectionRaises | tools/toolbox_python/stonegate_toolbox_client.py:88-94 | every rejection the server sends raises an `RpcError` with code `2400`, the catalogue message for the detail, and the details object |
| ToolboxClient.DefaultsWithoutError | tools/toolbox_python/stonegate_toolbox_client.py:89-94 | a failed reply without an error object raises `error: RPC failed` with no details |
| ToolboxClient.EmptyCodeDefaults | tools/toolbox_python/stonegate_toolbox_client.py:91-92 | an empty code or message in the error is replaced by its default |
| ToolboxClient.Strip | tools/toolbox_python/stonegate_toolbox_client.py:110 | the stripped line has no white space at either end, is no longer than the line, and is empty exactly when the line is all white space |
| ToolboxClient.Entry | tools/toolbox_python/stonegate_toolbox_client.py:110-116 | a blank line yields no entry |
| ToolboxClient.Absorb | tools/toolbox_python/stonegate_toolbox_client.py:117-123 | adding a parsed line raises exactly when it is not a dict |
| ToolboxClient.Entries | tools/toolbox_python/stonegate_toolbox_client.py:109-116 | there is one entry per line, each read from its own line |
| ToolboxClient.LoadRecordingJsonl | tools/toolbox_python/stonegate_toolbox_client.py:98-125 | the loop over the lines computes the loader's result, line by line |
| ToolboxClient.LoadStaysRaised | tools/toolbox_python/stonegate_toolbox_client.py:117 | once the loader has raised, later lines do not matter |
| ToolboxClient.RaisesIff | tools/toolbox_python/stonegate_toolbox_client.py:113-117 | the loader raises exactly when some line parses to JSON that is not a dict |
| ToolboxClient.SamplesInOrder | tools/toolbox_python/stonegate_toolbox_client.py:120-121 | the samples are every `sample` line, in file order |
| ToolboxClient.NoHeaderYet | tools/toolbox_python/stonegate_toolbox_client.py:104-118 | with no `stonegate_recording` line the header is None |
| ToolboxClient.FirstHeaderWins | tools/toolbox_python/stonegate_toolbox_client.py:118-119 | the header is the first `stonegate_recording` line; later ones are ignored |
| ToolboxClient.NoStop | tools/toolbox_python/stonegate_toolbox_client.py:105-122 | with no `stop` line the footer is None |
| ToolboxClient.LastStopWins | tools/toolbox_python/stonegate_toolbox_client.py:122-123 | the footer is the last `stop` line |
| ToolboxClient.SkippedLine | tools/toolbox_python/stonegate_toolbox_client.py:111-116 | blank lines and lines that do not parse change nothing |
| QecHelpers.MakeMeasurement | tools/sdk_sources/stonegate_qec.py:192-193 | a measurement has exactly `qubit`, `basis`, `round` and `value`, with the given qubit and value |
| QecHelpers.PyInt | tools/sdk_sources/stonegate_qec.py:33 | `int` keeps integers, truncates floats, and raises on None, lists and dicts |
| QecHelpers.ValueOfMeasurement | tools/sdk_sources/stonegate_qec.py:33 | `m.get("value", 0)` raises exactly when the measurement is not a dict |
| QecHelpers.ValueBit | tools/sdk_sources/stonegate_qec.py:31-35 | a measurement votes 1 exactly when its value converts to a non-zero integer; anything that raises votes 0 |
| QecHelpers.CountOnes | tools/sdk_sources/stonegate_qec.py:38 | there are no more ones than measurements |
| QecHelpers.Majority | tools/sdk_sources/stonegate_qec.py:36-39 | the vote is a bit, and 0 for no measurements |
| QecHelpers.RepetitionDecodeMajority | tools/sdk_sources/stonegate_qec.py:27-39 | the decoder returns 1 exactly when the ones are strictly more than half the measurements, and 0 otherwise |
| QecHelpers.TieDecodesZero | tools/sdk_sources/stonegate_qec.py:39 | a tie decodes to 0 |
| QecHelpers.Flip | tools/sdk_sources/stonegate_qec.py:192-193 | a flipped bit measurement is still a bit measurement |
| QecHelpers.FlipAll | tools/sdk_sources/stonegate_qec.py:192-193 | flipping every measurement flips each in place |
| QecHelpers.CountOnesFlipped | tools/sdk_sources/stonegate_qec.py:30-38 | flipping every bit turns the ones into the zeros |
| QecHelpers.FlipBit | tools/sdk_sources/stonegate_qec.py:33 | flipping a bit measurement flips its vote |
| QecHelpers.MajorityFlips | tools/sdk_sources/stonegate_qec.py:27-39 | with an odd number of bit measurements, flipping every bit flips the decoded bit |
| QecHelpers.OddVote | tools/sdk_sources/stonegate_qec.py:39 | with an odd number of votes exactly one side has the majority |
| QecHelpers.MeasurementVotes | tools/sdk_sources/stonegate_qec.py:192-193 | a 0/1 measurement built by `make_measurement` for a non-negative qubit votes its value in the client decoder and in the server's `qec.decode` alike |
| QecHelpers.RawValue | tools/sdk_sources/stonegate_qec.py:381 | `int(m.get("value", 0))` raises for a non-dict |
| QecHelpers.ValueSum | tools/sdk_sources/stonegate_qec.py:381-384 | the sum exists exactly when every value converts |
| QecHelpers.SummarizeAsWritten | tools/sdk_sources/stonegate_qec.py:380-386 | as written, `ones + zeros == count == len`; `ones` is the sum of the values |
| QecHelpers.SummaryOfTwo | tools/sdk_sources/stonegate_qec.py:380-386 | one measurement with value 2 summarises to two ones and minus one zeros |
| QecHelpers.Summarize | tools/sdk_sources/stonegate_qec.py:380-386 | the corrected summary raises on the same inputs; `ones` and `zeros` both lie in [0, count] and add up to it; there are more ones than zeros exactly when the decoder returns 1 |
| QecHelpers.SummariesAgreeOnBits | tools/sdk_sources/stonegate_qec.py:380-386 | on 0/1 values the corrected and the as-written summaries agree |
| QecHelpers.ValueSumOfBits | tools/sdk_sources/stonegate_qec.py:381-384 | on 0/1 values the sum of the values is the number of ones |
| QecHelpers.Clamp | tools/sdk_sources/stonegate_qec.py:100 | `max(lo, min(hi, r))` lies in [lo, hi] when lo ≤ hi, keeps r inside it, and is lo when lo > hi |
| QecHelpers.Round | tools/sdk_sources/stonegate_qec.py:99 | Python's `round` is within one half of its argument |
| QecHelpers.RoundMonotone | tools/sdk_sources/stonegate_qec.py:99 | `round` is monotone |
| QecHelpers.ClampReal | tools/sdk_sources/stonegate_qec.py:98 | the real clamp lies in the interval |
| QecHelpers.ChooseRounds | tools/sdk_sources/stonegate_qec.py:96-100 | the chosen rounds lie in [min, max], and are min when min > max |
| QecHelpers.Scale | tools/sdk_sources/stonegate_qec.py:97-98 | the scaled error rate lies in [0, 1] |
| QecHelpers.ChooseRoundsMonotone | tools/sdk_sources/stonegate_qec.py:96-100 | a noisier reading never asks for fewer rounds |
| QecHelpers.ChooseRoundsEnds | tools/sdk_sources/stonegate_qec.py:96-100 | at or below 1% the fewest rounds are used, and at or above 35% the most |
| QecHelpers.ChooseRepetitionRounds | tools/sdk_sources/stonegate_qec.py:92-100 | the rounds chosen from a temperature lie in [min, max] |
| QecHelpers.PyFloat | sdk/python/stonegate_sdk/stonegate_qec/__init__.py:151-154 | `float` keeps integers as reals and fails on None, lists and dicts |
| QecHelpers.PFlipEstimate | sdk/python/stonegate_sdk/stonegate_qec/__init__.py:146-155 | without a reported `p_flip` there is no estimate |
| QecHelpers.RoundsFromHardware | sdk/python/stonegate_sdk/stonegate_qec/__init__.py:158-173 | without a `p_flip` estimate the fewest rounds are used, and otherwise the clamped choice for it, always within [min, max] |
| QecHealth.Clamp01 | tools/live-transform-demo/cpp/qec_health_server.cpp:24-28 | the clamp lies in [0, 1], keeps values inside it, and maps values below to 0 and above to 1 |
| QecHealth.Clamp01Monotone | tools/live-transform-demo/cpp/qec_health_server.cpp:24-28 | the clamp is monotone |
| QecHealth.ToInt32 | tools/live-transform-demo/cpp/qec_health_server.cpp:56-67 | converting an integer to `int` keeps values in range and otherwise wraps modulo 2^32 into range |
| QecHealth.Member | tools/live-transform-demo/cpp/qec_health_server.cpp:31-32 | a member is read exactly when the value is an object that has it |
| QecHealth.JsonNumber | tools/live-transform-demo/cpp/qec_health_server.cpp:30-43 | no member gives nothing; a number is read as its value; any result comes from a number, a string or a boolean |
| QecHealth.JsonString | tools/live-transform-demo/cpp/qec_health_server.cpp:45-50 | a string member is read as it is, and anything else gives the default |
| QecHealth.JsonBool | tools/live-transform-demo/cpp/qec_health_server.cpp:52-62 | a boolean is itself, an integer is true exactly when it is non-zero as an `int`, a string is true exactly when it is `1`, `true` or `True`; anything else, or no member, gives the default |
| QecHealth.JsonInt | tools/live-transform-demo/cpp/qec_health_server.cpp:64-77 | an integer is converted to `int`, a float truncated, and a string read by `stoi` with the default when that throws; anything else, or no member, gives the default |
| QecHealth.RecommendedRounds | tools/live-transform-demo/cpp/qec_health_server.cpp:79-85 | the recommendation is 3, 5, 7 or 9 rounds: 3 exactly when `p_flip` ≤ 0.03, and 9 exactly when it is above 0.12 |
| QecHealth.RecommendedRoundsMonotone | tools/live-transform-demo/cpp/qec_health_server.cpp:79-85 | noisier hardware never gets fewer rounds |
| QecHealth.HealthScore | tools/live-transform-demo/cpp/qec_health_server.cpp:119 | the health score lies in [0, 1] |
| QecHealth.HealthScoreUnclamped | tools/live-transform-demo/cpp/qec_health_server.cpp:114-119 | for normalised readings the score is one minus the weighted readings, and high noise alone caps it at 1 − 0.45·0.45 |
| QecHealth.Assess | tools/live-transform-demo/cpp/qec_health_server.cpp:121-134 | the recommendation is one of four: `leakage_detected` exactly when leakage ≥ 0.15, else `high_noise` exactly when the normalised noise ≥ 0.45, else `syndrome_spike` exactly when the syndrome ≥ 0.5, else `ok`; the actions are those of every triggered check, in that order, and there are none exactly when the recommendation is `ok` |
| QecHealth.SuggestedRounds | tools/live-transform-demo/cpp/qec_health_server.cpp:146-155 | the suggested rounds are the requested ones when positive, and otherwise the recommendation; they are always positive |
| QecHealth.PFlip | tools/live-transform-demo/cpp/qec_health_server.cpp:104-106 | `p_flip` is the syndrome device's when it reports one, and 0.01 when neither device does |
| QecHealth.ReadingsOf | tools/live-transform-demo/cpp/qec_health_server.cpp:108-117 | the readings are normalised to [0, 1], the noise as `p_flip / 0.35` |
| QecHealth.Analyze | tools/live-transform-demo/cpp/qec_health_server.cpp:87-134 | the analysis uses the requested `ws_url` (or the default), normalised readings, the assessment of those readings, and the suggested rounds for the requested `rounds` |
| QecHealth.Report | tools/live-transform-demo/cpp/qec_health_server.cpp:136-152 | the report carries the recommendation, the actions, the health score, the suggested rounds and the `ws_url`, and no benchmark member yet |
| QecHealth.BenchmarkFields | tools/live-transform-demo/cpp/qec_health_server.cpp:154-170 | without `do_benchmark` nothing is added; otherwise `benchmark` holds the result, or `benchmark_error` the exception text |
| QecHealth.AnalyzeOnce | tools/live-transform-demo/cpp/qec_health_server.cpp:87-173 | the analysis succeeds exactly when the poll does, fails with the poll's exception text otherwise, and on success is the report plus the benchmark member |
| QecHealth.BenchmarkIff | tools/live-transform-demo/cpp/qec_health_server.cpp:154-170 | the report has a benchmark member exactly when `do_benchmark` (default true) asks for one, and keeps every other member |
| QecHealth.HandleRequest | tools/live-transform-demo/cpp/qec_health_server.cpp:189-226 | OPTIONS answers 204 with an empty body; `GET /health` answers 200 `{ok: true}`; `POST /analyze/qec_health` answers 400 `invalid JSON` for an unparsable body, 200 with the report, or 500 with the exception text; everything else, and only that, is 404 |
| QecHealth.AnalysisReport | tools/live-transform-demo/cpp/qec_health_server.cpp:119-147 | a successful report has a recommendation among the four, a health score in [0, 1], and no actions exactly when it is `ok` |

## Left out

- Sockets, the WebSocket and HTTP sessions, threads, mutexes and the asio broadcast are not modelled. A message arrives already parsed. The replies and logs a call produces are its result.
- A `backend.log` event is modelled by its level, kind and fields. The envelope the broadcast adds (the timestamps, `origin`, `session_id`, and the fields copied to the top level) is left out.
- Clocks, random ids, the simulators' normal draws and the recording day directory are parameters.
- File contents and the filesystem are parameters too: the overrides file for `reload_overrides`, the recording file's open, and the JSONL loader's lines.
- The RPC handlers for `backend.info`, `graph.get`, `graph.save`, `graph.list`, `graph.load`, `graph.set_active` and `qec.benchmark` read files, the build information or random numbers. Dispatch only routes them, as `Delegate`, and their replies are not part of this model.
- `Dispatch.CapabilitiesHandled`: `backend.logs` is advertised by `backend.info` but has no handler. The model states that it is answered as an unknown method, but does not claim this is unintended.
- Doubles are modelled as Dafny reals. NaN, infinities, rounding and the `std::isfinite` check on `rate_hz` are left out.
- `static_cast<int>` and `int64_t` casts of doubles outside the target range are left out. So are integer overflows other than the `int` conversion of `json_int`/`json_bool` and the 64-bit FNV-1a arithmetic, which are modelled.
- Python's `int()` and `float()` on strings, and C++ `std::stod`/`json::parse`, are parameters. `std::stoi` is modelled.
- Text is a sequence of characters: UTF-8 encoding and Unicode white space beyond ASCII (for `str.strip`) are left out.
- `Recorder.Recorder.Stop`: the stop time is a parameter. The fallback to `now_ms()` when the worker never recorded one is not modelled.
- The recording's header and footer lines, its `port` and its build information are not modelled. A session's `lines` stand for its sample lines only.
- QecDecode: `qec.decode` collects its tallies in an `unordered_map`, whose iteration order is unspecified. The model lists the corrections in the order qubits are first seen.
- `StateCache.StateCache.ListDeviceMeta`: the metadata comes from an `unordered_map`. The model states the entries, not their order.
- Python dicts iterate in insertion order. Where that order matters (`apply_safe_state`), it is a parameter that must enumerate the keys.
- Physics: `compute_step`'s arithmetic is stated over reals (`Physics.NodeStep`, `Physics.ComputeStepDefaults`); only its floating-point effects are left out, as the line on doubles says.
- `p_flip_from_temperature` uses `exp` and is a parameter of `QecHelpers.ChooseRepetitionRounds`.
- `repetition_measurements`, `logical_error_rate_repetition`, `estimate_leak_rate_per_s` and the async `acquire_*`/`read_qec_status`/`read_noise_estimate` wrappers draw random numbers, fit floats, or only await RPCs, so they are left out.
- `wait_for_stable`, `get_latest_number` and `poll_required_number` poll over time and are left out. The C++ `cpp_` request id and the RPC timeouts are also left out.
- Toolbox: the Python `_reader` task and its futures, and the `connect`/`close` plumbing, are not modelled. A reply is matched to its call directly.
- `QecHealth.AnalyzeOnce`: the poll's outcome is a parameter. That parameter includes the client construction failing for an invalid `ws_url`. The `qec_health_server` entry point's own argument loop and its HTTP headers are left out.
- The server's `print_usage` output and the simulator set-up after the argument loop are left out.
- Script runners' own side effects are left out. A runner's verdict on each instruction is a parameter.
- `Devices.QuantumRegister.constructor`: its size is a `nat`, because a negative size makes the C++ vector constructor throw.
- `Devices.LaserController.Descriptor`: the contract states only the `specs` member it reports. The whole descriptor is the function's value.
- `Devices.Thermocouple.Descriptor`: the contract states only the `specs` range. The whole descriptor is the function's value.
- `Dispatch.Server.Execute` and `Registry.DeviceRegistry.PollAll`/`Registry.DeviceRegistry.GetDescriptorGraph` take each device's descriptor and reading as given values (`describe`, `measure`). The side effects of `read_measurement()` during `devices.poll` are not carried into the device state: the ancilla qubit storing the bit it drew, and the LN2 controller pushing its flow to the physics engine. A `read_measurement()` or `descriptor()` that throws would end the handler in its catch-all without a reply; the model always answers.
- `Recorder.Recorder.RunPass`, `Recorder.PassLines` and `Recorder.StreamLines` take one reading per device for a pass. The worker calls `read_measurement()` once per due stream, so two streams on the same device get two separate draws (and, for the LN2 controller, two pushes to the engine), whereas the model gives both streams the same reading.
- The server's file and time helpers (`sg_read_file`, `sg_now_iso8601_utc`, the schematics-directory helpers), its event loop and `broadcast_measurements_loop` do I/O only, so they are left out.

## Findings

| source | as written | input that shows it | evidently intended | confidence | as-written member | corrected member |
|---|---|---|---|---|---|---|
| tools/sdk_sources/stonegate_qec.py:380-386 | `ones` is the sum of the values, and `zeros` is the count minus that sum | one measurement with `value` 2 gives `ones == 2` and `zeros == -1` | `ones` counts the non-zero values, as the majority decoder does, so that both lie in [0, count] | not executed | QecHelpers.SummaryOfTwo | QecHelpers.Summarize |
