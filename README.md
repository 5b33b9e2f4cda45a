# pyFRI: the Sunrise UDP client and the binding's guards, in Dafny

This project models two parts of pyFRI, the Python client for KUKA LBR robot arms.

1. **The Sunrise external-control UDP client (`kuka_udp.py`).** This is a small text protocol, described in Chapter 12 of KUKA Sunrise.OS Med 2.6 V4. The client sends `timestamp;counter;signal;true|false` control messages and decodes the controller's eleven-field status reply. Modules:
   - `KukaProtocol`: the message formats and the `KUKA_ERROR_CODE` enumeration. These are pure functions.
   - `KukaUdpClient`: the `KukaUdp` class. It holds the packet counter `packetSent` and the operations `get_state`, `app_start`, `app_stop`, `app_enable` and `app_restart`.
2. **The guards that the C++ binding (`pyFRI/src/wrapper.cpp`) puts around the FRI SDK objects.** Modules:
   - `FriTypes`: the registered enumerations.
   - `FriBinding`: the shape-checked `LBRCommand` setters, the joint-vector getters of `LBRState`, the accessors that are not yet exposed, and the `ClientApplication` wrapper that forwards to the SDK.

`Text` holds the Python string operations the protocol uses. These are `str()` and `int()` of integers, `str.split(';')` and `';'.join`. They come with their round-trip lemmas. `Wrappers` holds `Option`, `Result` and `Outcome`.

The clock and the socket are inputs:
- Each UDP operation takes the millisecond timestamp it stamps its command with.
- It also takes the reply the socket delivers, as an `Option<string>`; `None` is the 100 ms timeout.
- Every datagram handed to `sendto` is appended to the `outbox` field.
- Exceptions that `__recv` does not catch are returned as the `Raised` outcome, because they propagate to the caller.

The class invariant `KukaUdp.Valid()` states the counter property the controller checks (fault `INCORRECT_DATA_PACKET_COUNTER`): `packetSent == initial + |outbox|`, and the k-th datagram reads back, when parsed, with counter `initial + k + 1`.

The binding throws two kinds of error, and both are `std::runtime_error`, so Python sees one `RuntimeError` type. `BindingError` tags each error by its throw site (`ShapeError` for a rejected array shape, `NotYetExposed` for an accessor that always throws) and keeps the message verbatim.

## Model

| member | source | states |
|---|---|---|
| Text.NatToString | kuka_udp.py:155-157 | `str()` of a non-negative int is a non-empty string of decimal digits with no leading zero |
| Text.IntToString | kuka_udp.py:169 | `str()` of an int is never empty and never contains `;` |
| Text.IntToStringRoundTrip | kuka_udp.py:169 | `int(str(n)) == n` for every integer within the protocol's range, negative ones included |
| Text.ParseInt | kuka_udp.py:187-190 | `int()` accepts an optional sign followed by digits and nothing else; every plain digit string is accepted; a negative result comes only from a leading `-` |
| Text.IntToStringInjective | kuka_udp.py:169 | distinct counters are written as distinct texts |
| Text.Split | kuka_udp.py:185 | `split(';')` always yields at least one field, and no field contains `;` |
| Text.SplitJoin | kuka_udp.py:167-172 | splitting `';'.join(fields)` gives the fields back when none contains `;` |
| Text.SplitJoinAppend | kuka_udp.py:185 | a line that continues after separator-free fields splits into those fields followed by the split of the rest |
| Text.Join | kuka_udp.py:167 | `';'.join` puts the first field first, with a separator right after it when more fields follow |
| Text.JoinSplit | kuka_udp.py:185 | `';'.join(line.split(';')) == line` for every line |
| KukaProtocol.ErrorValue | kuka_udp.py:25-38 | every member's value lies in -7..0, and it is 0 exactly for `NO_ERROR` |
| KukaProtocol.ErrorName | kuka_udp.py:25-38 | `.name` of a member is never the alias name `INCORRECT_CLIENT_IP` |
| KukaProtocol.ErrorMembers | kuka_udp.py:25-38 | `KUKA_ERROR_CODE` has eight members, all distinct; the alias is not one of them |
| KukaProtocol.ErrorMembersComplete | kuka_udp.py:25-38 | every error code is a member, and `INCORRECT_CLIENT_IP` is the first member, `NO_ERROR_int_trig` |
| KukaProtocol.ErrorCodeOf | kuka_udp.py:25-38 | `KUKA_ERROR_CODE(id)` finds a member exactly for ids -7..0, and that member has value `id` |
| KukaProtocol.ErrorCodeNamed | kuka_udp.py:30-32 | looking up the name `INCORRECT_CLIENT_IP` gives the member `NO_ERROR_int_trig` |
| KukaProtocol.ErrorCodeOfValue | kuka_udp.py:25-38 | looking up a member's value finds that member, so no two members share a value |
| KukaProtocol.ErrorCodeNamedRoundTrip | kuka_udp.py:25-38 | looking up a member's name finds that member |
| KukaProtocol.ClientIpFaultReportedAsIntTrig | kuka_udp.py:30-32 | id -1 is reported as `NO_ERROR_int_trig`, and the alias name resolves to the same member |
| KukaProtocol.SignalName | kuka_udp.py:61-68 | the signal-name field is always one of `App_Start`, `App_Enable`, `Get_State` |
| KukaProtocol.SignalNameRoundTrip | kuka_udp.py:61-68 | `SIGNAL_NAME_MAP` is one-to-one: the name read back gives the signal, and only that signal's name does |
| KukaProtocol.ValueText | kuka_udp.py:69-71 | the value field is `true` or `false`, and `true` exactly when the value is true |
| KukaProtocol.ValueTextRoundTrip | kuka_udp.py:69-71 | the value field is `true` exactly when the value is true, and reads back to the value |
| KukaProtocol.ComposeCommand | kuka_udp.py:167-172 | a composed command splits into exactly four fields: timestamp, counter, signal name, `true`/`false` |
| KukaProtocol.ParseComposeRoundTrip | kuka_udp.py:165-172 | the controller reads back the exact timestamp, counter, signal and value that were composed |
| KukaProtocol.DecodeStatus | kuka_udp.py:185-197 | a status line decodes exactly when it has at least 11 fields and its fields 0-3 are integers |
| KukaProtocol.DecodeFields | kuka_udp.py:185-197 | decoding raises only an IndexError past the last field or a ValueError from a missing-integer field among 0-3, never the error-code lookup's |
| KukaProtocol.DecodeEncodeStatus | kuka_udp.py:185-197 | decoding an eleven-field status line written by the controller gives back every field |
| KukaProtocol.DecodeIgnoresTrailingFields | kuka_udp.py:185-197 | fields after the eleventh are ignored, whatever they hold |
| KukaProtocol.DecodeStatusPositional | kuka_udp.py:185-197 | a decoded line has at least 11 fields; fields 0-3 are its integers; each boolean is true iff its field is exactly `true`; field 8 is kept verbatim |
| KukaProtocol.DecodeStatusNonInteger | kuka_udp.py:186-190 | on a line of any length, the first of fields 0-3 that is not an integer raises ValueError, and `__recv` does not catch it |
| KukaProtocol.DecodeStatusShortLine | kuka_udp.py:185-197 | with readable integer fields, decoding fails exactly when the line has fewer than 11 fields, and then with an IndexError |
| KukaProtocol.Receive | kuka_udp.py:174-216 | a timeout gives `TimedOut`; a decoding error propagates unchanged; a received status is the decoded line; the lookup raises only for ids below -7 |
| KukaProtocol.ReceiveReturns | kuka_udp.py:174-216 | `__recv` returns False exactly on timeout; a reply that does not raise returns True; a reply is accepted iff it decodes and its error id is at least -7 |
| KukaProtocol.ReceiveReportsErrorId | kuka_udp.py:199-200 | a received reply reports an error member exactly when its id is negative, and that member has the id |
| KukaProtocol.ReceiveMinusOne | kuka_udp.py:199-200 | a status line with id -1 is reported under the name `NO_ERROR_int_trig` |
| KukaProtocol.ReceiveUnknownErrorId | kuka_udp.py:199-200 | a status line with an id below -7 makes `__recv` raise |
| KukaUdpClient.KukaUdp.constructor | kuka_udp.py:93-115 | the counter starts at `initial_packet_seq`, nothing has been sent, and the heartbeat is off |
| KukaUdpClient.KukaUdp.GetPacketNum | kuka_udp.py:150-153 | the counter advances by one unless `readonly`, and the post-increment value is returned |
| KukaUdpClient.KukaUdp.ComposeCmd | kuka_udp.py:165-172 | composing advances the counter by exactly one and stamps the command with the new value |
| KukaUdpClient.KukaUdp.Send | kuka_udp.py:159-163 | the message is appended to what was sent |
| KukaUdpClient.KukaUdp.SendCommand | kuka_udp.py:219-223 | compose then send: one datagram and one counter step, and the counter invariant is kept |
| KukaUdpClient.KukaUdp.GetState | kuka_udp.py:218-224 | sends `Get_State;true` with the next counter, then reads the reply |
| KukaUdpClient.KukaUdp.AppStart | kuka_udp.py:226-235 | with App_Enable support, starts the heartbeat; then sends `App_Start;true` with the next counter and reads the reply |
| KukaUdpClient.KukaUdp.AppStop | kuka_udp.py:237-250 | without App_Enable support sends nothing and leaves the counter alone; with it, sends `App_Enable;false`, reads the reply, and stops the heartbeat unless the read raised |
| KukaUdpClient.KukaUdp.AppEnable | kuka_udp.py:252-259 | sends `App_Enable;true` with the next counter; reads the reply only when `show_reply` |
| KukaUdpClient.KukaUdp.AppRestart | kuka_udp.py:261-263 | without App_Enable support the counter advances by exactly one (the start only); with it, by two, or by one when the stop's reply raised and the start was never reached |
| FriTypes.SessionStateRegistration | pyFRI/src/wrapper.cpp:74-80 | `ESessionState` has exactly the five members IDLE … COMMANDING_ACTIVE, and a name finds a member iff it is that member's name |
| FriTypes.ClientCommandModeMembers | pyFRI/src/wrapper.cpp:121-131 | four distinct command modes are registered under version 1, five under version 2 |
| FriTypes.ClientCommandModeRegistration | pyFRI/src/wrapper.cpp:121-131 | `POSITION` exists only under version 1; `JOINT_POSITION` and `CARTESIAN_POSE` only under version 2; a registered mode is found by its name |
| FriTypes.RedundancyStrategyRegistration | pyFRI/src/wrapper.cpp:139-144 | `ERedundancyStrategy` is registered only under version 2, with two distinct members each found by its name |
| FriBinding.CheckedCopy | pyFRI/src/wrapper.cpp:327-340 | a 1-D array of the buffer's length is copied in; anything else is rejected with the shape message and the buffer is untouched |
| FriBinding.WrenchShapeMessageNamesJointCount | pyFRI/src/wrapper.cpp:341-355 | the wrench setter's shape message says `(7,)`, not the `(6,)` it accepts |
| FriBinding.LBRCommand.constructor | pyFRI/src/wrapper.cpp:325-326 | a new command has a joint-position and a torque buffer of NUMBER_OF_JOINTS doubles and a wrench buffer of six |
| FriBinding.LBRCommand.SetJointPosition | pyFRI/src/wrapper.cpp:327-340 | accepts iff the input is 1-D with NUMBER_OF_JOINTS elements; then the joint positions equal the input; otherwise it throws and changes nothing |
| FriBinding.LBRCommand.SetWrench | pyFRI/src/wrapper.cpp:341-355 | accepts iff the input is 1-D with 6 elements; then the wrench equals the input; otherwise it throws the NUMBER_OF_JOINTS message and changes nothing |
| FriBinding.LBRCommand.SetTorque | pyFRI/src/wrapper.cpp:356-369 | accepts iff the input is 1-D with NUMBER_OF_JOINTS elements; then the torques equal the input; otherwise it throws and changes nothing |
| FriBinding.LBRCommand.SetCartesianPose | pyFRI/src/wrapper.cpp:370-376 | always fails as not yet exposed, whatever the input, and modifies nothing |
| FriBinding.LBRCommand.SetCartesianPoseAsMatrix | pyFRI/src/wrapper.cpp:377-384 | always fails as not yet exposed, whatever the input, and modifies nothing |
| FriBinding.NarrowedCopy | pyFRI/src/wrapper.cpp:165-181 | the copy-and-narrow loop returns exactly NUMBER_OF_JOINTS values, element i narrowed from element i of the SDK buffer |
| FriBinding.GetMeasuredJointPosition | pyFRI/src/wrapper.cpp:165-181 | NUMBER_OF_JOINTS values, element i from element i of the measured joint positions |
| FriBinding.GetMeasuredTorque | pyFRI/src/wrapper.cpp:182-198 | NUMBER_OF_JOINTS values, element i from element i of the measured torques |
| FriBinding.GetCommandedTorque | pyFRI/src/wrapper.cpp:199-215 | NUMBER_OF_JOINTS values, element i from element i of the commanded torques |
| FriBinding.GetExternalTorque | pyFRI/src/wrapper.cpp:216-232 | NUMBER_OF_JOINTS values, element i from element i of the external torques |
| FriBinding.GetIpoJointPosition | pyFRI/src/wrapper.cpp:233-249 | NUMBER_OF_JOINTS values, element i from element i of the interpolator joint positions |
| FriBinding.GetCommandedJointPosition | pyFRI/src/wrapper.cpp:256-272 | version 1: NUMBER_OF_JOINTS values, element i from element i of the commanded joint positions |
| FriBinding.GetMeasuredCartesianPose | pyFRI/src/wrapper.cpp:274-291 | version 2: NUMBER_OF_JOINTS values, element i from element i of the measured Cartesian pose |
| FriBinding.GetMeasuredCartesianPoseAsMatrix | pyFRI/src/wrapper.cpp:292-296 | always fails as not yet exposed, with the source's message |
| FriBinding.GetIpoCartesianPose | pyFRI/src/wrapper.cpp:297-303 | always fails as not yet exposed, with the source's message |
| FriBinding.GetIpoCartesianPoseAsMatrix | pyFRI/src/wrapper.cpp:304-310 | always fails as not yet exposed, with the source's message |
| FriBinding.GetIpoRedundancyValue | pyFRI/src/wrapper.cpp:313-319 | always fails as not yet exposed, with the source's message |
| FriBinding.PyClientApplication.constructor | pyFRI/src/wrapper.cpp:45-47 | the wrapper owns a fresh SDK application that has received no calls |
| FriBinding.PyClientApplication.Connect | pyFRI/src/wrapper.cpp:49-51 | the port and remote host reach the SDK unchanged, and the SDK's answer is returned unchanged |
| FriBinding.PyClientApplication.Disconnect | pyFRI/src/wrapper.cpp:53 | exactly one disconnect call reaches the SDK |
| FriBinding.PyClientApplication.Step | pyFRI/src/wrapper.cpp:55 | exactly one step call reaches the SDK, and its answer is returned unchanged |

## Left out

- The FRI session state machine, the `step()` receive/dispatch/send cycle and `connect`/`disconnect` themselves: these live in the SDK headers `friClientApplication.h` and `friLBRClient.h`, which are not part of this model. `step` is modelled only as an opaque call whose answer is an input.
- PyClientApplication.constructor: takes no client. The source binds the SDK application to a `PyLBRClient &client` and a `UdpConnection`, which are SDK-side objects this model does not hold.
- `PyLBRClient`'s pure-virtual overrides (`onStateChange`, `monitor`, `waitForCommand`, `command`) and the `LBRClient` registration: these are dispatch into user Python code, a foreign call.
- FriBinding.CheckedCopy, LBRCommand.SetJointPosition, SetWrench, SetTorque: the model takes the input to be C-contiguous, so the buffer receives the array's elements in order. The source ignores strides: it hands `buf.ptr` to the SDK, which reads N doubles in a row. A strided view such as `np.arange(14.)[::2]` therefore sends elements 0..6 of the base buffer, and a reversed view reads outside it. Neither case is modelled.
- pybind11/NumPy marshalling: the conversion of any array-like input to `py::array_t<double>` is left out, and so is the construction of the returned `py::array_t<float>`. An input is taken to be a double array with its shape.
- Floating point: doubles are modelled as reals. The double-to-float narrowing in the getters is the uninterpreted wrapper `Float32`, so only length and index correspondence are stated.
- The getters that `wrapper.cpp` binds straight to SDK member functions (`getSampleTime`, `getSessionState`, the I/O accessors, `getTrackingPerformance`, `getMeasuredRedundancyValue`, `getRedundancyStrategy`) and the I/O setters of `LBRCommand`: they contain no binding code of their own.
- The registrations of `EConnectionQuality`, `ESafetyState`, `EOperationMode`, `EDriveState`, `EControlMode` and `EOverlayType`: these are fixed member lists with no version gating, and no modelled operation reads them. `export_values()` is not modelled either.
- `NUMBER_OF_JOINTS` is taken to be 7. The SDK header that defines it is not part of this model.
- Socket creation, the 100 ms timeout, `sendto`, `recvfrom` and UTF-8 encoding and decoding: these are I/O. The reply is an optional string and sent datagrams are recorded in `outbox`.
- `time.time()` and the `ts / 1000` float division: the timestamp is an opaque natural number of milliseconds. For a timestamp field of more than about 308 digits, `int(data[0]) / 1000` raises OverflowError before field 1 is parsed; the model reports that line as received, or as failing on a later field.
- Text.IntToStringRoundTrip: holds within the protocol's range only. CPython 3.11 and later raise ValueError in `str()`/`int()` past 4300 digits, which is not modelled.
- All `print` logging, including the diagnostics `__recv` prints. The error-name lookup inside them is kept, because it can raise.
- The App_Enable heartbeat thread (`__app_enable_heartbeat`, and the thread-liveness tests in `_app_enable_heartbeat_start`/`_cancel`) is concurrency. Only its `app_enable_set` flag is modelled, and the `app_enable` calls the thread makes are not. With App_Enable support, the real counter therefore also advances concurrently.
- `local_ip_check` calls the foreign library `netifaces`.
- Assigning `packet_sent` from outside the class, as the module's documentation suggests for resynchronising, is not modelled. The counter invariant assumes the class alone changes the counter.
- Text.ParseInt: models Python's `int()` only for an optional sign followed by ASCII digits. Surrounding whitespace, underscores and non-ASCII digits, which `int()` also accepts, are read as invalid.
- examples/LBRJointSineOverlay.py: this is floating-point signal generation and an I/O main loop.
