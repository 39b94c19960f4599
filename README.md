# Relay bank controller — Dafny model

This project models the relay controller of a small power-management board.
Four relays sit on GPIO lines 18–21. Relays 1 and 2 select the input source, AC
supply or battery. Relays 3 and 4 switch two outputs. The relays are active low:
a line at level 0 means the relay is on.

The controller keeps one safety interlock: AC supply and battery are never both
on. A single-relay request that would turn one input on while the other is on is
refused before anything is written. A source selection is break-before-make. The
losing source is turned off, there is a settle pause, and only then is the
winning source turned on. Emergency-off, start-up and shutdown drive every
relay off. The status report derives the active source from the line levels,
and AC supply takes precedence.

A second, smaller controller drives three active-high relays (solar, battery,
grid). Selecting a source drives its line high and the other two low.

Files:

- `relay_config.dfy` holds the relay table, the active-low mapping and lookup by id.
- `relay_requests.dfy` holds validation of request bodies: the relay id, state, source and output number.
- `relay_bank.dfy` holds the write sequences of the operations, the interlock and the status derivation. It also holds the class `RelayController`, with one method per operation, and small client methods.
- `power_switch.dfy` holds the three-source switch as the class `Switchboard`.

The hardware is a map from line to level. Each operation takes the set of lines
whose writes the driver fails during that call. A failed write is not
committed, and it ends the operation. The writes before it stay committed,
because nothing is rolled back. Each operation's writes are a fixed sequence of
`Write`/`Settle` events, given by `ChangeoverSteps`, `AllOffSteps` or a single
write. `FirstFault` is the index of the first failing write, and `Replay` gives
the levels after the events that were performed. Every method is proved to
perform exactly the events before `FirstFault`, in order. A ghost trace records
them. The lemmas then prove the interlock, break-before-make and all-off
properties about these sequences. Those properties cover every prefix, so they
also hold for the state a failed write leaves behind.

Two behaviours of the code worth knowing:

- Emergency-off stops at the first write that fails. The relays after that one are left as they were; they are not attempted.
- Selecting the source that is already active writes and settles again. It is not a no-op.

## Model

| member | source | states |
|---|---|---|
| `RelayConfig.ConfigWellFormed` | Source_control.py:10-21 | Relay ids and lines are unique. Relay i has id i+1, AC supply is on line 18 and battery on line 19. The all-pins list is the configured lines in table order, and the set of lines holds exactly its members. |
| `RelayConfig.StateOf` | Source_control.py:61 | A line reads as on exactly when its level is 0, and as off exactly when it is 1. |
| `RelayConfig.LevelFor` | Source_control.py:107 | Commanding a state writes the level that reads back as that state (on → 0, off → 1). |
| `RelayConfig.ActiveLowRoundTrip` | Source_control.py:61 | A relay reads on exactly when its line is 0. Level→state and state→level are inverse. |
| `RelayConfig.FindById` | Source_control.py:48-50 | The lookup returns an entry of the table with the requested id. It returns none only when no entry has that id. |
| `RelayConfig.RelayInfoById` | Source_control.py:46-52 | An entry is found exactly for ids 1..4, and it has that id. Its type is input exactly when id ≤ 2, which is exactly when it sits in the inputs category. |
| `RelayRequests.ParseState` | Source_control.py:87-88 | Only the strings "on" and "off" are accepted as a state. |
| `RelayRequests.ParseSource` | Source_control.py:135-136 | Only "ac", "battery" and "off" are accepted as a source. |
| `RelayRequests.CheckRelayRequest` | Source_control.py:77-88 | An empty or missing body is refused first, and only such a body gets that refusal. Next, a relay_id that is not an integer in 1..4 is refused, then a bad state. A request is accepted exactly when the body has an integer relay_id in 1..4 and a state "on" or "off", and it carries that id and state. |
| `RelayRequests.CheckInputRequest` | Source_control.py:129-136 | An empty body is refused, and only such a body gets that refusal. Next, an unknown source is refused. A request is accepted exactly when the body's source is "ac", "battery" or "off", and it carries that source. |
| `RelayRequests.CheckOutputRequest` | Source_control.py:176-187 | An empty body is refused, and only such a body gets that refusal. Next, an output that is not 1 or 2 is refused, then a bad state. A request is accepted exactly when the body has output 1 or 2 and a state "on" or "off", and it carries that output and state. |
| `RelayBank.FirstFault` | Source_control.py:119-120 | Every write before the returned index succeeds, and the write at that index fails. The writes before it are the ones performed. |
| `RelayBank.FaultOf` | Source_control.py:166-167 | An operation reports a failure exactly when one of its writes fails. It names the line of the first write that failed. |
| `RelayBank.ChangeoverSteps` | Source_control.py:143-156 | Each source switch is break-before-make and writes only the two input lines. A switch to AC or battery pauses and ends by turning that input on. 'off' has no pause and writes both inputs off. |
| `RelayBank.AllOffSteps` | Source_control.py:240-242 | One write per line, in the given order, each turning its relay off. |
| `RelayBank.InterlockCheck` | Source_control.py:94-104 | A request is refused iff it turns an input on while the other input is on. Any write it lets through keeps the interlock. |
| `RelayBank.ChangeoverPerformed` | Source_control.py:143-156 | A source switch gets nowhere if its first write fails. If only its last write fails, it stops after the losing source is off. Otherwise it completes. |
| `RelayBank.ChangeoverKeepsInterlock` | Source_control.py:143-156 | Every intermediate state of a source switch, including the settle window and the state after a failure, keeps AC and battery from both being on. |
| `RelayBank.ChangeoverResult` | Source_control.py:143-156 | After a completed switch to a source, exactly that input is on ('off' leaves both off). Both outputs are unchanged. |
| `RelayBank.StatusAfterChangeover` | Source_control.py:217-221 | After a completed switch to a source, the status report names that source. |
| `RelayBank.ActiveSource` | Source_control.py:217-221 | AC is reported whenever it is on. Battery is reported exactly when AC is off and battery on. None is reported exactly when both are off. |
| `RelayBank.ActiveSourceOf` | Source_control.py:217-221 | Read from the lines, AC is reported whenever it is on. Under the interlock, the report names the input that is on, and none when neither is on. |
| `RelayBank.AllOffPrefix` | Source_control.py:240-242 | Driving the first k lines off sets exactly those lines to 1 and leaves the others unchanged. |
| `RelayBank.AllOffResult` | Source_control.py:240-242 | Every prefix of the all-off sequence keeps the interlock. The complete sequence leaves every line at 1. |
| `RelayBank.OutputRelay` | Source_control.py:191-192 | Output n is the configured output relay with id n+2. |
| `RelayBank.RelayController.constructor` | Source_control.py:22 | Before start-up the chip is closed and nothing has been written. |
| `RelayBank.RelayController.WriteLine` | Source_control.py:108 | A write to a healthy line sets its level and is recorded. A failing write changes nothing and is reported. |
| `RelayBank.RelayController.DriveAllOff` | Source_control.py:240-242 | Writes 1 to every line in order until a write fails. It reports that line. |
| `RelayBank.RelayController.InitGpio` | Source_control.py:24-34 | If the chip fails to open, nothing changes. Otherwise the chip stays open and the lines are driven off in order. When every claim succeeds, every line is at 1. The interlock is kept. |
| `RelayBank.RelayController.CleanupGpio` | Source_control.py:36-44 | With the chip closed this is a no-op. Otherwise the lines are driven off. The chip is closed exactly when every write succeeded, and then every line is at 1. The interlock is kept. |
| `RelayBank.RelayController.EmergencyOff` | Source_control.py:233-250 | It is refused when uninitialised, with nothing written. Otherwise the lines are driven off, bypassing the interlock, and stop at the first failure. On success every line is at 1. The interlock is kept. |
| `RelayBank.RelayController.GetRelayStates` | Source_control.py:54-69 | It reports every relay in table order, with its id, name, line and the state its level stands for. |
| `RelayBank.RelayController.GetStatus` | Source_control.py:207-230 | It is refused when uninitialised. Otherwise it reports every relay and the active source derived from the input lines. |
| `RelayBank.RelayController.ControlRelay` | Source_control.py:71-120 | It is refused with nothing written when uninitialised, when the request is invalid, or when the interlock forbids it. Otherwise it writes only the target line. On success that relay reads back the requested state. The interlock is kept. |
| `RelayBank.RelayController.Handover` | Source_control.py:143-152 | The losing input is turned off, then a settle pause, then the winning input is turned on. It stops at the first failing write and reports that line. |
| `RelayBank.RelayController.ReleaseInputs` | Source_control.py:153-155 | AC is turned off, then battery. It stops at the first failing write and reports that line. |
| `RelayBank.RelayController.Changeover` | Source_control.py:139-156 | It performs the source's switch sequence up to the first failing write and reports that write's line. The interlock is kept. |
| `RelayBank.RelayController.ControlInput` | Source_control.py:122-167 | It is refused with nothing written when uninitialised or when the source is invalid. Otherwise it performs the break-before-make sequence and reports the selected source. The interlock is kept. |
| `RelayBank.RelayController.ControlOutput` | Source_control.py:169-205 | It is refused with nothing written when uninitialised or when the request is invalid. Otherwise it writes only the output's line, which reads back the requested state. The inputs are untouched. |
| `PowerSwitch.StartupWrites` | power_switch.py:9-11 | One write per relay line, in table order (solar, battery, grid), each driving it low. |
| `PowerSwitch.SelectionWrites` | power_switch.py:20-21 | One write per relay line, in table order. A line is driven high exactly when it belongs to the selected source. |
| `PowerSwitch.StartupSelectsNothing` | power_switch.py:9-11 | Start-up leaves every relay line low, so no source is selected. |
| `PowerSwitch.SelectionIsOneHot` | power_switch.py:19-21 | Whatever the prior levels, after selecting a source exactly that source's line is high. |
| `PowerSwitch.SelectionIdempotent` | power_switch.py:20-21 | Selecting the same source twice gives the levels of selecting it once. |
| `PowerSwitch.SelectionMakesBeforeBreak` | power_switch.py:20-21 | Switching from grid to solar drives solar high while grid is still high. This selection is not break-before-make. |
| `PowerSwitch.Switchboard.constructor` | power_switch.py:7-11 | Each line is written low once, in table order (solar, battery, grid). |
| `PowerSwitch.Switchboard.SwitchSource` | power_switch.py:17-22 | For a known source, each line is written once in table order. Afterwards exactly that source's line is high. An unknown source writes nothing. |

## Left out

- The web layer is not modelled: routing, request parsing, JSON encoding, HTTP status codes, reply messages, templates and the dashboard route. Requests are method inputs, and answers are the `Outcome` datatype.
- The GPIO libraries are abstracted as writes on a level map. A write may fail, and a per-call set of failing lines says which.
- Line reads always succeed. A failing `gpio_read` is not modelled, so the status read's failure path is missing. So is a read failure inside the interlock check.
- Closing the GPIO chip is assumed to succeed.
- The lock is not modelled. Each locked operation is atomic, and concurrency, including the unlocked status read, is out of scope.
- The 0.1 s pause is only a `Settle` event in the trace. Real time is not modelled.
- Timestamps, logging and the health check are left out. The health check is a constant report plus the initialised flag.
- The start-up/serve/shutdown sequence of the main entry point is left out. Its two steps, `InitGpio` and `CleanupGpio`, are modelled.
- Python's own coercions are not modelled. `True` and `1.0` pass the id and output checks. JSON values other than integers and strings are one opaque value.
- A request body is either absent or a JSON object (`Option<Body>`). A falsy non-object body (`[]`, `0`, `false`, `""`) is refused with "No JSON data provided" by the emptiness test (Source_control.py:78, 130, 177), like an empty object; the model cannot represent such a body. A truthy non-object body fails at the first field lookup (Source_control.py:81, 133, 180), outside the error handler; that path is not modelled.
- In the three-source switch, GPIO mode and line setup calls are not modelled. Output calls are assumed to succeed, and the page render is left out.
- webpage/ems_web.py is not part of this model. It holds a background floating-point simulation and a pass-through control route with no invariant.
