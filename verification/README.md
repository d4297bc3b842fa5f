# fireplacectl — a Dafny model of the command and state-synchronisation core

`fireplacectl` is a Raspberry Pi agent that drives one relay (a fireplace)
from MQTT. It subscribes to `rpi/fireplace/power`. A payload of exactly `ON`
or `OFF` switches the relay, and the agent then publishes the new level on
`rpi/fireplace/state` (retained, QoS 2). On SIGINT/SIGTERM it forces the relay
off, announces it, releases the GPIO device, disconnects and exits with 0.

The model is functional. One immutable record, `Effects.Session`, holds the
relay level (`relay: bool`, true = energised). It also holds an append-only
`trace` of effects: `Publish(topic, payload, qos, retain)`, `Subscribe(topic)`,
`Connect(host, port, keepalive, username, password)`, `Close`, `Disconnect` and
`Exit(code)`. Every handler of the program is a pure transition on that
record. The GPIO library and the MQTT client are not modelled: their calls
show up only as trace entries, or as the change to `relay`.

Modules:
- `Config` (config.dfy): the topic constants, the defaults, and the two
  environment lookups. The module-level settings are read in this order: host, port, username, password.
  Python is dynamically typed, so a looked-up value is `Text(s)` or `Number(n)`.
  The port default really is the integer 1883, while environment values are
  strings.
- `Effects` (effects.dfy): effects, the session record, and the payload of
  the last state publish the agent issued (`LastStatePayload`). `InSync` is
  the invariant that the relay and that last state publish agree.
- `StateSync` (statesync.dfy): `fireplace_on` / `fireplace_off`.
- `Dispatcher` (dispatcher.dfy): `mqtt_on_message`, plus replays of
  power-topic payloads compared against an independent "last command"
  reference.
- `SessionControl` (session.dfy): `mqtt_on_connect`, `signal_handler`, the
  start of `main_loop`, the receive loop as a fold over events, and the whole
  process.
- `Wrappers` (wrappers.dfy): `Option`.

Facts about the code that shape the model:
- The connect callback only subscribes. It does not publish any presence message.
- Nothing publishes on `rpi/fireplace/status`, though the topic is declared.
- Shutdown publishes `OFF` and then closes, disconnects and exits at once. It does not wait for the broker to acknowledge.
- Start-up publishes `OFF` before it connects.
- On a missing credential the process exits with code 1 while the module is loading. This happens before the GPIO device is created, so the only effect is `Exit(1)`.
- The port from the environment is not parsed. It stays the raw string.
- The signal handlers are registered before the forced `OFF` and before the blocking connect. A signal can therefore end the process during start-up, and `SessionControl.Program` takes the position of such a signal as an input.

## Model

| member | source | states |
|---|---|---|
| Config.GetOrDefault | fireplacectl.py:22-27 | the variable's value when it is set, otherwise the given default |
| Config.GetOrError | fireplacectl.py:29-35 | found exactly when the variable is set, with its value; otherwise a fatal outcome with exit code 1 |
| Config.LoadSettings | fireplacectl.py:37-40 | fails with exit code 1 exactly when the username or the password is unset; otherwise host defaults to "mosquitto.data", port to the integer 1883, and the credentials are the environment's |
| Config.LookupsAgree | fireplacectl.py:22-35 | both lookups return the same value for a set variable; the required lookup fails exactly when the defaulting one falls back to its default, whatever that default is |
| Config.LookupAfterUpdate | fireplacectl.py:22-35 | setting a variable is seen by its own lookup and by no other; removing it brings back the default or the exit |
| Config.MissingUsernameIsFatal | fireplacectl.py:39-40 | with the username missing, the process exits with 1 whatever the password |
| StateSync.FireplaceOn | fireplacectl.py:72-76 | the relay ends on; exactly one retained QoS 2 "ON" publish on the state topic is appended; the relay and the last state publish agree |
| StateSync.FireplaceOff | fireplacectl.py:78-82 | the relay ends off; exactly one retained QoS 2 "OFF" publish on the state topic is appended; the relay and the last state publish agree |
| StateSync.FireplaceOnTwice | fireplacectl.py:72-76 | a second turn-on leaves the relay as the first did but appends a second identical state publish (nothing is suppressed) |
| StateSync.FireplaceOffTwice | fireplacectl.py:78-82 | the same for turn-off |
| StateSync.LastOperationWins | fireplacectl.py:72-82 | after on-then-off (off-then-on) the relay and the last state publish are at the second operation's level |
| Dispatcher.OnMessage | fireplacectl.py:58-70 | on the power topic "ON" turns on and appends one "ON" state publish, "OFF" turns off and appends one "OFF" publish; any other payload or topic leaves the session unchanged; agreement of the relay and the last state publish is preserved |
| Dispatcher.ReplayFollowsLastCommand | fireplacectl.py:61-82 | after any sequence of power messages the relay is at the level of the last "ON"/"OFF" payload, or unchanged when there is none |
| Dispatcher.ReplayFromOff | fireplacectl.py:61-82 | from an OFF start the relay is on exactly when the last command was "ON" |
| Dispatcher.ReplayTrace | fireplacectl.py:61-82 | a replay appends one state publish per command, in command order, with that command's payload, and nothing for unknown payloads |
| Dispatcher.ReplayIgnoresUnknown | fireplacectl.py:69-70 | removing all unknown payloads from a sequence changes neither the relay nor the trace |
| Dispatcher.ReplayKeepsSync | fireplacectl.py:61-82 | any replay preserves agreement between the relay and the last state publish |
| Dispatcher.UnknownPayloadsIgnored | fireplacectl.py:63-70 | "TOGGLE", "", "on" and "ON " on the power topic are no-ops |
| Dispatcher.OtherTopicsIgnored | fireplacectl.py:61 | messages on the state topic, the status topic or the root are no-ops |
| SessionControl.OnConnect | fireplacectl.py:53-56 | whatever the result code, appends exactly one subscription to the power topic; the relay and the last state publish are unchanged |
| SessionControl.ReconnectsSubscribeOnly | fireplacectl.py:53-56 | N connect callbacks append exactly N subscriptions to the power topic and nothing else; the relay and the last state publish do not change |
| SessionControl.SubscribedTopicIsPower | fireplacectl.py:18-56 | the literal the callback subscribes to is the power topic constant |
| SessionControl.SignalHandler | fireplacectl.py:44-49 | the relay ends off and the trace gains, in order, an "OFF" state publish, Close, Disconnect, Exit(0) |
| SessionControl.Start | fireplacectl.py:84-92 | from a de-energised relay: the relay is off, the trace is the "OFF" state publish followed by the connect with the credentials and keepalive 60 |
| SessionControl.Run | fireplacectl.py:93-95 | the receive loop only appends to the trace and keeps the relay and the last state publish in agreement |
| SessionControl.Program | fireplacectl.py:37-98 | a missing credential yields only Exit(1) with the relay off; a signal before the forced OFF yields OFF, Close, Disconnect, Exit(0), and one before the connect completes yields OFF, OFF, Close, Disconnect, Exit(0); an uninterrupted start-up begins with the start-up effects; when the configuration loads, the relay and the last state publish agree |
| SessionControl.RunStopsAtTerminate | fireplacectl.py:44-49 | events after a termination signal are never handled |
| SessionControl.RunEndsWithShutdown | fireplacectl.py:44-49 | a run that receives a termination ends with the relay off and, last, "OFF" publish, Close, Disconnect, Exit(0) |
| SessionControl.RunExitsOnlyAtEnd | fireplacectl.py:44-49 | an exit, if any, is the last effect, and one happens exactly when a termination arrives |
| SessionControl.RunWithoutTerminate | fireplacectl.py:53-82 | without a termination the loop only publishes state and subscribes to the power topic |
| SessionControl.RunOfCommandsIsReplay | fireplacectl.py:58-70 | power messages delivered by the loop behave exactly like the dispatcher replay |
| SessionControl.StartupForcesOff | fireplacectl.py:84-92 | every started process first publishes "OFF" on the state topic, wherever a signal falls; its second effect is the connect, with keepalive 60, exactly when no signal interrupted start-up |
| SessionControl.ProgramExitsOnlyAtEnd | fireplacectl.py:35-95 | an exit, if any, is the last effect of the process; there is one exactly when a credential is missing or a termination signal arrives (during start-up or in the loop); after a signal the relay is off |
| SessionControl.MissingCredentialExits | fireplacectl.py:29-40 | with a credential unset the whole process is a single Exit(1) and the relay is never energised |
| SessionControl.EndToEnd | fireplacectl.py:37-98 | start, connect, "ON", terminate: OFF, connect, subscribe, ON, OFF, Close, Disconnect, Exit(0); a later message is not handled |

## Left out

- The gpiozero and paho-mqtt libraries: real pin writes, sockets, `loop_forever`, reconnection, keepalive traffic and broker acknowledgements. Their calls are only trace effects.
- A failing initial `connect` (a network exception that ends the process) is not modelled. Start always appends the `Connect` effect.
- Registration of the signal handlers and the real process exit. `Exit(code)` is an effect, and no event is handled after it.
- SessionControl.Program: a signal that arrives before the handlers are registered (fireplacectl.py:86-87) is not modelled. Python's default action applies then, not the handler.
- Effects.LastStatePayload: this is the last state publish the agent issued, not the value the broker retains. The broker's retained value can differ. This is most likely for the final `OFF` of shutdown: the process disconnects and exits right after publishing it, so the QoS 2 exchange need not complete. Another client may also publish on the state topic.
- SessionControl.Run: a termination is delivered between callbacks. A signal that interrupts a running callback, for example between the relay write and the publish in `fireplace_on`, is not modelled.
- SessionControl.RunStopsAtTerminate: a second SIGINT/SIGTERM while `signal_handler` is running re-enters the handler, because the handlers stay registered until the exit. This is not modelled. If it lands after `fireplace.close()`, the nested `fireplace_off()` drives a closed GPIO device, and what follows depends on gpiozero.
- UTF-8 decoding of the payload. Payloads are already-decoded strings. Malformed bytes raise in the source, so they are not claimed to be no-ops.
- Coercion of `MQTT_PORT`: the value is kept as the environment string or the integer default.
- All `print` logging, and the relay pin number (17).
