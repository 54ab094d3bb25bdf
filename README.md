# prometheus-dyson connection supervision, modelled in Dafny

prometheus-dyson exports the readings of Dyson air purifiers as Prometheus
metrics. This project models the part of `main.py` that keeps the devices
connected:

- `DeviceWrapper` is the supervisor of one device. It connects, retries on a
  connect timeout and disconnects. While the device is connected it polls for
  environmental data on a timer that reschedules itself.
- `ConnectionManager` starts discovery and adds every configured device. A
  device with a configured IP address (looked up by upper-cased serial) is
  connected to directly; the others are registered with discovery. Inbound
  messages go to the metrics sink, unless the device turns out to be
  disconnected: then it is torn down, discovery is restarted and the device is
  added again without a second listener.
- `main` exits with status -2 when no devices are configured.

Layout:

- `libdyson.dfy` (module `LibDyson`) reduces the libdyson transport and
  discovery objects to the state the supervisor reads and changes. That state
  is the connected flag, the hosts connected to, the data requests sent, the
  listeners attached, the disconnects, and the discovery running flag, start/stop
  log and registrations.
- `supervisor.dfy` (module `Supervisor`) holds the specification of one
  supervisor as values (`State` and the `…Step` functions), the lemmas about
  runs of steps, and the class `DeviceWrapper`. Each method of that class is
  proved to move its state exactly as the matching `…Step` function says.
- `manager.dfy` (module `Manager`) holds the routing and classification
  functions, the class `ConnectionManager` and `StartUp`, which is the empty
  device-list check in `main`.

Threads and timers are modelled as a sequence of pending timers per device:
`Retry(host)` will call `connect(host)` and `Poll` will call `_timer_callback`.
Any pending timer may fire next, which stands for the timer threads running
concurrently. What the network decides is a parameter of the operation: a
connect is `Established` or `TimedOut`, and a data request is `Sent` or
`Raced` (`AttributeError` from a handle torn down by a concurrent disconnect).

One might expect a device to have at most one active poll task, and to have
one exactly when it is connected. The code does not keep this, and the model
follows the code. `disconnect()` does not cancel timers, so a
disconnected device can still have a poll pending, which ends when it fires.
If the device is reconnected before that stale poll fires, the stale poll
finds the device connected and goes on beside the new one. The lemma
`Supervisor.ReconnectKeepsStalePollChain` builds such a run. What does hold is
proved instead:

- a connected device always has at least one poll pending;
- timers never multiply: every firing retires its timer and starts at most
  one new one;
- while the link stays up, the number of poll chains stays the same.

In the same way, a discovery callback that connects while a retry timer is
pending gives two retry chains when both time out. "At most one outstanding
connect attempt" is therefore not kept either. `Supervisor.ExecBoundsTimers`
bounds the pending timers by the number of connect calls from outside.

## Model

| member | source | states |
|---|---|---|
| `Supervisor.ConnectStep` | main.py:55-73 | Connected: nothing changes (no transport call, no timer). Otherwise exactly one transport connect to `host`, connected iff it was established. On success exactly one new `Poll` after `environment_refresh_secs`; on timeout exactly one `Retry(host)` after `retry_on_timeout_secs` and no poll. |
| `Supervisor.TimerCallbackStep` | main.py:84-94 | Disconnected: no request and no new timer. Connected: one data request (not counted when it raced a disconnect) and exactly one new `Poll` either way. |
| `Supervisor.FireStep` | main.py:72-82 | Firing a pending timer retires it and starts at most one. A retry of a disconnected device connects again to the same host and, on a further timeout, waits the default 30 seconds rather than the caller's interval. A retry of a connected device, or a poll of a disconnected one, only ends its chain. |
| `Supervisor.LinkDownStep` | main.py:160-162 | The session drops by itself: the link is down, no disconnect is recorded and no timer is touched. |
| `Supervisor.DisconnectStep` | main.py:75-77 | The link is down and one more disconnect is recorded; hosts, requests, listeners and pending timers are unchanged, so no timer is cancelled. |
| `Supervisor.ApplyKeepsPollChainLive` | main.py:62-94 | Any single step keeps "connected implies a poll is pending". |
| `Supervisor.ExecKeepsPollChainLive` | main.py:66-92 | Over any run: once a connect succeeds, polling goes on as long as the device is connected. |
| `Supervisor.ExecBoundsTimers` | main.py:55-94 | Over any run, the pending timers never exceed those at the start plus the connect calls from outside: retries and polls only replace themselves. |
| `Supervisor.ApplyUnderTimeout` | main.py:66-94 | One step in which any connect times out leaves a disconnected device disconnected, sends no request, loses no `Retry(host)` and starts no poll. |
| `Supervisor.ExecUnderTimeouts` | main.py:66-73 | Retry goes on forever: over a run where every connect times out, the device stays disconnected, no data request goes out, the retries to `host` never drop in number and no poll chain starts. |
| `Supervisor.ApplyWhileConnected` | main.py:62-64 | One step that does not take the link down leaves a connected device connected, makes no transport connect and keeps the number of polls. |
| `Supervisor.ExecWhileConnected` | main.py:62-92 | While the link stays up, however many retries, discovery callbacks and polls happen, `connect` never reaches the transport and the number of poll chains does not change. |
| `Supervisor.ReconnectKeepsStalePollChain` | main.py:84-92 | A concrete run (link drops, disconnect, reconnect, stale poll fires) ends connected with two poll chains. |
| `Supervisor.DeviceWrapper.constructor` | main.py:35-38 | Keeps the configuration, name, serial and refresh interval (default 30), with a fresh transport for that serial: never connected, nothing scheduled. |
| `Supervisor.DeviceWrapper.IsConnected` | main.py:50-53 | `is_connected` is the transport's live connected flag, the `connected` of the wrapper's state. |
| `Supervisor.DeviceWrapper.Connect` | main.py:55-73 | The wrapper's state becomes `ConnectStep` of the old state, with the given retry interval (default 30); the call is recorded in `attempts`. |
| `Supervisor.DeviceWrapper.Disconnect` | main.py:75-77 | The wrapper's state becomes `DisconnectStep` of the old state. |
| `Supervisor.DeviceWrapper.RefreshTimer` | main.py:79-82 | Exactly one `Poll` timer after `environment_refresh_secs` is added. |
| `Supervisor.DeviceWrapper.TimerCallback` | main.py:84-94 | The wrapper's state becomes `TimerCallbackStep` of the old state. |
| `Supervisor.DeviceWrapper.Fire` | main.py:72-82 | Firing pending timer `i` leaves the state `FireStep` says. A retry is one more `connect(host)` with the default interval; a poll calls no `connect`. |
| `LibDyson.DysonDevice.constructor` | main.py:96-98 | The transport made for a serial starts disconnected, with nothing recorded. |
| `LibDyson.DysonDevice.Connect` | main.py:67-69 | Records one connect to `host`; the session is up exactly when the attempt did not time out. |
| `LibDyson.DysonDevice.Disconnect` | main.py:77 | The session is down and one more disconnect is recorded. |
| `LibDyson.DysonDevice.LinkLost` | main.py:160-162 | The session drops by itself; nothing else changes. |
| `LibDyson.DysonDevice.RequestEnvironmentalData` | main.py:88-91 | One request is recorded unless the call raised. |
| `LibDyson.DysonDevice.AddMessageListener` | main.py:133-135 | One more listener. |
| `LibDyson.DysonDiscovery.constructor` | main.py:116 | Discovery starts not running, with an empty log and no registrations. |
| `LibDyson.DysonDiscovery.StartDiscovery` | main.py:117 | Running, and one `StartOp` is logged; registrations are unchanged. |
| `LibDyson.DysonDiscovery.StopDiscovery` | main.py:164 | Stopped, and one `StopOp` is logged; registrations are unchanged. |
| `LibDyson.DysonDiscovery.RegisterDevice` | main.py:146 | Exactly one registration of (device, callback) is appended. |
| `Manager.Upper` | main.py:137 | Same length; each ASCII lower-case letter is upper-cased and every other character is kept; the result has no lower-case letter. |
| `Manager.UpperIdempotent` | main.py:137 | Upper-casing an upper-cased serial changes nothing. |
| `Manager.RouteFor` | main.py:137-138 | A device is connected to directly exactly when `hosts` has a non-empty address under its upper-cased serial, and then to that address; a missing key and an empty address both mean discovery. |
| `Manager.RouteIgnoresCase` | main.py:137 | The route of a serial does not depend on its letter case. |
| `Manager.Classify` | main.py:169-170 | `STATE` gives (true, false), `ENVIRONMENTAL` gives (false, true) and every other message (false, false), each in both directions. |
| `Manager.AddDeviceStep` | main.py:133-146 | A listener is added iff `add_listener`. On the discovery route there is no connect and no timer. On the manual route the device ends as `connect(ip)`, with the default retry interval, leaves it. |
| `Manager.RediscoverStep` | main.py:160-167 | Re-adding a device seen disconnected: one disconnect, no new listener, no data request. The discovery route leaves it disconnected with no new timer; the manual route makes one real transport connect to the address, with one `Poll` or one `Retry(ip)` as the connect goes. |
| `Manager.RediscoveryKeepsOneListener` | main.py:160-166 | Over runs made only of rediscoveries: a device added once with a listener and then rediscovered any number of times has exactly one listener, has sent no data request, and was disconnected once per rediscovery. Under any interleaving with timers and link drops, one listener per device is the manager invariant kept by `TimerFired`, `LinkDropped`, `Discovered` and `DeviceCallback`. |
| `Manager.RediscoveryKeeps` | main.py:160-166 | Over any number of rediscoveries the listeners and data requests stay the same and the disconnects grow by one per round. |
| `Manager.RegistrationsMembers` | main.py:119-146 | Every registration made at start-up belongs to a configured device on the discovery route and calls back that device's wrapper; every such device has one. |
| `Manager.RegistrationsSnoc` | main.py:119-146 | Adding one more device appends its registration at the end exactly when its route is discovery, so the registrations follow configuration order. |
| `Manager.ConnectionManager.constructor` | main.py:110-120 | Discovery is fresh and started once. Every configured device gets a fresh wrapper with the default poll interval and one listener, added as `AddDeviceStep` says for its route. The registrations are exactly those of the discovery-route devices, in order, and no update has been sent. |
| `Manager.ConnectionManager.AddAll` | main.py:119-120 | The loop over the configured devices: one wrapper per device, each added with a listener, registrations as `Registrations` says, and the discovery log unchanged. |
| `Manager.ConnectionManager.AddConfigured` | main.py:120 | Wraps one configured device and adds it with a listener; one registration is added iff its route is discovery. |
| `Manager.ConnectionManager.AddDevice` | main.py:122-146 | The device moves as `AddDeviceStep` says. `connect` is called once, with the manual address, exactly on the manual route. Exactly one discovery registration is added, for that device's wrapper, exactly on the discovery route. Discovery is neither started nor stopped. |
| `Manager.ConnectionManager.DiscoveryCallback` | main.py:148-156 | Discovery's callback calls `connect(address)` exactly once, with the default retry interval. |
| `Manager.ConnectionManager.Discovered` | main.py:145-146 | When discovery runs a registration's callback, that registration's wrapper moves as `ConnectStep` says and the manager's invariant is kept. |
| `Manager.ConnectionManager.TimerFired` | main.py:72-94 | A pending timer of a managed device fires: the device moves as `FireStep` says and the manager's invariant (one listener per device, registrations calling back their own wrappers) is kept. |
| `Manager.ConnectionManager.LinkDropped` | main.py:160-162 | The session of a managed device drops by itself: the device moves as `LinkDownStep` says and the manager's invariant is kept. |
| `Manager.ConnectionManager.DeviceCallback` | main.py:158-172 | Seen disconnected: one disconnect, then stop and start of discovery, then a re-add without a listener, as `RediscoverStep` says, with one more `connect` call exactly on the manual route, and no update. Connected: exactly one update with the device's name and `Classify`'s flags, and nothing else changes. The manager's invariant is kept either way. |
| `Manager.StartUp` | main.py:223-231 | Exit with status -2 exactly when no device is configured. Otherwise a fresh manager on exactly the given hosts, with discovery started once and no update yet: device `i` is built from configuration `i` and added as `AddDeviceStep` says for its route, and the registrations are those of the discovery-route devices in order. |

## Left out

- Real threads and timing: `threading.Timer` delays, the zeroconf and MQTT threads and how they interleave. Each callback is one atomic step, and any pending timer may fire next.
- The libdyson internals (`libdyson.get_device`, main.py:96-98, the MQTT session, zeroconf): they are foreign code, kept only as the state the supervisor reads and changes.
- Exceptions other than the connect timeout and the `AttributeError` of a raced data request: no other failure of libdyson is modelled.
- `Manager.Upper`: models `str.upper()` for ASCII letters only, because serial numbers are ASCII; other Unicode case mappings are not modelled.
- Supervisor.DeviceWrapper.Connect: intervals are natural numbers, so negative or non-integer intervals, which `threading.Timer` also accepts, are not modelled.
- What `DysonDiscovery` does with a device registered a second time on rediscovery: the model only records each `register_device` call.
- The metrics sink `metrics.Metrics().update` and `prometheus_client.start_http_server`: I/O. The model records `update_fn` calls in `ConnectionManager.updates`.
- The rest of `main`: argument parsing, the log-level lookup and its exit -1, loading the configuration and its exit -1, logging setup, the `--include_inactive_devices` warning and `_sleep_forever`. These are process plumbing; `config.Config` is not part of this model.
- Log messages.
