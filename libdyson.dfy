/**
  The parts of the libdyson library that the connection supervisor talks to,
  reduced to the state they keep. The MQTT session itself, credentials and
  zeroconf are not modelled: a connect attempt either brings the session up or
  raises a timeout, and which one happens is chosen by the caller of the model
  (an outcome parameter), as the network would choose it.
*/
module LibDyson {

  /** Result of `DysonDevice.connect(host)`: the session comes up, or `DysonConnectTimeout` is raised. */
  datatype ConnectOutcome = Established | TimedOut

  /** Result of `request_environmental_data()`: the request goes out, or `AttributeError` is raised
      because the handle was torn down by a concurrent disconnect. */
  datatype RequestOutcome = Sent | Raced

  /** An inbound message: `MessageType.STATE`, `MessageType.ENVIRONMENTAL`, or anything else. */
  datatype Message = StateMessage | EnvironmentalMessage | OtherMessage(tag: string)

  /** The observable state of one device transport. */
  datatype Link = Link(
    connected: bool,            // `is_connected`
    connectCalls: seq<string>,  // hosts passed to `connect`, in order
    envRequests: nat,           // environmental-data requests that went out
    listeners: nat,             // message listeners attached
    disconnects: nat)           // calls to `disconnect`

  /** The libdyson device object one `DeviceWrapper` holds. */
  class DysonDevice {
    const serial: string
    var connected: bool
    var connectCalls: seq<string>
    var envRequests: nat
    var listeners: nat
    var disconnects: nat

    function View(): Link
      reads this
    {
      Link(connected, connectCalls, envRequests, listeners, disconnects)
    }

    constructor (serial: string)
      ensures this.serial == serial
      ensures View() == Link(false, [], 0, 0, 0)
    {
      this.serial := serial;
      connected, connectCalls := false, [];
      envRequests, listeners, disconnects := 0, 0, 0;
    }

    /** Opens a session to `host`; `timedOut` stands for the `DysonConnectTimeout` exception. */
    method Connect(host: string, outcome: ConnectOutcome) returns (timedOut: bool)
      modifies this
      ensures timedOut <==> outcome == TimedOut
      ensures View() == old(View()).(connected := !timedOut, connectCalls := old(connectCalls) + [host])
    {
      timedOut := outcome == TimedOut;
      connected := !timedOut;
      connectCalls := connectCalls + [host];
    }

    /** Tears the session down; `is_connected` is false afterwards. */
    method Disconnect()
      modifies this
      ensures View() == old(View()).(connected := false, disconnects := old(disconnects) + 1)
    {
      connected := false;
      disconnects := disconnects + 1;
    }

    /** The session drops on its own (broker or device gone); no call of the program causes it. */
    method LinkLost()
      modifies this
      ensures View() == old(View()).(connected := false)
    {
      connected := false;
    }

    /** Asks for fresh sensor readings; `raised` stands for the `AttributeError` of a torn-down handle. */
    method RequestEnvironmentalData(outcome: RequestOutcome) returns (raised: bool)
      modifies this
      ensures raised <==> outcome == Raced
      ensures View() == old(View()).(envRequests := old(envRequests) + if raised then 0 else 1)
    {
      raised := outcome == Raced;
      if !raised {
        envRequests := envRequests + 1;
      }
    }

    /** Attaches one message listener. */
    method AddMessageListener()
      modifies this
      ensures View() == old(View()).(listeners := old(listeners) + 1)
    {
      listeners := listeners + 1;
    }
  }

  /** A discovery lifecycle call, as recorded in the discovery log. */
  datatype DiscoveryOp = StartOp | StopOp

  /** One `register_device(device, callback)` call; `callback` is what the callback is bound to. */
  datatype Registration<C> = Registration(device: DysonDevice, callback: C)

  /** `libdyson.discovery.DysonDiscovery`: a running flag, a start/stop log and the registrations. */
  class DysonDiscovery<C> {
    var running: bool
    var log: seq<DiscoveryOp>
    var registrations: seq<Registration<C>>

    constructor ()
      ensures !running && log == [] && registrations == []
    {
      running, log, registrations := false, [], [];
    }

    method StartDiscovery()
      modifies this
      ensures running && log == old(log) + [StartOp] && registrations == old(registrations)
    {
      running := true;
      log := log + [StartOp];
    }

    method StopDiscovery()
      modifies this
      ensures !running && log == old(log) + [StopOp] && registrations == old(registrations)
    {
      running := false;
      log := log + [StopOp];
    }

    method RegisterDevice(device: DysonDevice, callback: C)
      modifies this
      ensures running == old(running) && log == old(log)
      ensures registrations == old(registrations) + [Registration(device, callback)]
    {
      registrations := registrations + [Registration(device, callback)];
    }
  }
}
