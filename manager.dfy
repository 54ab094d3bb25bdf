/**
  The connection manager (`ConnectionManager` in main.py): chooses between a
  configured IP address and discovery for each device, attaches the message
  listener once, and routes inbound messages either to the metrics sink or,
  when the device turns out to be disconnected, into a teardown and
  rediscovery. Also the start-up check that refuses an empty device list.
*/
module Manager {
  import opened LibDyson
  import opened Supervisor

  /** How a device is reached: a configured address, or discovery. */
  datatype Route = Direct(ip: string) | ViaDiscovery

  /** The two flags passed to the metrics sink. */
  datatype Flags = Flags(isState: bool, isEnvironmental: bool)

  /** One call of `update_fn(name, device, is_state=..., is_environmental=...)`. */
  datatype Update = Update(name: string, device: DysonDevice, isState: bool, isEnvironmental: bool)

  /** `str.upper()` on one character, for the ASCII letters serial numbers are made of. */
  function UpperChar(c: char): (u: char)
    ensures 'a' <= c <= 'z' ==> u as int == c as int - 32
    ensures !('a' <= c <= 'z') ==> u == c
  {
    if 'a' <= c <= 'z' then (c as int - 32) as char else c
  }

  /** `serial.upper()`. */
  function Upper(s: string): (r: string)
    ensures |r| == |s|
    ensures forall i :: 0 <= i < |s| ==> r[i] == UpperChar(s[i])
    ensures forall i :: 0 <= i < |r| ==> !('a' <= r[i] <= 'z')
  {
    seq(|s|, i requires 0 <= i < |s| => UpperChar(s[i]))
  }

  /** Upper-casing twice is upper-casing once: the lookup key is already in canonical form. */
  lemma UpperIdempotent(s: string)
    ensures Upper(Upper(s)) == Upper(s)
  {
  }

  /** `manual_ip = hosts.get(serial.upper()); if manual_ip: ...`: a missing key and an
      empty address both fall through to discovery. */
  function RouteFor(hosts: map<string, string>, serial: string): (r: Route)
    ensures r.Direct? <==> Upper(serial) in hosts && hosts[Upper(serial)] != ""
    ensures r.Direct? ==> r.ip == hosts[Upper(serial)]
  {
    var key := Upper(serial);
    if key in hosts && hosts[key] != "" then Direct(hosts[key]) else ViaDiscovery
  }

  /** The host table is consulted case-insensitively in the serial. */
  lemma RouteIgnoresCase(hosts: map<string, string>, serial: string)
    ensures RouteFor(hosts, Upper(serial)) == RouteFor(hosts, serial)
  {
    UpperIdempotent(serial);
  }

  /** `is_state` and `is_environ`: a three-way classification of the message. */
  function Classify(m: Message): (f: Flags)
    ensures m.StateMessage? <==> f == Flags(true, false)
    ensures m.EnvironmentalMessage? <==> f == Flags(false, true)
    ensures m.OtherMessage? <==> f == Flags(false, false)
  {
    Flags(m == StateMessage, m == EnvironmentalMessage)
  }

  /** What `_add_device` does to the device: one listener if asked, then either a
      `connect(ip)` with the default retry interval or nothing (discovery will connect). */
  function AddDeviceStep(s: State, route: Route, addListener: bool, refreshSecs: nat, outcome: ConnectOutcome): (r: State)
    ensures r.link.listeners == s.link.listeners + if addListener then 1 else 0
    ensures r.link.envRequests == s.link.envRequests && r.link.disconnects == s.link.disconnects
    // discovery route: no connect and no timer
    ensures route.ViaDiscovery? ==>
              r.link.connected == s.link.connected && r.link.connectCalls == s.link.connectCalls && r.pending == s.pending
    // manual route: the device ends up as connect(ip) leaves it
    ensures route.Direct? ==>
      r == ConnectStep(s.(link := s.link.(listeners := r.link.listeners)), route.ip, DefaultRetrySecs, refreshSecs, outcome)
  {
    var heard := if addListener then s.(link := s.link.(listeners := s.link.listeners + 1)) else s;
    match route
    case Direct(ip) => ConnectStep(heard, ip, DefaultRetrySecs, refreshSecs, outcome)
    case ViaDiscovery => heard
  }

  /** What `_device_callback` does to a device it finds disconnected: disconnect, then
      re-add it without a listener. */
  function RediscoverStep(s: State, route: Route, refreshSecs: nat, outcome: ConnectOutcome): (r: State)
    ensures r.link.disconnects == s.link.disconnects + 1
    // no duplicate listener, no data request
    ensures r.link.listeners == s.link.listeners && r.link.envRequests == s.link.envRequests
    // discovery route: left disconnected, waiting for discovery
    ensures route.ViaDiscovery? ==>
              !r.link.connected && r.link.connectCalls == s.link.connectCalls && r.pending == s.pending
    // manual route: the disconnect guarantees a real transport connect to the configured address
    ensures route.Direct? ==>
              r.link.connectCalls == s.link.connectCalls + [route.ip] && (r.link.connected <==> outcome == Established)
    ensures route.Direct? && outcome == Established ==> r.pending == s.pending + [Timer(refreshSecs, Poll)]
    ensures route.Direct? && outcome == TimedOut ==>
              r.pending == s.pending + [Timer(DefaultRetrySecs, Retry(route.ip))]
  {
    AddDeviceStep(DisconnectStep(s), route, false, refreshSecs, outcome)
  }

  /** A device added once and then rediscovered once per element of `outcomes`. */
  function Rediscovered(s: State, route: Route, refreshSecs: nat, outcomes: seq<ConnectOutcome>): State
    decreases |outcomes|
  {
    if outcomes == [] then s
    else Rediscovered(RediscoverStep(s, route, refreshSecs, outcomes[0]), route, refreshSecs, outcomes[1..])
  }

  /** However often a device is found disconnected and re-added, it keeps the single listener
      its first add attached, sends no data request, and is disconnected once per round. */
  lemma {:induction false} RediscoveryKeepsOneListener(route: Route, refreshSecs: nat, first: ConnectOutcome,
                                                        outcomes: seq<ConnectOutcome>)
    ensures var r := Rediscovered(AddDeviceStep(Initial, route, true, refreshSecs, first), route, refreshSecs, outcomes);
      r.link.listeners == 1 && r.link.envRequests == 0 && r.link.disconnects == |outcomes|
  {
    RediscoveryKeeps(AddDeviceStep(Initial, route, true, refreshSecs, first), route, refreshSecs, outcomes);
  }

  lemma {:induction false} RediscoveryKeeps(s: State, route: Route, refreshSecs: nat, outcomes: seq<ConnectOutcome>)
    ensures var r := Rediscovered(s, route, refreshSecs, outcomes);
      r.link.listeners == s.link.listeners && r.link.envRequests == s.link.envRequests
      && r.link.disconnects == s.link.disconnects + |outcomes|
    decreases |outcomes|
  {
    if outcomes != [] {
      RediscoveryKeeps(RediscoverStep(s, route, refreshSecs, outcomes[0]), route, refreshSecs, outcomes[1..]);
    }
  }

  /** The discovery registrations `__init__` leaves behind: one per device without a usable
      configured address, in configuration order. */
  function Registrations(ds: seq<DeviceWrapper>, hosts: map<string, string>): seq<Registration<DeviceWrapper>>
    decreases |ds|
  {
    if ds == [] then []
    else
      var last := ds[|ds| - 1];
      Registrations(ds[..|ds| - 1], hosts) +
        (if RouteFor(hosts, last.serial).ViaDiscovery? then [Registration(last.libdyson, last)] else [])
  }

  /** Every start-up registration belongs to a device on the discovery route and calls back
      that device's wrapper; every such device has one. */
  lemma {:induction false} RegistrationsMembers(ds: seq<DeviceWrapper>, hosts: map<string, string>)
    ensures forall x :: x in Registrations(ds, hosts) ==>
              x.callback in ds && x.device == x.callback.libdyson && RouteFor(hosts, x.callback.serial).ViaDiscovery?
    ensures forall d :: d in ds && RouteFor(hosts, d.serial).ViaDiscovery? ==> Registration(d.libdyson, d) in Registrations(ds, hosts)
    decreases |ds|
  {
    if ds != [] {
      var init := ds[..|ds| - 1];
      assert ds == init + [ds[|ds| - 1]];
      RegistrationsMembers(init, hosts);
    }
  }

  /** Adding one more device adds its registration, if any, at the end. */
  lemma RegistrationsSnoc(ds: seq<DeviceWrapper>, d: DeviceWrapper, hosts: map<string, string>)
    ensures Registrations(ds + [d], hosts) ==
              Registrations(ds, hosts) + if RouteFor(hosts, d.serial).ViaDiscovery? then [Registration(d.libdyson, d)] else []
  {
    assert (ds + [d])[..|ds|] == ds;
  }

  /** A wrapper as `__init__` leaves it: built from `cfg` with the default poll interval,
      one listener attached, and routed as the host table says. */
  ghost predicate Added(d: DeviceWrapper, cfg: DeviceConfig, hosts: map<string, string>, outcome: ConnectOutcome)
    reads d, d.libdyson
  {
    AddedAs(d, cfg, hosts, AddDeviceStep(Initial, RouteFor(hosts, cfg.serial), true, DefaultRefreshSecs, outcome))
  }

  /** `Added`, with the expected state given as a value. */
  ghost predicate AddedAs(d: DeviceWrapper, cfg: DeviceConfig, hosts: map<string, string>, expected: State)
    reads d, d.libdyson
  {
    && d.config == cfg && d.name == cfg.name && d.serial == cfg.serial
    && d.environmentRefreshSecs == DefaultRefreshSecs
    && d.Model() == expected
    && d.attempts == match RouteFor(hosts, cfg.serial)
                     case Direct(ip) => [ip]
                     case ViaDiscovery => []
  }

  class ConnectionManager {
    const hosts: map<string, string>
    const discovery: DysonDiscovery<DeviceWrapper>
    /** The calls of `update_fn`, in order. */
    var updates: seq<Update>
    /** The wrappers built by `__init__`. */
    ghost var devices: seq<DeviceWrapper>

    ghost function Handles(): set<DysonDevice>
      reads this
    {
      set d | d in devices :: d.libdyson
    }

    /** Every device has exactly one message listener, polls at the default interval, and
        every registration calls back the wrapper of the device it registered. */
    ghost predicate Valid()
      reads this, discovery, Handles()
    {
      && discovery.running
      && (forall d :: d in devices ==> d.libdyson.listeners == 1 && d.environmentRefreshSecs == DefaultRefreshSecs)
      && (forall x :: x in discovery.registrations ==> x.callback in devices && x.device == x.callback.libdyson)
    }

    /** `__init__`: start discovery, then add every configured device with a listener.
        `outcomes[i]` is how the connect to device i goes if it has a configured address. */
    constructor (configs: seq<DeviceConfig>, hosts: map<string, string>, outcomes: seq<ConnectOutcome>)
      requires |outcomes| == |configs|
      ensures Valid()
      ensures this.hosts == hosts && updates == []
      ensures fresh(discovery) && discovery.log == [StartOp]
      ensures |devices| == |configs|
      ensures forall i :: 0 <= i < |configs| ==>
                fresh(devices[i]) && fresh(devices[i].libdyson) && Added(devices[i], configs[i], hosts, outcomes[i])
      ensures discovery.registrations == Registrations(devices, hosts)
    {
      this.hosts := hosts;
      updates := [];
      var disc := new DysonDiscovery<DeviceWrapper>();
      disc.StartDiscovery();
      discovery := disc;
      devices := [];
      new;
      var ds := AddAll(configs, outcomes);
      devices := ds;
      RegistrationsMembers(devices, hosts);
      forall d | d in devices
        ensures d.libdyson.listeners == 1 && d.environmentRefreshSecs == DefaultRefreshSecs
      {
        var j :| 0 <= j < |devices| && devices[j] == d;
        assert Added(devices[j], configs[j], hosts, outcomes[j]);
      }
    }

    /** The loop of `__init__` over the configured devices. */
    method AddAll(configs: seq<DeviceConfig>, outcomes: seq<ConnectOutcome>) returns (ds: seq<DeviceWrapper>)
      requires |outcomes| == |configs|
      requires discovery.registrations == []
      modifies discovery
      ensures |ds| == |configs|
      ensures forall j :: 0 <= j < |configs| ==>
                fresh(ds[j]) && fresh(ds[j].libdyson) && Added(ds[j], configs[j], hosts, outcomes[j])
      ensures discovery.registrations == Registrations(ds, hosts)
      ensures discovery.running == old(discovery.running) && discovery.log == old(discovery.log)
    {
      ds := [];
      var i := 0;
      while i < |configs|
        invariant 0 <= i <= |configs| && |ds| == i
        invariant discovery.running == old(discovery.running) && discovery.log == old(discovery.log)
        invariant forall j :: 0 <= j < i ==>
                    fresh(ds[j]) && fresh(ds[j].libdyson) && Added(ds[j], configs[j], hosts, outcomes[j])
        invariant discovery.registrations == Registrations(ds, hosts)
      {
        var w := AddConfigured(configs[i], outcomes[i]);
        RegistrationsSnoc(ds, w, hosts);
        ds := ds + [w];
        i := i + 1;
      }
    }

    /** `self._add_device(DeviceWrapper(device))`: wrap one configured device and add it. */
    method AddConfigured(cfg: DeviceConfig, outcome: ConnectOutcome) returns (w: DeviceWrapper)
      modifies discovery
      ensures fresh(w) && fresh(w.libdyson) && Added(w, cfg, hosts, outcome)
      ensures discovery.registrations == old(discovery.registrations) +
                if RouteFor(hosts, cfg.serial).ViaDiscovery? then [Registration(w.libdyson, w)] else []
      ensures discovery.running == old(discovery.running) && discovery.log == old(discovery.log)
    {
      w := new DeviceWrapper(cfg);
      AddDevice(w, true, outcome);
    }

    /** `_add_device(device, add_listener)`. */
    method AddDevice(device: DeviceWrapper, addListener: bool, outcome: ConnectOutcome)
      modifies device, device.libdyson, discovery
      ensures device.Model() == AddDeviceStep(old(device.Model()), RouteFor(hosts, device.serial), addListener,
                                              device.environmentRefreshSecs, outcome)
      // a manual address is connected to once; otherwise connect is not called here
      ensures device.attempts == old(device.attempts) + match RouteFor(hosts, device.serial)
                                                          case Direct(ip) => [ip]
                                                          case ViaDiscovery => []
      // exactly one discovery registration, and only on the discovery route
      ensures discovery.registrations == old(discovery.registrations) +
                if RouteFor(hosts, device.serial).ViaDiscovery? then [Registration(device.libdyson, device)] else []
      ensures discovery.running == old(discovery.running) && discovery.log == old(discovery.log)
    {
      if addListener {
        device.libdyson.AddMessageListener();
      }
      match RouteFor(hosts, device.serial) {
        case Direct(ip) =>
          device.Connect(ip, outcome);
        case ViaDiscovery =>
          discovery.RegisterDevice(device.libdyson, device);
      }
    }

    /** `_discovery_callback(device, address)`: connect to the address discovery found. */
    static method DiscoveryCallback(device: DeviceWrapper, address: string, outcome: ConnectOutcome)
      modifies device, device.libdyson
      ensures device.Model() == ConnectStep(old(device.Model()), address, DefaultRetrySecs,
                                            device.environmentRefreshSecs, outcome)
      ensures device.attempts == old(device.attempts) + [address]
    {
      device.Connect(address, outcome);
    }

    /** Discovery finds the device of registration `k` at `address` and runs its callback. */
    method Discovered(k: nat, address: string, outcome: ConnectOutcome)
      requires Valid() && k < |discovery.registrations|
      modifies discovery.registrations[k].callback, discovery.registrations[k].callback.libdyson
      ensures Valid()
      ensures var d := discovery.registrations[k].callback;
        d.Model() == ConnectStep(old(d.Model()), address, DefaultRetrySecs, DefaultRefreshSecs, outcome)
        && d.attempts == old(d.attempts) + [address]
    {
      DiscoveryCallback(discovery.registrations[k].callback, address, outcome);
    }

    /** A pending timer of a managed device fires (`connect` retry or `_timer_callback`);
        the manager's invariant survives it. */
    method TimerFired(d: DeviceWrapper, i: nat, connect: ConnectOutcome, request: RequestOutcome)
      requires Valid() && d in devices && i < |d.pending|
      modifies d, d.libdyson
      ensures Valid()
      ensures d.Model() == FireStep(old(d.Model()), i, DefaultRefreshSecs, connect, request)
    {
      d.Fire(i, connect, request);
    }

    /** The session of a managed device drops by itself; the manager's invariant survives it. */
    method LinkDropped(d: DeviceWrapper)
      requires Valid() && d in devices
      modifies d.libdyson
      ensures Valid()
      ensures d.Model() == LinkDownStep(old(d.Model()))
    {
      d.libdyson.LinkLost();
    }

    /** `_device_callback(device, message)`. `outcome` is how a reconnect to a configured
        address goes, should the device be re-added that way. */
    method DeviceCallback(device: DeviceWrapper, message: Message, outcome: ConnectOutcome)
      requires Valid() && device in devices
      modifies this, device, device.libdyson, discovery
      ensures Valid() && devices == old(devices)
      // seen disconnected: disconnect, restart discovery, re-add without a listener, no update
      ensures !old(device.IsConnected()) ==>
        && device.Model() == RediscoverStep(old(device.Model()), RouteFor(hosts, device.serial), DefaultRefreshSecs, outcome)
        && discovery.log == old(discovery.log) + [StopOp, StartOp]
        && discovery.registrations == old(discovery.registrations) +
             (if RouteFor(hosts, device.serial).ViaDiscovery? then [Registration(device.libdyson, device)] else [])
        && device.attempts == old(device.attempts) + (match RouteFor(hosts, device.serial)
                                                        case Direct(ip) => [ip]
                                                        case ViaDiscovery => [])
        && updates == old(updates)
      // connected: exactly one update with the device's name and the message's class; nothing else
      ensures old(device.IsConnected()) ==>
        && updates == old(updates) + [Update(device.name, device.libdyson, Classify(message).isState, Classify(message).isEnvironmental)]
        && device.Model() == old(device.Model()) && device.attempts == old(device.attempts)
        && discovery.log == old(discovery.log) && discovery.registrations == old(discovery.registrations)
    {
      if !device.IsConnected() {
        device.Disconnect();
        discovery.StopDiscovery();
        discovery.StartDiscovery();
        AddDevice(device, false, outcome);
        return;
      }
      var flags := Classify(message);
      updates := updates + [Update(device.name, device.libdyson, flags.isState, flags.isEnvironmental)];
    }
  }

  /** How `main` ends up after loading its configuration. */
  datatype Launch = Exit(status: int) | Serving(manager: ConnectionManager)

  /** The part of `main` after the configuration is loaded: no devices means exit -2;
      otherwise the manager is started on exactly the configured devices and hosts. */
  method StartUp(configs: seq<DeviceConfig>, hosts: map<string, string>, outcomes: seq<ConnectOutcome>)
    returns (launch: Launch)
    requires |outcomes| == |configs|
    ensures launch.Exit? <==> |configs| == 0
    ensures launch.Exit? ==> launch.status == -2
    ensures launch.Serving? ==>
              fresh(launch.manager) && launch.manager.Valid() && |launch.manager.devices| == |configs|
              && launch.manager.updates == [] && launch.manager.hosts == hosts
              && launch.manager.discovery.log == [StartOp]
              && launch.manager.discovery.registrations == Registrations(launch.manager.devices, hosts)
    ensures launch.Serving? ==>
              forall i :: 0 <= i < |configs| ==> Added(launch.manager.devices[i], configs[i], hosts, outcomes[i])
  {
    if |configs| == 0 {
      return Exit(-2);
    }
    var m := new ConnectionManager(configs, hosts, outcomes);
    launch := Serving(m);
  }
}
