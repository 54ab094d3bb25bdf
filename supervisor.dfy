/**
  One device's connection supervisor (`DeviceWrapper` in main.py): connect,
  retry on timeout, disconnect, and the self-rescheduling poll for
  environmental data.

  The value-level part (State and the *Step functions) is the specification;
  the class DeviceWrapper does the same thing by updating its fields and the
  transport's, and each of its methods is proved to land on the matching Step.
  Timers the device has started are kept as a sequence of pending timers; any
  one of them may fire next, which stands for the timer threads running
  concurrently.
*/
module Supervisor {
  import opened LibDyson

  /** The default of `connect`'s `retry_on_timeout_secs`. */
  const DefaultRetrySecs: nat := 30
  /** The default of `environment_refresh_secs`. */
  const DefaultRefreshSecs: nat := 30

  /** A configured device (`config.Device`): identity and credentials, read-only. */
  datatype DeviceConfig = DeviceConfig(name: string, serial: string, credentials: string, productType: string)

  /** What a timer calls when it fires: `connect(host)` again, or `_timer_callback`. */
  datatype Event = Retry(host: string) | Poll

  /** A started `threading.Timer` that has not fired yet. */
  datatype Timer = Timer(delay: nat, event: Event)

  /** A supervisor's state: its transport and its pending timers. */
  datatype State = State(link: Link, pending: seq<Timer>)

  /** A freshly built wrapper: never connected, nothing scheduled. */
  const Initial: State := State(Link(false, [], 0, 0, 0), [])

  /** The number of pending timers that will run `e`. */
  function Count(p: seq<Timer>, e: Event): nat
  {
    if p == [] then 0 else (if p[0].event == e then 1 else 0) + Count(p[1..], e)
  }

  lemma {:induction false} CountConcat(a: seq<Timer>, b: seq<Timer>, e: Event)
    ensures Count(a + b, e) == Count(a, e) + Count(b, e)
  {
    if a == [] {
      assert a + b == b;
    } else {
      assert (a + b)[1..] == a[1..] + b;
      CountConcat(a[1..], b, e);
    }
  }

  lemma CountSnoc(p: seq<Timer>, t: Timer, e: Event)
    ensures Count(p + [t], e) == Count(p, e) + if t.event == e then 1 else 0
  {
    CountConcat(p, [t], e);
  }

  /** The pending timers once the `i`-th has fired. */
  function Without(p: seq<Timer>, i: nat): (r: seq<Timer>)
    requires i < |p|
    ensures |r| == |p| - 1
  {
    p[..i] + p[i + 1..]
  }

  lemma CountWithout(p: seq<Timer>, i: nat, e: Event)
    requires i < |p|
    ensures Count(Without(p, i), e) + (if p[i].event == e then 1 else 0) == Count(p, e)
  {
    assert p == p[..i] + ([p[i]] + p[i + 1..]);
    CountConcat(p[..i], [p[i]] + p[i + 1..], e);
    CountConcat([p[i]], p[i + 1..], e);
    CountConcat(p[..i], p[i + 1..], e);
  }

  /** `connect(host, retry_on_timeout_secs)` on a supervisor whose poll interval is `refreshSecs`. */
  function ConnectStep(s: State, host: string, retrySecs: nat, refreshSecs: nat, outcome: ConnectOutcome): (r: State)
    // already connected: no transport call, no timer
    ensures s.link.connected ==> r == s
    // otherwise exactly one transport connect, to host, and it decides the new link state
    ensures !s.link.connected ==> r.link.connectCalls == s.link.connectCalls + [host]
    ensures !s.link.connected ==> (r.link.connected <==> outcome == Established)
    ensures r.link.envRequests == s.link.envRequests && r.link.listeners == s.link.listeners
    ensures r.link.disconnects == s.link.disconnects
    // success: exactly one new timer, a Poll after the refresh interval
    ensures !s.link.connected && outcome == Established ==> r.pending == s.pending + [Timer(refreshSecs, Poll)]
    // timeout: exactly one new timer, a Retry to the same host after the caller's interval
    ensures !s.link.connected && outcome == TimedOut ==> r.pending == s.pending + [Timer(retrySecs, Retry(host))]
  {
    if s.link.connected then s
    else
      var link := s.link.(connected := outcome == Established, connectCalls := s.link.connectCalls + [host]);
      match outcome
      case Established => State(link, s.pending + [Timer(refreshSecs, Poll)])
      case TimedOut => State(link, s.pending + [Timer(retrySecs, Retry(host))])
  }

  /** `_timer_callback`: poll and reschedule while connected, otherwise let the chain end. */
  function TimerCallbackStep(s: State, refreshSecs: nat, outcome: RequestOutcome): (r: State)
    // disconnected: no request and no new timer
    ensures !s.link.connected ==> r == s
    // connected: one request (lost if it raced a disconnect) and exactly one new Poll either way
    ensures s.link.connected ==> r.link == s.link.(envRequests := s.link.envRequests + if outcome == Sent then 1 else 0)
    ensures s.link.connected ==> r.pending == s.pending + [Timer(refreshSecs, Poll)]
  {
    if s.link.connected then
      var link := if outcome == Sent then s.link.(envRequests := s.link.envRequests + 1) else s.link;
      State(link, s.pending + [Timer(refreshSecs, Poll)])
    else s
  }

  /** The `i`-th pending timer fires. A retry timer calls `connect` with only the host
      (main.py:72-73), so the retried call waits the default interval, not the caller's. */
  function FireStep(s: State, i: nat, refreshSecs: nat, connect: ConnectOutcome, request: RequestOutcome): (r: State)
    requires i < |s.pending|
    // a firing retires its timer and starts at most one: timer chains never branch
    ensures |r.pending| <= |s.pending|
    ensures r.link.listeners == s.link.listeners && r.link.disconnects == s.link.disconnects
    // a retry that finds the device connected ends its chain and changes nothing else
    ensures s.pending[i].event.Retry? && s.link.connected ==> r == s.(pending := Without(s.pending, i))
    // a retry of a disconnected device connects again, to the same host
    ensures s.pending[i].event.Retry? && !s.link.connected ==>
              r.link.connectCalls == s.link.connectCalls + [s.pending[i].event.host]
              && (r.link.connected <==> connect == Established)
              && r.link.envRequests == s.link.envRequests
    ensures s.pending[i].event.Retry? && !s.link.connected && connect == TimedOut ==>
              r.pending == Without(s.pending, i) + [Timer(DefaultRetrySecs, s.pending[i].event)]
    ensures s.pending[i].event.Retry? && !s.link.connected && connect == Established ==>
              r.pending == Without(s.pending, i) + [Timer(refreshSecs, Poll)]
    // a poll of a connected device requests data and starts the next poll
    ensures s.pending[i].event.Poll? && s.link.connected ==>
              r.link == s.link.(envRequests := s.link.envRequests + if request == Sent then 1 else 0)
              && r.pending == Without(s.pending, i) + [Timer(refreshSecs, Poll)]
    // a poll of a disconnected device ends its chain and changes nothing else
    ensures s.pending[i].event.Poll? && !s.link.connected ==> r == s.(pending := Without(s.pending, i))
  {
    var rest := s.(pending := Without(s.pending, i));
    match s.pending[i].event
    case Retry(host) => ConnectStep(rest, host, DefaultRetrySecs, refreshSecs, connect)
    case Poll => TimerCallbackStep(rest, refreshSecs, request)
  }

  /** `disconnect()`: the transport is torn down; pending timers are not cancelled. */
  function DisconnectStep(s: State): (r: State)
    ensures !r.link.connected && r.link.disconnects == s.link.disconnects + 1
    ensures r.link.connectCalls == s.link.connectCalls && r.link.envRequests == s.link.envRequests
    ensures r.link.listeners == s.link.listeners && r.pending == s.pending
  {
    s.(link := s.link.(connected := false, disconnects := s.link.disconnects + 1))
  }

  /** The session drops without any call of the program. */
  function LinkDownStep(s: State): (r: State)
    // only the connected flag changes: no disconnect is recorded and no timer is touched
    ensures !r.link.connected && r.pending == s.pending
    ensures r.link.connectCalls == s.link.connectCalls && r.link.envRequests == s.link.envRequests
    ensures r.link.listeners == s.link.listeners && r.link.disconnects == s.link.disconnects
  {
    s.(link := s.link.(connected := false))
  }

  /** One thing that can happen to a supervisor. */
  datatype Step =
    | FireAt(index: nat, connect: ConnectOutcome, request: RequestOutcome)   // a pending timer fires
    | ConnectCall(host: string, retrySecs: nat, outcome: ConnectOutcome)      // `connect` from the manager or discovery
    | DisconnectCall                                                          // `disconnect` from the manager
    | LinkDown                                                                // the transport drops by itself

  /** The effect of one step; a firing that names no pending timer has nothing to fire. */
  function Apply(s: State, refreshSecs: nat, step: Step): State
  {
    match step
    case FireAt(i, c, q) => if i < |s.pending| then FireStep(s, i, refreshSecs, c, q) else s
    case ConnectCall(host, retrySecs, c) => ConnectStep(s, host, retrySecs, refreshSecs, c)
    case DisconnectCall => DisconnectStep(s)
    case LinkDown => LinkDownStep(s)
  }

  /** The state after a run of steps, in order. */
  function Exec(s: State, refreshSecs: nat, steps: seq<Step>): State
    decreases |steps|
  {
    if steps == [] then s else Exec(Apply(s, refreshSecs, steps[0]), refreshSecs, steps[1..])
  }

  /** The number of `connect` calls from outside the supervisor in a run. */
  function Attempts(steps: seq<Step>): nat
  {
    if steps == [] then 0 else (if steps[0].ConnectCall? then 1 else 0) + Attempts(steps[1..])
  }

  /** A connected device always has a poll on its way. */
  ghost predicate PollChainLive(s: State)
  {
    s.link.connected ==> Count(s.pending, Poll) >= 1
  }

  lemma ApplyKeepsPollChainLive(s: State, refreshSecs: nat, step: Step)
    requires PollChainLive(s)
    ensures PollChainLive(Apply(s, refreshSecs, step))
  {
    match step
    case FireAt(i, c, q) =>
      if i < |s.pending| {
        CountWithout(s.pending, i, Poll);
        CountSnoc(Without(s.pending, i), Timer(refreshSecs, Poll), Poll);
      }
    case ConnectCall(host, retrySecs, c) =>
      CountSnoc(s.pending, Timer(refreshSecs, Poll), Poll);
    case DisconnectCall =>
    case LinkDown =>
  }

  /** Whatever happens, a connected device keeps a live poll chain: once `connect` succeeds,
      polling does not stop before the device is seen disconnected. */
  lemma {:induction false} ExecKeepsPollChainLive(s: State, refreshSecs: nat, steps: seq<Step>)
    requires PollChainLive(s)
    ensures PollChainLive(Exec(s, refreshSecs, steps))
    decreases |steps|
  {
    if steps != [] {
      ApplyKeepsPollChainLive(s, refreshSecs, steps[0]);
      ExecKeepsPollChainLive(Apply(s, refreshSecs, steps[0]), refreshSecs, steps[1..]);
    }
  }

  /** Timers never proliferate: only a `connect` from outside can add to the pending timers. */
  lemma {:induction false} ExecBoundsTimers(s: State, refreshSecs: nat, steps: seq<Step>)
    ensures |Exec(s, refreshSecs, steps).pending| <= |s.pending| + Attempts(steps)
    decreases |steps|
  {
    if steps != [] {
      ExecBoundsTimers(Apply(s, refreshSecs, steps[0]), refreshSecs, steps[1..]);
    }
  }

  /** Every connect attempt in the run times out. */
  ghost predicate AllTimeOut(steps: seq<Step>)
  {
    forall k :: 0 <= k < |steps| ==>
      (steps[k].FireAt? ==> steps[k].connect == TimedOut) &&
      (steps[k].ConnectCall? ==> steps[k].outcome == TimedOut)
  }

  lemma ApplyUnderTimeout(s: State, refreshSecs: nat, step: Step, host: string)
    requires !s.link.connected
    requires step.FireAt? ==> step.connect == TimedOut
    requires step.ConnectCall? ==> step.outcome == TimedOut
    ensures var r := Apply(s, refreshSecs, step);
      !r.link.connected && r.link.envRequests == s.link.envRequests
      && Count(r.pending, Retry(host)) >= Count(s.pending, Retry(host))
      && Count(r.pending, Poll) <= Count(s.pending, Poll)
  {
    match step
    case FireAt(i, c, q) =>
      if i < |s.pending| {
        var t := s.pending[i];
        CountWithout(s.pending, i, Retry(host));
        CountWithout(s.pending, i, Poll);
        if t.event.Retry? {
          CountSnoc(Without(s.pending, i), Timer(DefaultRetrySecs, t.event), Retry(host));
          CountSnoc(Without(s.pending, i), Timer(DefaultRetrySecs, t.event), Poll);
        }
      }
    case ConnectCall(h, retrySecs, c) =>
      CountSnoc(s.pending, Timer(retrySecs, Retry(h)), Retry(host));
      CountSnoc(s.pending, Timer(retrySecs, Retry(h)), Poll);
    case DisconnectCall =>
    case LinkDown =>
  }

  /** Retry liveness: while every attempt times out the device stays disconnected, no scheduled
      retry to `host` is ever lost, no poll chain is started and no data request goes out. */
  lemma {:induction false} ExecUnderTimeouts(s: State, refreshSecs: nat, steps: seq<Step>, host: string)
    requires !s.link.connected
    requires AllTimeOut(steps)
    ensures var r := Exec(s, refreshSecs, steps);
      !r.link.connected && r.link.envRequests == s.link.envRequests
      && Count(r.pending, Retry(host)) >= Count(s.pending, Retry(host))
      && Count(r.pending, Poll) <= Count(s.pending, Poll)
    decreases |steps|
  {
    if steps != [] {
      var s1 := Apply(s, refreshSecs, steps[0]);
      ApplyUnderTimeout(s, refreshSecs, steps[0], host);
      assert AllTimeOut(steps[1..]) by {
        forall k | 0 <= k < |steps[1..]|
          ensures (steps[1..][k].FireAt? ==> steps[1..][k].connect == TimedOut)
          ensures (steps[1..][k].ConnectCall? ==> steps[1..][k].outcome == TimedOut)
        {
          assert steps[1..][k] == steps[k + 1];
        }
      }
      ExecUnderTimeouts(s1, refreshSecs, steps[1..], host);
    }
  }

  /** No step in the run takes the link down. */
  ghost predicate LinkStaysUp(steps: seq<Step>)
  {
    forall k :: 0 <= k < |steps| ==> !steps[k].DisconnectCall? && !steps[k].LinkDown?
  }

  lemma ApplyWhileConnected(s: State, refreshSecs: nat, step: Step)
    requires s.link.connected
    requires !step.DisconnectCall? && !step.LinkDown?
    ensures var r := Apply(s, refreshSecs, step);
      r.link.connected && r.link.connectCalls == s.link.connectCalls
      && Count(r.pending, Poll) == Count(s.pending, Poll)
  {
    match step
    case FireAt(i, c, q) =>
      if i < |s.pending| {
        CountWithout(s.pending, i, Poll);
        CountSnoc(Without(s.pending, i), Timer(refreshSecs, Poll), Poll);
      }
    case ConnectCall(host, retrySecs, c) =>
  }

  /** While the link stays up: `connect` never reaches the transport again (connect is
      idempotent however often it is retried or rediscovered) and the number of poll chains
      neither grows nor shrinks. */
  lemma {:induction false} ExecWhileConnected(s: State, refreshSecs: nat, steps: seq<Step>)
    requires s.link.connected
    requires LinkStaysUp(steps)
    ensures var r := Exec(s, refreshSecs, steps);
      r.link.connected && r.link.connectCalls == s.link.connectCalls
      && Count(r.pending, Poll) == Count(s.pending, Poll)
    decreases |steps|
  {
    if steps != [] {
      assert !steps[0].DisconnectCall? && !steps[0].LinkDown? by {
        assert 0 < |steps|;
      }
      ApplyWhileConnected(s, refreshSecs, steps[0]);
      assert LinkStaysUp(steps[1..]) by {
        forall k | 0 <= k < |steps[1..]|
          ensures !steps[1..][k].DisconnectCall? && !steps[1..][k].LinkDown?
        {
          assert steps[1..][k] == steps[k + 1];
        }
      }
      ExecWhileConnected(Apply(s, refreshSecs, steps[0]), refreshSecs, steps[1..]);
    }
  }

  /** The source does not keep "at most one poll chain per device": if the link drops and the
      device is reconnected before the old poll has fired, the old poll finds the device
      connected and keeps its chain going beside the new one. */
  lemma ReconnectKeepsStalePollChain()
    ensures var s := State(Link(true, ["10.0.0.5"], 0, 1, 0), [Timer(30, Poll)]);
      var r := Exec(s, 30, [LinkDown, DisconnectCall, ConnectCall("10.0.0.5", 30, Established), FireAt(0, Established, Sent)]);
      r.link.connected && r.pending == [Timer(30, Poll), Timer(30, Poll)] && Count(r.pending, Poll) == 2
  {
  }

  /** `DeviceWrapper`: one configured device, its transport, and the timers it has started. */
  class DeviceWrapper {
    const config: DeviceConfig
    const name: string
    const serial: string
    const environmentRefreshSecs: nat
    const libdyson: DysonDevice
    /** Timers started by this wrapper that have not fired yet. */
    var pending: seq<Timer>
    /** The hosts `connect` was invoked with, in order, whatever each call then did. */
    ghost var attempts: seq<string>

    function Model(): State
      reads this, libdyson
    {
      State(libdyson.View(), pending)
    }

    constructor (device: DeviceConfig, environmentRefreshSecs: nat := DefaultRefreshSecs)
      ensures config == device && name == device.name && serial == device.serial
      ensures this.environmentRefreshSecs == environmentRefreshSecs
      ensures fresh(libdyson) && libdyson.serial == device.serial
      ensures Model() == Initial && attempts == []
    {
      config := device;
      name := device.name;
      serial := device.serial;
      this.environmentRefreshSecs := environmentRefreshSecs;
      libdyson := new DysonDevice(device.serial);
      pending := [];
      attempts := [];
    }

    /** `is_connected`: the live transport state. */
    predicate IsConnected()
      reads libdyson
      ensures IsConnected() <==> Model().link.connected
    {
      libdyson.connected
    }

    method Connect(host: string, outcome: ConnectOutcome, retryOnTimeoutSecs: nat := DefaultRetrySecs)
      modifies this, libdyson
      ensures Model() == ConnectStep(old(Model()), host, retryOnTimeoutSecs, environmentRefreshSecs, outcome)
      ensures attempts == old(attempts) + [host]
    {
      attempts := attempts + [host];
      if !IsConnected() {
        var timedOut := libdyson.Connect(host, outcome);
        if timedOut {
          pending := pending + [Timer(retryOnTimeoutSecs, Retry(host))];
        } else {
          RefreshTimer();
        }
      }
    }

    method Disconnect()
      modifies libdyson
      ensures Model() == DisconnectStep(old(Model()))
    {
      libdyson.Disconnect();
    }

    /** `_refresh_timer`: start one poll timer. */
    method RefreshTimer()
      modifies this
      ensures pending == old(pending) + [Timer(environmentRefreshSecs, Poll)]
      ensures attempts == old(attempts)
    {
      pending := pending + [Timer(environmentRefreshSecs, Poll)];
    }

    method TimerCallback(outcome: RequestOutcome)
      modifies this, libdyson
      ensures Model() == TimerCallbackStep(old(Model()), environmentRefreshSecs, outcome)
      ensures attempts == old(attempts)
    {
      if IsConnected() {
        // a raised AttributeError is logged and the iteration skipped; the poll is rescheduled anyway
        var raised := libdyson.RequestEnvironmentalData(outcome);
        RefreshTimer();
      }
    }

    /** The `i`-th pending timer fires and runs its callback. */
    method Fire(i: nat, connect: ConnectOutcome, request: RequestOutcome)
      requires i < |pending|
      modifies this, libdyson
      ensures Model() == FireStep(old(Model()), i, environmentRefreshSecs, connect, request)
      ensures old(pending[i]).event.Retry? ==> attempts == old(attempts) + [old(pending[i]).event.host]
      ensures old(pending[i]).event.Poll? ==> attempts == old(attempts)
    {
      var t := pending[i];
      pending := Without(pending, i);
      match t.event {
        case Retry(host) =>
          // `threading.Timer(..., self.connect, args=[host])`: the interval argument is not passed on
          Connect(host, connect);
        case Poll =>
          TimerCallback(request);
      }
    }
  }
}
