/**
  The per-peripheral connection state machine as values.

  A `DeviceData` is everything one device object holds; each operation of the
  device is a step function from the old data to an `Outcome`: the new data,
  the requests issued to the radio stack and the notices posted, in order.
  The class in DeviceModel is proved to perform exactly these steps.

  Times are integers in milliseconds.
 */
module DeviceSpec {
  import opened Adapter

  /** A disconnected device not advertised for longer than this is lost. */
  const DeviceLostInterval: int := 10_000
  /** A connection attempt older than this is abandoned. */
  const ConnectInterval: int := 10_000
  /** Period of the signal-strength poll while a connection is wanted. */
  const RssiReadInterval: int := 500
  /** The platform's earliest representable date, 0001-01-01, relative to 2001-01-01. */
  const DistantPast: int := -63_114_076_800_000
  /** The name shown for a peripheral that advertises none. */
  const UnknownName: string := "unknown"

  /** The device's own view of the connection state. */
  datatype State = Connected | Connecting | Disconnected | Disconnecting

  /** The device state read from the peripheral's state: each case to its namesake. */
  function StateOf(p: PeripheralState): (s: State)
    ensures s == State.Connected <==> p == PeripheralState.Connected
    ensures s == State.Connecting <==> p == PeripheralState.Connecting
    ensures s == State.Disconnected <==> p == PeripheralState.Disconnected
    ensures s == State.Disconnecting <==> p == PeripheralState.Disconnecting
  {
    match p
    case Connected => State.Connected
    case Connecting => State.Connecting
    case Disconnected => State.Disconnected
    case Disconnecting => State.Disconnecting
  }

  /** The displayed name: the peripheral's name, or a placeholder when it has none. */
  function NameOf(name: Option<string>): (n: string)
    ensures name.Some? ==> n == name.value
    ensures name.None? ==> n == UnknownName
  {
    match name
    case Some(s) => s
    case None => UnknownName
  }

  /**
    One device. `peripheral` and `name` belong to the radio stack and change
    under the device's feet; the rest is the device's own bookkeeping.
   */
  datatype DeviceData = DeviceData(
    identifier: Uuid,
    peripheral: PeripheralState,
    name: Option<string>,
    lastSeen: int,
    rssi: int,
    lastState: State,
    lastName: string,
    connectDate: int,
    rssiTimer: bool,
    leakedPolls: nat)
  {
    function State(): State { StateOf(peripheral) }
    function DeviceName(): string { NameOf(name) }
  }

  /**
    The poll timers still firing for the device: the current one, if any,
    and those a repeated connect replaced without invalidating them.
   */
  function LivePolls(d: DeviceData): nat
  {
    d.leakedPolls + if d.rssiTimer then 1 else 0
  }

  datatype Outcome = Outcome(dev: DeviceData, requests: seq<Request>, notices: seq<Notice>)

  /** A step that changes nothing and says nothing. */
  function Idle(d: DeviceData): Outcome
  {
    Outcome(d, [], [])
  }

  /** `first` followed by `next`, a step taken from `first.dev`. */
  function AndThen(first: Outcome, next: Outcome): Outcome
  {
    Outcome(next.dev, first.requests + next.requests, first.notices + next.notices)
  }

  function Notify(d: DeviceData, topic: Topic): Notice
  {
    Notice(topic, FromDevice(d.identifier))
  }

  /** The device as first created for a newly sighted peripheral. */
  function Created(id: Uuid, state: PeripheralState, name: Option<string>, rssi: int, now: int): (d: DeviceData)
    ensures d.identifier == id && d.peripheral == state && d.name == name
    ensures d.lastSeen == now && d.rssi == rssi
    ensures d.lastState == State.Disconnected && d.lastName == d.DeviceName()
    ensures d.connectDate == DistantPast && LivePolls(d) == 0
  {
    DeviceData(id, state, name, now, rssi, State.Disconnected, NameOf(name), DistantPast, false, 0)
  }

  /** Assigning the signal strength: only a different value is announced. */
  function RssiStep(d: DeviceData, value: int): (o: Outcome)
    ensures o.dev == d.(rssi := value) && o.requests == []
    ensures o.notices != [] <==> value != d.rssi
    ensures o.notices != [] ==> o.notices == [Notify(d, RssiChanged)]
  {
    Outcome(d.(rssi := value), [], if value != d.rssi then [Notify(d, RssiChanged)] else [])
  }

  /** Nothing to broadcast: the state and the name are the ones last announced. */
  predicate Quiet(d: DeviceData)
  {
    d.State() == d.lastState && d.DeviceName() == d.lastName
  }

  /**
    Edge detection on the state and, independently, on the name; entering
    the connected state starts service discovery.
   */
  function BroadcastStep(d: DeviceData): (o: Outcome)
    ensures o.dev == d.(lastState := d.State(), lastName := d.DeviceName())
    ensures Quiet(o.dev)
    ensures Notify(d, StateChanged) in o.notices <==> d.State() != d.lastState
    ensures Notify(d, NameChanged) in o.notices <==> d.DeviceName() != d.lastName
    ensures |o.notices| <= 2
    ensures DiscoverServices(d.identifier) in o.requests <==> d.State() != d.lastState && d.State() == State.Connected
    ensures |o.requests| <= 1
    ensures o.requests == [] && o.notices == [] <==> Quiet(d)
  {
    var s := d.State();
    var n := d.DeviceName();
    var stateChanged := s != d.lastState;
    var nameChanged := n != d.lastName;
    Outcome(
      d.(lastState := s, lastName := n),
      if stateChanged && s == State.Connected then [DiscoverServices(d.identifier)] else [],
      (if stateChanged then [Notify(d, StateChanged)] else []) + (if nameChanged then [Notify(d, NameChanged)] else []))
  }

  /** A broadcast posts only state and name changes and requests only service discovery. */
  lemma BroadcastStepOnly(d: DeviceData)
    ensures var o := BroadcastStep(d);
      && (forall n | n in o.notices :: n == Notify(d, StateChanged) || n == Notify(d, NameChanged))
      && (forall r | r in o.requests :: r == DiscoverServices(d.identifier))
  {
  }

  /** A second broadcast with no change in between posts nothing and requests nothing. */
  lemma BroadcastIdempotent(d: DeviceData)
    ensures BroadcastStep(BroadcastStep(d).dev) == Idle(BroadcastStep(d).dev)
  {
  }

  /** Connecting is allowed only from the disconnected and disconnecting states. */
  predicate CanConnect(d: DeviceData)
  {
    d.State() == State.Disconnected || d.State() == State.Disconnecting
  }

  /**
    A connection attempt at wall-clock time `clock`. `reported` is the
    peripheral state the radio stack reports once the request is issued;
    the broadcast that ends the attempt reads it. A poll timer already
    running is replaced without being stopped.
   */
  function ConnectStep(d: DeviceData, clock: int, reported: PeripheralState): (o: Outcome)
    ensures !CanConnect(d) ==> o == Idle(d)
    ensures CanConnect(d) ==>
      && o.dev.lastSeen == clock && o.dev.connectDate == clock && o.dev.rssiTimer
      && o.dev.peripheral == reported
      && LivePolls(o.dev) == LivePolls(d) + 1
      && o.requests == [ConnectPeripheral(d.identifier)]
           + (if StateOf(reported) == State.Connected && d.lastState != State.Connected then [DiscoverServices(d.identifier)] else [])
      && (Notify(d, StateChanged) in o.notices <==> StateOf(reported) != d.lastState)
      && Quiet(o.dev)
    ensures o.dev.identifier == d.identifier && o.dev.rssi == d.rssi
  {
    if !CanConnect(d) then Idle(d)
    else
      var b := BroadcastStep(Attempted(d, clock, reported));
      Outcome(b.dev, [ConnectPeripheral(d.identifier)] + b.requests, b.notices)
  }

  /** The device once an attempt is under way, before its broadcast. */
  function Attempted(d: DeviceData, clock: int, reported: PeripheralState): DeviceData
  {
    var leaked := if d.rssiTimer then d.leakedPolls + 1 else d.leakedPolls;
    d.(rssiTimer := true, leakedPolls := leaked, lastSeen := clock, connectDate := clock, peripheral := reported)
  }

  /** A connection attempt to cancel: connected or still connecting. */
  predicate CanCancel(d: DeviceData)
  {
    d.State() == State.Connected || d.State() == State.Connecting
  }

  /**
    Stopping the poll (which re-stamps `lastSeen` and broadcasts, only if a
    poll was running), then cancelling the connection if there is one.
   */
  function DisconnectStep(d: DeviceData, clock: int): (o: Outcome)
    ensures !o.dev.rssiTimer && o.dev.leakedPolls == d.leakedPolls
    ensures o.dev.lastSeen == if d.rssiTimer then clock else d.lastSeen
    ensures CancelConnection(d.identifier) in o.requests <==> CanCancel(d)
    ensures !d.rssiTimer ==> o.dev == d && o.notices == []
    ensures d.rssiTimer ==> Quiet(o.dev)
    ensures o.dev.identifier == d.identifier && o.dev.peripheral == d.peripheral && o.dev.rssi == d.rssi
    ensures o.dev.connectDate == d.connectDate
  {
    var stopped :=
      if d.rssiTimer then BroadcastStep(d.(rssiTimer := false, lastSeen := clock))
      else Idle(d);
    var cancel := if CanCancel(d) then [CancelConnection(d.identifier)] else [];
    Outcome(stopped.dev, stopped.requests + cancel, stopped.notices)
  }

  /** A disconnect requests only a cancel and service discovery, and posts only as the device. */
  lemma DisconnectStepOnly(d: DeviceData, clock: int)
    ensures var o := DisconnectStep(d, clock);
      && (forall r | r in o.requests :: r == CancelConnection(d.identifier) || r == DiscoverServices(d.identifier))
      && AllFromDevices(o.notices)
  {
    if d.rssiTimer {
      BroadcastStepOnly(d.(rssiTimer := false, lastSeen := clock));
    }
  }

  /** Disconnecting twice in a row: the second call only repeats the cancel request. */
  lemma DisconnectTwice(d: DeviceData, clock: int, later: int)
    ensures var o := DisconnectStep(DisconnectStep(d, clock).dev, later);
      o.dev == DisconnectStep(d, clock).dev && o.notices == []
      && o.requests == if CanCancel(d) then [CancelConnection(d.identifier)] else []
  {
  }

  /** Connecting a quiet, disconnected device that the radio stack reports connecting announces that state, and only that. */
  lemma ConnectAnnounced(d: DeviceData, clock: int)
    requires d.State() == State.Disconnected && Quiet(d)
    ensures var o := ConnectStep(d, clock, PeripheralState.Connecting);
      && o.dev.State() == State.Connecting && o.dev.lastState == State.Connecting
      && o.notices == [Notify(d, StateChanged)]
      && o.requests == [ConnectPeripheral(d.identifier)]
  {
  }

  /**
    A failed attempt leaves its poll running; the retry replaces that timer
    without stopping it, so after a disconnect one poll is still firing.
   */
  lemma FailedAttemptLeaksPoll(d: DeviceData, first: int, failed: int, retry: int, clock: int)
    requires CanConnect(d) && LivePolls(d) == 0
    ensures var attempt := ConnectStep(d, first, PeripheralState.Connecting).dev;
      var refused := SeenStep(attempt.(peripheral := PeripheralState.Disconnected), failed).dev;
      var again := ConnectStep(refused, retry, PeripheralState.Connecting).dev;
      LivePolls(DisconnectStep(again, clock).dev) == 1
  {
  }

  /** The connect-timeout rule: still connecting 10 s after the attempt began. */
  predicate TimedOut(d: DeviceData, clock: int)
  {
    d.peripheral == PeripheralState.Connecting && clock - d.connectDate >= ConnectInterval
  }

  /** The expiry rule: disconnected and not seen for more than 10 s. */
  predicate Lost(d: DeviceData, now: int)
    ensures Lost(d, now) ==> d.State() == State.Disconnected
    ensures Lost(d, now) <==> d.State() == State.Disconnected && now - d.lastSeen > DeviceLostInterval
  {
    d.peripheral == PeripheralState.Disconnected && d.lastSeen + DeviceLostInterval < now
  }

  /** The side effect of the liveness check: a timed-out attempt is disconnected. */
  function ExpiryStep(d: DeviceData, clock: int): (o: Outcome)
    ensures TimedOut(d, clock) ==> CancelConnection(d.identifier) in o.requests && !o.dev.rssiTimer
    ensures !TimedOut(d, clock) ==> o == Idle(d)
    ensures o.dev.identifier == d.identifier && o.dev.peripheral == d.peripheral
  {
    if TimedOut(d, clock) then DisconnectStep(d, clock) else Idle(d)
  }

  /** What the liveness check posts, it posts as the device. */
  lemma ExpiryStepFromDevice(d: DeviceData, clock: int)
    ensures AllFromDevices(ExpiryStep(d, clock).notices)
  {
    DisconnectStepOnly(d, clock);
  }

  /** The forced disconnect never changes the verdict: a timed-out device is connecting, hence not lost. */
  lemma ExpiryKeepsVerdict(d: DeviceData, now: int, clock: int)
    ensures Lost(ExpiryStep(d, clock).dev, now) == Lost(d, now)
  {
  }

  /** However stale, a device that is not disconnected is never lost. */
  lemma ActiveNeverLost(d: DeviceData, now: int)
    requires d.State() != State.Disconnected
    ensures !Lost(d, now)
  {
  }

  /** An advertisement from a known device: stamp, record the strength, re-check state and name. */
  function AdvertisementStep(d: DeviceData, now: int, rssi: int): (o: Outcome)
    ensures o.dev.lastSeen == now && o.dev.rssi == rssi && Quiet(o.dev)
    ensures o.dev.identifier == d.identifier && o.dev.peripheral == d.peripheral
    ensures o.dev.rssiTimer == d.rssiTimer && o.dev.connectDate == d.connectDate
    ensures Notify(d, RssiChanged) in o.notices <==> rssi != d.rssi
  {
    var seen := d.(lastSeen := now);
    var r := RssiStep(seen, rssi);
    AndThen(r, BroadcastStep(r.dev))
  }

  /** The same advertisement twice: the second announces nothing and requests nothing. */
  lemma AdvertisementRepeated(d: DeviceData, now: int, later: int, rssi: int)
    ensures var o := AdvertisementStep(AdvertisementStep(d, now, rssi).dev, later, rssi);
      o.notices == [] && o.requests == []
  {
  }

  /** A connection callback (connected or failed): stamp and re-check state and name. */
  function SeenStep(d: DeviceData, now: int): (o: Outcome)
    ensures o.dev.lastSeen == now && Quiet(o.dev)
    ensures o.dev.identifier == d.identifier && o.dev.peripheral == d.peripheral && o.dev.rssi == d.rssi
    ensures o.dev.rssiTimer == d.rssiTimer && o.dev.connectDate == d.connectDate
  {
    BroadcastStep(d.(lastSeen := now))
  }

  /** The disconnection callback: disconnect, then re-check state and name. */
  function DroppedStep(d: DeviceData, clock: int): (o: Outcome)
    ensures !o.dev.rssiTimer && o.dev.leakedPolls == d.leakedPolls && Quiet(o.dev)
    ensures o.dev.identifier == d.identifier && o.dev.peripheral == d.peripheral && o.dev.rssi == d.rssi
    ensures CancelConnection(d.identifier) in o.requests <==> CanCancel(d)
  {
    var first := DisconnectStep(d, clock);
    AndThen(first, BroadcastStep(first.dev))
  }

  /** The kinds of per-element discovery a discovery callback fans out to. */
  datatype Probe = CharacteristicsOf | IncludedServicesOf | DescriptorsOf

  function ProbeRequest(kind: Probe, id: Uuid, ref: nat): Request
  {
    match kind
    case CharacteristicsOf => DiscoverCharacteristics(id, ref)
    case IncludedServicesOf => DiscoverIncludedServices(id, ref)
    case DescriptorsOf => DiscoverDescriptors(id, ref)
  }

  /** One request of the given kind per element of `refs`, in order. */
  function Probes(kind: Probe, id: Uuid, refs: seq<nat>): (r: seq<Request>)
    ensures |r| == |refs|
  {
    if refs == [] then [] else [ProbeRequest(kind, id, refs[0])] + Probes(kind, id, refs[1..])
  }

  /** The request at position `i` is the one for `refs[i]`. */
  lemma {:induction false} ProbesAt(kind: Probe, id: Uuid, refs: seq<nat>)
    ensures forall i | 0 <= i < |refs| :: Probes(kind, id, refs)[i] == ProbeRequest(kind, id, refs[i])
  {
    if refs != [] {
      ProbesAt(kind, id, refs[1..]);
    }
  }

  lemma ProbesAppend(kind: Probe, id: Uuid, refs: seq<nat>, ref: nat)
    ensures Probes(kind, id, refs + [ref]) == Probes(kind, id, refs) + [ProbeRequest(kind, id, ref)]
  {
    var a := Probes(kind, id, refs + [ref]);
    var b := Probes(kind, id, refs) + [ProbeRequest(kind, id, ref)];
    ProbesAt(kind, id, refs + [ref]);
    ProbesAt(kind, id, refs);
    assert |a| == |b|;
    forall i | 0 <= i < |a| ensures a[i] == b[i] {
      assert (refs + [ref])[i] == if i < |refs| then refs[i] else ref;
    }
  }

  /**
    Services discovered: announce them, then ask for the characteristics of
    every service and then for the included services of every service.
   */
  function ServicesStep(d: DeviceData, services: Option<seq<ServiceRef>>): (o: Outcome)
    ensures o.dev == d
    ensures o.notices == [Notify(d, ServicesChanged)]
    ensures |o.requests| == 2 * |Listed(services)|
  {
    var ss := Listed(services);
    Outcome(d, Probes(CharacteristicsOf, d.identifier, ss) + Probes(IncludedServicesOf, d.identifier, ss), [Notify(d, ServicesChanged)])
  }

  /** Each discovered service is asked once for its characteristics, then once for its included services. */
  lemma ServicesStepRequests(d: DeviceData, services: Option<seq<ServiceRef>>)
    ensures var ss, o := Listed(services), ServicesStep(d, services);
      && (forall i | 0 <= i < |ss| :: o.requests[i] == DiscoverCharacteristics(d.identifier, ss[i]))
      && (forall i | 0 <= i < |ss| :: o.requests[|ss| + i] == DiscoverIncludedServices(d.identifier, ss[i]))
  {
    ProbesAt(CharacteristicsOf, d.identifier, Listed(services));
    ProbesAt(IncludedServicesOf, d.identifier, Listed(services));
  }

  /** Characteristics of `service` discovered: announce them, then ask for each one's descriptors. */
  function CharacteristicsStep(d: DeviceData, service: ServiceRef, characteristics: Option<seq<CharacteristicRef>>): (o: Outcome)
    ensures o.dev == d
    ensures o.notices == [Notify(d, CharacteristicsChanged(service))]
    ensures |o.requests| == |Listed(characteristics)|
  {
    Outcome(d, Probes(DescriptorsOf, d.identifier, Listed(characteristics)), [Notify(d, CharacteristicsChanged(service))])
  }

  /** Each discovered characteristic is asked once for its descriptors, in order. */
  lemma CharacteristicsStepRequests(d: DeviceData, service: ServiceRef, characteristics: Option<seq<CharacteristicRef>>)
    ensures var cs, o := Listed(characteristics), CharacteristicsStep(d, service, characteristics);
      forall i | 0 <= i < |cs| :: o.requests[i] == DiscoverDescriptors(d.identifier, cs[i])
  {
    ProbesAt(DescriptorsOf, d.identifier, Listed(characteristics));
  }
}
