/**
  The device object: one per peripheral, updated in place. The methods that
  change the device are proved to perform a step of DeviceSpec (`Connect`
  performs `ConnectStep`, a signal-strength reading `RssiStep`, a name
  update `BroadcastStep`, and so on) on the device's fields and on the
  shared request and notice logs; the others state the requests or notices
  they append.
 */
module DeviceModel {
  import opened Adapter
  import opened DeviceSpec

  class Device {
    const identifier: Uuid
    const central: Central
    const center: NotificationCenter

    /** Owned by the radio stack; the environment changes them. */
    var peripheralState: PeripheralState
    var peripheralName: Option<string>

    var lastSeen: int
    var rssi: int
    var lastState: State
    var lastName: string
    var connectDate: int
    /** The current signal-strength poll timer is scheduled. */
    var rssiTimer: bool
    /** Poll timers replaced by a later connect without being stopped. */
    var leakedPolls: nat

    function Data(): (d: DeviceData)
      reads this
    {
      DeviceData(identifier, peripheralState, peripheralName, lastSeen, rssi, lastState, lastName, connectDate, rssiTimer, leakedPolls)
    }

    /** The device now holds `o.dev`, and `o`'s requests and notices follow the earlier logs. */
    ghost predicate Produced(o: Outcome, requests0: seq<Request>, posted0: seq<Notice>)
      reads this, central, center
    {
      Data() == o.dev && central.requests == requests0 + o.requests && center.posted == posted0 + o.notices
    }

    constructor (identifier: Uuid, central: Central, center: NotificationCenter,
                 state: PeripheralState, name: Option<string>, rssi: int, now: int)
      ensures this.identifier == identifier && this.central == central && this.center == center
      ensures Data() == Created(identifier, state, name, rssi, now)
    {
      this.identifier := identifier;
      this.central := central;
      this.center := center;
      peripheralState := state;
      peripheralName := name;
      lastSeen := now;
      this.rssi := rssi;
      lastState := State.Disconnected;
      lastName := NameOf(name);
      connectDate := DistantPast;
      rssiTimer := false;
      leakedPolls := 0;
    }

    /** The `rssi` property with its change observer. */
    method SetRssi(value: int)
      modifies this, center
      ensures Produced(RssiStep(old(Data()), value), old(central.requests), old(center.posted))
    {
      var changed := value != rssi;
      rssi := value;
      if changed {
        center.Post(Notice(RssiChanged, FromDevice(identifier)));
      }
    }

    method BroadcastStateChange()
      modifies this, central, center
      ensures central.state == old(central.state)
      ensures Produced(BroadcastStep(old(Data())), old(central.requests), old(center.posted))
    {
      var s := Data().State();
      ghost var stateNotices: seq<Notice> := [];
      if s != lastState {
        if s == State.Connected {
          central.Send(DiscoverServices(identifier));
        }
        lastState := s;
        stateNotices := [Notice(StateChanged, FromDevice(identifier))];
        center.Post(Notice(StateChanged, FromDevice(identifier)));
      }
      var n := Data().DeviceName();
      if n != lastName {
        lastName := n;
        center.Post(Notice(NameChanged, FromDevice(identifier)));
        assert center.posted == old(center.posted) + (stateNotices + [Notice(NameChanged, FromDevice(identifier))]);
      }
    }

    /**
      Starts a connection attempt at wall-clock time `clock`; the radio stack
      answers the request by reporting the peripheral in state `reported`.
     */
    method Connect(clock: int, reported: PeripheralState)
      modifies this, central, center
      ensures central.state == old(central.state)
      ensures Produced(ConnectStep(old(Data()), clock, reported), old(central.requests), old(center.posted))
    {
      var s := Data().State();
      if s != State.Disconnected && s != State.Disconnecting {
        return;
      }
      Attempt(clock, reported);
      BroadcastStateChange();
    }

    /** The part of `Connect` before its broadcast: poll, stamps, request, and the state reported. */
    method Attempt(clock: int, reported: PeripheralState)
      modifies this, central
      ensures central.state == old(central.state)
      ensures central.requests == old(central.requests) + [ConnectPeripheral(identifier)]
      ensures Data() == Attempted(old(Data()), clock, reported)
    {
      if rssiTimer {
        leakedPolls := leakedPolls + 1;
      }
      rssiTimer := true;
      lastSeen := clock;
      connectDate := clock;
      central.Send(ConnectPeripheral(identifier));
      peripheralState := reported;
    }

    /** Abandons the connection (wanted or established) at wall-clock time `clock`. */
    method Disconnect(clock: int)
      modifies this, central, center
      ensures central.state == old(central.state)
      ensures Produced(DisconnectStep(old(Data()), clock), old(central.requests), old(center.posted))
    {
      if rssiTimer {
        rssiTimer := false;
        lastSeen := clock;
        BroadcastStateChange();
      }
      var s := Data().State();
      if s == State.Connected || s == State.Connecting {
        central.Send(CancelConnection(identifier));
      }
    }

    /**
      The liveness check at sweep time `now`, with the wall clock reading
      `clock` for the connect timeout.
     */
    method IsLost(now: int, clock: int) returns (lost: bool)
      modifies this, central, center
      ensures central.state == old(central.state)
      ensures Produced(ExpiryStep(old(Data()), clock), old(central.requests), old(center.posted))
      ensures lost == Lost(Data(), now)
      ensures lost == Lost(old(Data()), now)
    {
      if peripheralState == PeripheralState.Connecting && clock - connectDate >= ConnectInterval {
        Disconnect(clock);
      }
      lost := peripheralState == PeripheralState.Disconnected && lastSeen + DeviceLostInterval < now;
    }

    /** One tick of a poll timer: the current one or one left running by a repeated connect. */
    method RssiTimerFired()
      requires LivePolls(Data()) > 0
      modifies central
      ensures central.state == old(central.state)
      ensures central.requests == old(central.requests) + [ReadRssi(identifier)]
    {
      central.Send(ReadRssi(identifier));
    }

    /** The radio stack reports a fresh signal-strength reading. */
    method DidReadRssi(value: int)
      modifies this, center
      ensures Produced(RssiStep(old(Data()), value), old(central.requests), old(center.posted))
    {
      SetRssi(value);
    }

    /** The radio stack reports a new name for the peripheral. */
    method PeripheralDidUpdateName()
      modifies this, central, center
      ensures central.state == old(central.state)
      ensures Produced(BroadcastStep(old(Data())), old(central.requests), old(center.posted))
    {
      BroadcastStateChange();
    }

    /** The radio stack reports the peripheral's services (absent on failure). */
    method DidDiscoverServices(services: Option<seq<ServiceRef>>)
      modifies central, center
      ensures central.state == old(central.state)
      ensures Produced(ServicesStep(old(Data()), services), old(central.requests), old(center.posted))
    {
      center.Post(Notice(ServicesChanged, FromDevice(identifier)));
      var ss := Listed(services);
      ghost var r0 := central.requests;
      ghost var forCharacteristics := Probes(CharacteristicsOf, identifier, ss);
      ghost var forIncluded := Probes(IncludedServicesOf, identifier, ss);
      SendProbes(CharacteristicsOf, ss);
      SendProbes(IncludedServicesOf, ss);
      assert central.requests == r0 + (forCharacteristics + forIncluded);
    }

    /** The radio stack reports the characteristics of `service`. */
    method DidDiscoverCharacteristics(service: ServiceRef, characteristics: Option<seq<CharacteristicRef>>)
      modifies central, center
      ensures central.state == old(central.state)
      ensures Produced(CharacteristicsStep(old(Data()), service, characteristics), old(central.requests), old(center.posted))
    {
      center.Post(Notice(CharacteristicsChanged(service), FromDevice(identifier)));
      SendProbes(DescriptorsOf, Listed(characteristics));
    }

    /** One discovery request of kind `kind` for each of `refs`, in order. */
    method SendProbes(kind: Probe, refs: seq<nat>)
      modifies central
      ensures central.state == old(central.state)
      ensures central.requests == old(central.requests) + Probes(kind, identifier, refs)
    {
      for i := 0 to |refs|
        invariant central.requests == old(central.requests) + Probes(kind, identifier, refs[..i])
        invariant central.state == old(central.state)
      {
        assert refs[..i + 1] == refs[..i] + [refs[i]];
        ProbesAppend(kind, identifier, refs[..i], refs[i]);
        central.Send(ProbeRequest(kind, identifier, refs[i]));
      }
      assert refs[..|refs|] == refs;
    }

    /** The radio stack reports the included services of `service`. */
    method DidDiscoverIncludedServices(service: ServiceRef)
      modifies center
      ensures center.posted == old(center.posted) + [Notice(IncludedServicesChanged(service), FromDevice(identifier))]
    {
      center.Post(Notice(IncludedServicesChanged(service), FromDevice(identifier)));
    }

    /** The radio stack reports the descriptors of a characteristic of `owner`. */
    method DidDiscoverDescriptors(characteristic: CharacteristicRef, owner: ServiceRef)
      modifies center
      ensures center.posted == old(center.posted) + [Notice(DescriptorsChanged(owner), FromDevice(identifier))]
    {
      center.Post(Notice(DescriptorsChanged(owner), FromDevice(identifier)));
    }
  }
}
