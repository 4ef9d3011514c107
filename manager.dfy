/**
  The registry: the map from peripheral identifier to device, the scan and
  expiry lifecycle, and the routing of radio callbacks to devices.
 */
module ManagerModel {
  import opened Adapter
  import opened DeviceSpec
  import opened DeviceModel
  import opened UuidOrder

  /** Period of the expiry sweep while scanning. */
  const ExpiryInterval: int := 500

  function ManagerNotice(topic: Topic): Notice
  {
    Notice(topic, FromManager)
  }

  /** The entries whose peripheral is connected, and only those. */
  function ConnectedOnly(m: map<Uuid, Device>): (r: map<Uuid, Device>)
    reads m.Values
    ensures forall k :: k in r <==> k in m && m[k].peripheralState == PeripheralState.Connected
    ensures forall k | k in r :: r[k] == m[k]
  {
    map k | k in m && m[k].peripheralState == PeripheralState.Connected :: m[k]
  }

  /** The registry-changed notice when the registry goes from `m0` to a different `m1`, nothing otherwise. */
  function Change(m0: map<Uuid, Device>, m1: map<Uuid, Device>): (n: seq<Notice>)
    ensures n != [] <==> m1 != m0
    ensures n != [] ==> n == [ManagerNotice(DevicesChanged)]
  {
    if m1 != m0 then [ManagerNotice(DevicesChanged)] else []
  }

  /** `order` lists the keys of `m` in display order, and `before` what their devices hold, in that order. */
  ghost predicate Ordered(m: map<Uuid, Device>, order: seq<Uuid>, before: seq<DeviceData>)
    reads m.Values
  {
    && Ascending(order) && (forall k :: k in order <==> k in m)
    && |before| == |order|
    && forall i | 0 <= i < |order| :: order[i] in m && before[i] == m[order[i]].Data()
  }

  /** The requests of disconnecting the devices holding `ds`, one after the other. */
  function DisconnectRequests(ds: seq<DeviceData>, clock: int): seq<Request>
  {
    if ds == [] then [] else DisconnectRequests(ds[..|ds| - 1], clock) + DisconnectStep(ds[|ds| - 1], clock).requests
  }

  /** The notices of disconnecting the devices holding `ds`, one after the other. */
  function DisconnectNotices(ds: seq<DeviceData>, clock: int): seq<Notice>
  {
    if ds == [] then [] else DisconnectNotices(ds[..|ds| - 1], clock) + DisconnectStep(ds[|ds| - 1], clock).notices
  }

  /** Disconnecting in turn cancels every connection that is established or being established. */
  lemma {:induction false} DisconnectRequestsCancel(ds: seq<DeviceData>, clock: int)
    ensures forall i | 0 <= i < |ds| && CanCancel(ds[i]) :: CancelConnection(ds[i].identifier) in DisconnectRequests(ds, clock)
  {
    if ds != [] {
      var init := ds[..|ds| - 1];
      DisconnectRequestsCancel(init, clock);
      forall i | 0 <= i < |ds| && CanCancel(ds[i])
        ensures CancelConnection(ds[i].identifier) in DisconnectRequests(ds, clock)
      {
        if i < |ds| - 1 {
          assert ds[i] == init[i];
        }
      }
    }
  }

  /** Disconnecting in turn posts only notices of the devices. */
  lemma {:induction false} DisconnectNoticesFromDevices(ds: seq<DeviceData>, clock: int)
    ensures AllFromDevices(DisconnectNotices(ds, clock))
  {
    if ds != [] {
      DisconnectNoticesFromDevices(ds[..|ds| - 1], clock);
      DisconnectStepOnly(ds[|ds| - 1], clock);
    }
  }

  lemma SeqAppendAssoc<T>(a: seq<T>, b: seq<T>, c: seq<T>)
    ensures a + b + c == a + (b + c)
  {
  }

  class Manager {
    const central: Central
    const center: NotificationCenter

    var isRunning: bool
    var devicesByUUID: map<Uuid, Device>
    /** The expiry sweep timer is scheduled. */
    var timer: bool
    /** The radio stack has been brought up (it is created by the first start). */
    var centralCreated: bool

    ghost predicate Valid()
      reads this
    {
      && (forall k | k in devicesByUUID ::
            devicesByUUID[k].identifier == k && devicesByUUID[k].central == central && devicesByUUID[k].center == center)
      && (timer ==> isRunning)
      && (isRunning ==> centralCreated)
    }

    constructor (central: Central, center: NotificationCenter)
      ensures Valid() && this.central == central && this.center == center
      ensures !isRunning && devicesByUUID == map[] && !timer && !centralCreated
    {
      this.central := central;
      this.center := center;
      isRunning := false;
      devicesByUUID := map[];
      timer := false;
      centralCreated := false;
    }

    /** Assignment to the registry map, announcing a change of membership or identity. */
    method SetDevices(m: map<Uuid, Device>)
      modifies this`devicesByUUID, center
      ensures devicesByUUID == m
      ensures center.posted == old(center.posted) + Change(old(devicesByUUID), m)
    {
      var changed := m != devicesByUUID;
      devicesByUUID := m;
      if changed {
        center.Post(ManagerNotice(DevicesChanged));
      }
    }

    /** The identifiers of the registry in display order. */
    method Uuids() returns (ids: seq<Uuid>)
      ensures Ascending(ids)
      ensures |ids| == |devicesByUUID|
      ensures forall k :: k in ids <==> k in devicesByUUID
    {
      ids := SortKeys(devicesByUUID.Keys);
    }

    /** The devices of the registry in display order. */
    method Devices() returns (ds: seq<Device>)
      requires Valid()
      ensures |ds| == |devicesByUUID|
      ensures forall i | 0 <= i < |ds| :: ds[i].identifier in devicesByUUID && devicesByUUID[ds[i].identifier] == ds[i]
      ensures forall k | k in devicesByUUID :: devicesByUUID[k] in ds
      ensures forall i, j | 0 <= i < j < |ds| :: Less(ds[i].identifier, ds[j].identifier) && ds[i] != ds[j]
    {
      var ids := Uuids();
      var m := devicesByUUID;
      ds := seq(|ids|, i requires 0 <= i < |ids| => m[ids[i]]);
      forall k | k in m ensures m[k] in ds {
        var i :| 0 <= i < |ids| && ids[i] == k;
        assert ds[i] == m[k];
      }
      forall i, j | 0 <= i < j < |ds|
        ensures Less(ds[i].identifier, ds[j].identifier) && ds[i] != ds[j]
      {
        assert ds[i].identifier == ids[i] && ds[j].identifier == ids[j];
        LessIrreflexive(ids[i]);
      }
    }

    /**
      Starts scanning. The registry is first pruned to `connected`, its
      connected devices. A later start re-runs the power-state handler;
      `order` and `before` then describe the devices it disconnects if the
      radio is powered off.
     */
    method Start(clock: int) returns (ghost connected: map<Uuid, Device>, ghost order: seq<Uuid>, ghost before: seq<DeviceData>)
      requires Valid()
      modifies this, central, center, devicesByUUID.Values
      ensures Valid() && central.state == old(central.state)
      ensures old(isRunning) || !old(centralCreated) ==> unchanged(old(devicesByUUID).Values)
      ensures connected == old(ConnectedOnly(devicesByUUID))
      ensures old(isRunning) ==>
        && unchanged(this) && central.requests == old(central.requests) && center.posted == old(center.posted)
      ensures !old(isRunning) ==>
        && isRunning && centralCreated
        && devicesByUUID == (if old(centralCreated) && central.state == PoweredOff then map[] else connected)
        && (forall k | k in devicesByUUID :: devicesByUUID[k].peripheralState == PeripheralState.Connected)
      ensures !old(isRunning) && !old(centralCreated) ==>
        && timer == old(timer) && central.requests == old(central.requests)
        && center.posted == old(center.posted) + Change(old(devicesByUUID), connected)
      ensures !old(isRunning) && old(centralCreated) ==>
        |center.posted| > 0 && center.posted[|center.posted| - 1] == ManagerNotice(BluetoothStateChanged)
      ensures !old(isRunning) && old(centralCreated) && central.state != PoweredOff ==>
        && unchanged(old(devicesByUUID).Values)
        && center.posted == old(center.posted) + Change(old(devicesByUUID), connected) + [ManagerNotice(BluetoothStateChanged)]
      ensures !old(isRunning) && old(centralCreated) && central.state == PoweredOn ==>
        timer && central.requests == old(central.requests) + [ScanForPeripherals(true)]
      ensures !old(isRunning) && old(centralCreated) && central.state !in {PoweredOn, PoweredOff} ==>
        timer == old(timer) && central.requests == old(central.requests)
      ensures !old(isRunning) && old(centralCreated) && central.state == PoweredOff ==>
        && !timer
        && (forall k | k in connected :: connected[k].Data() == DisconnectStep(old(connected[k].Data()), clock).dev)
        && old(Ordered(connected, order, before))
        && central.requests == old(central.requests) + [StopScan] + DisconnectRequests(before, clock)
        && center.posted == old(center.posted) + Change(old(devicesByUUID), connected)
             + DisconnectNotices(before, clock) + Change(connected, map[]) + [ManagerNotice(BluetoothStateChanged)]
    {
      connected := ConnectedOnly(devicesByUUID);
      order, before := [], [];
      if isRunning {
        return;
      }
      if !centralCreated {
        // Creating the central sends and posts nothing, so it may precede the prune.
        centralCreated := true;
        connected := Prune();
      } else {
        connected, order, before := Resume(clock);
      }
    }

    /** Drops the devices that are not connected and marks the manager running. */
    method Prune() returns (connected: map<Uuid, Device>)
      requires Valid() && centralCreated
      modifies this`isRunning, this`devicesByUUID, center
      ensures Valid() && isRunning
      ensures connected == old(ConnectedOnly(devicesByUUID)) && devicesByUUID == connected
      ensures forall k | k in devicesByUUID :: devicesByUUID[k].peripheralState == PeripheralState.Connected
      ensures center.posted == old(center.posted) + Change(old(devicesByUUID), connected)
    {
      connected := ConnectedOnly(devicesByUUID);
      isRunning := true;
      SetDevices(connected);
    }

    /**
      A start on a manager whose central already exists: the registry is
      pruned, then the current radio state is handled as a state update is.
     */
    method Resume(clock: int) returns (ghost connected: map<Uuid, Device>, ghost order: seq<Uuid>, ghost before: seq<DeviceData>)
      requires Valid() && !isRunning && centralCreated
      modifies this, central, center, devicesByUUID.Values
      ensures Valid() && isRunning && centralCreated && central.state == old(central.state)
      ensures connected == old(ConnectedOnly(devicesByUUID))
      ensures devicesByUUID == (if central.state == PoweredOff then map[] else connected)
      ensures forall k | k in devicesByUUID :: devicesByUUID[k].peripheralState == PeripheralState.Connected
      ensures |center.posted| > 0 && center.posted[|center.posted| - 1] == ManagerNotice(BluetoothStateChanged)
      ensures central.state != PoweredOff ==>
        && unchanged(old(devicesByUUID).Values)
        && center.posted == old(center.posted) + Change(old(devicesByUUID), connected) + [ManagerNotice(BluetoothStateChanged)]
      ensures central.state == PoweredOn ==>
        timer && central.requests == old(central.requests) + [ScanForPeripherals(true)]
      ensures central.state !in {PoweredOn, PoweredOff} ==>
        timer == old(timer) && central.requests == old(central.requests)
      ensures central.state == PoweredOff ==>
        && !timer
        && (forall k | k in connected :: connected[k].Data() == DisconnectStep(old(connected[k].Data()), clock).dev)
        && old(Ordered(connected, order, before))
        && central.requests == old(central.requests) + [StopScan] + DisconnectRequests(before, clock)
        && center.posted == old(center.posted) + Change(old(devicesByUUID), connected)
             + DisconnectNotices(before, clock) + Change(connected, map[]) + [ManagerNotice(BluetoothStateChanged)]
    {
      connected := Prune();
      assert unchanged(old(devicesByUUID).Values);
      assert forall k | k in connected :: connected[k].Data() == old(connected[k].Data());
      ghost var sent, fromDevices;
      sent, fromDevices, order, before := DidUpdateState(clock);
    }

    method Stop()
      requires Valid()
      modifies this, central, center
      ensures Valid() && central.state == old(central.state)
      ensures !old(isRunning) ==>
        && unchanged(this) && central.requests == old(central.requests) && center.posted == old(center.posted)
      ensures old(isRunning) ==>
        && !isRunning && !timer && centralCreated
        && devicesByUUID == old(ConnectedOnly(devicesByUUID))
        && central.requests == old(central.requests) + [StopScan]
        && center.posted == old(center.posted) + Change(old(devicesByUUID), devicesByUUID)
    {
      if !isRunning {
        return;
      }
      isRunning := false;
      SetDevices(ConnectedOnly(devicesByUUID));
      timer := false;
      central.Send(StopScan);
    }

    /** One expiry sweep at time `now` (also the wall-clock reading for the connect timeout). */
    method TimerFired(now: int)
      requires Valid()
      modifies this, central, center, devicesByUUID.Values
      ensures Valid() && central.state == old(central.state)
      ensures isRunning == old(isRunning) && timer == old(timer) && centralCreated == old(centralCreated)
      ensures forall k :: k in devicesByUUID <==> k in old(devicesByUUID) && !Lost(old(devicesByUUID[k].Data()), now)
      ensures forall k | k in devicesByUUID :: devicesByUUID[k] == old(devicesByUUID)[k]
      ensures forall k | k in old(devicesByUUID) :: old(devicesByUUID)[k].Data() == ExpiryStep(old(devicesByUUID[k].Data()), now).dev
      ensures old(central.requests) <= central.requests
      ensures forall k | k in old(devicesByUUID) && TimedOut(old(devicesByUUID[k].Data()), now) ::
        CancelConnection(k) in central.requests[|old(central.requests)|..]
      ensures exists fromDevices ::
        && AllFromDevices(fromDevices)
        && center.posted == old(center.posted) + fromDevices
             + Change(old(devicesByUUID), devicesByUUID)
    {
      ghost var sent, fromDevices;
      var kept;
      kept, sent, fromDevices := Expire(now);
      SetDevices(kept);
    }

    /** The filter of the sweep: each device asked whether it is lost, the others kept. */
    method Expire(now: int) returns (kept: map<Uuid, Device>, ghost sent: seq<Request>, ghost fromDevices: seq<Notice>)
      requires Valid()
      modifies central, center, devicesByUUID.Values
      ensures central.state == old(central.state)
      ensures forall k :: k in kept <==> k in devicesByUUID && !Lost(old(devicesByUUID[k].Data()), now)
      ensures forall k | k in kept :: kept[k] == devicesByUUID[k]
      ensures forall k | k in devicesByUUID :: devicesByUUID[k].Data() == ExpiryStep(old(devicesByUUID[k].Data()), now).dev
      ensures central.requests == old(central.requests) + sent
      ensures forall k | k in devicesByUUID && TimedOut(old(devicesByUUID[k].Data()), now) :: CancelConnection(k) in sent
      ensures center.posted == old(center.posted) + fromDevices && AllFromDevices(fromDevices)
    {
      var ds := Devices();
      ghost var data := seq(|ds|, i requires 0 <= i < |ds| reads ds => ds[i].Data());
      kept, sent, fromDevices := Sweep(central, center, ds, data, now);
      forall k | k in devicesByUUID
        ensures exists j | 0 <= j < |ds| :: ds[j] == devicesByUUID[k] && data[j] == old(devicesByUUID[k].Data())
      {
        var j :| 0 <= j < |ds| && ds[j] == devicesByUUID[k];
      }
    }

    /** The radio stack reports its power state; `clock` is the wall clock for forced disconnects. */
    method DidUpdateState(clock: int)
      returns (ghost sent: seq<Request>, ghost fromDevices: seq<Notice>, ghost order: seq<Uuid>, ghost before: seq<DeviceData>)
      requires Valid()
      modifies this, central, center, devicesByUUID.Values
      ensures Valid()
      ensures isRunning == old(isRunning) && centralCreated == old(centralCreated) && central.state == old(central.state)
      ensures |center.posted| > 0 && center.posted[|center.posted| - 1] == ManagerNotice(BluetoothStateChanged)
      ensures !(old(isRunning) && central.state == PoweredOff) ==>
        && devicesByUUID == old(devicesByUUID)
        && unchanged(old(devicesByUUID).Values)
        && center.posted == old(center.posted) + [ManagerNotice(BluetoothStateChanged)]
      ensures old(isRunning) && central.state == PoweredOn ==>
        timer && central.requests == old(central.requests) + [ScanForPeripherals(true)]
      ensures !(old(isRunning) && central.state in {PoweredOn, PoweredOff}) ==>
        timer == old(timer) && central.requests == old(central.requests)
      ensures old(isRunning) && central.state == PoweredOff ==>
        && devicesByUUID == map[] && !timer
        && (forall k | k in old(devicesByUUID) ::
              old(devicesByUUID)[k].Data() == DisconnectStep(old(devicesByUUID[k].Data()), clock).dev)
        && central.requests == old(central.requests) + [StopScan] + sent
        && (forall k | k in old(devicesByUUID) && CanCancel(old(devicesByUUID[k].Data())) :: CancelConnection(k) in sent)
        && AllFromDevices(fromDevices)
        && old(Ordered(devicesByUUID, order, before))
        && sent == DisconnectRequests(before, clock) && fromDevices == DisconnectNotices(before, clock)
        && center.posted == old(center.posted) + fromDevices
             + Change(old(devicesByUUID), map[])
             + [ManagerNotice(BluetoothStateChanged)]
    {
      sent, fromDevices, order, before := [], [], [], [];
      if central.state == PoweredOff && isRunning {
        sent, fromDevices, order, before := PowerOff(clock);
        return;
      }
      PowerOther();
    }

    /** Every other branch: scan again when powered on while running, then announce the radio state. */
    method PowerOther()
      requires Valid() && !(isRunning && central.state == PoweredOff)
      modifies this`timer, central, center
      ensures Valid() && central.state == old(central.state)
      ensures |center.posted| > 0 && center.posted[|center.posted| - 1] == ManagerNotice(BluetoothStateChanged)
      ensures center.posted == old(center.posted) + [ManagerNotice(BluetoothStateChanged)]
      ensures isRunning && central.state == PoweredOn ==>
        timer && central.requests == old(central.requests) + [ScanForPeripherals(true)]
      ensures !(isRunning && central.state == PoweredOn) ==>
        timer == old(timer) && central.requests == old(central.requests)
    {
      match central.state {
        case PoweredOn =>
          if isRunning {
            central.Send(ScanForPeripherals(true));
            timer := true;
          }
        case _ =>
      }
      center.Post(ManagerNotice(BluetoothStateChanged));
    }

    /** The power-off branch while running: stop scanning, clear the registry, announce the radio state. */
    method PowerOff(clock: int)
      returns (ghost sent: seq<Request>, ghost fromDevices: seq<Notice>, ghost order: seq<Uuid>, ghost before: seq<DeviceData>)
      requires Valid()
      modifies this`timer, this`devicesByUUID, central, center, devicesByUUID.Values
      ensures Valid() && central.state == old(central.state)
      ensures |center.posted| > 0 && center.posted[|center.posted| - 1] == ManagerNotice(BluetoothStateChanged)
      ensures devicesByUUID == map[] && !timer
      ensures forall k | k in old(devicesByUUID) :: old(devicesByUUID)[k].Data() == DisconnectStep(old(devicesByUUID[k].Data()), clock).dev
      ensures central.requests == old(central.requests) + [StopScan] + sent
      ensures forall k | k in old(devicesByUUID) && CanCancel(old(devicesByUUID[k].Data())) :: CancelConnection(k) in sent
      ensures AllFromDevices(fromDevices)
      ensures old(Ordered(devicesByUUID, order, before))
      ensures sent == DisconnectRequests(before, clock) && fromDevices == DisconnectNotices(before, clock)
      ensures center.posted == old(center.posted) + fromDevices
        + Change(old(devicesByUUID), map[])
        + [ManagerNotice(BluetoothStateChanged)]
    {
      sent, fromDevices, order, before := Purge(clock);
      label purged:
      center.Post(ManagerNotice(BluetoothStateChanged));
      assert unchanged@purged(old(devicesByUUID).Values);
    }

    /** The power-off branch without its final notice: stop scanning, disconnect every device, drop the sweep, empty the registry. */
    method Purge(clock: int)
      returns (ghost sent: seq<Request>, ghost fromDevices: seq<Notice>, ghost order: seq<Uuid>, ghost before: seq<DeviceData>)
      requires Valid()
      modifies this`timer, this`devicesByUUID, central, center, devicesByUUID.Values
      ensures central.state == old(central.state)
      ensures devicesByUUID == map[] && !timer
      ensures forall k | k in old(devicesByUUID) :: old(devicesByUUID)[k].Data() == DisconnectStep(old(devicesByUUID[k].Data()), clock).dev
      ensures central.requests == old(central.requests) + [StopScan] + sent
      ensures forall k | k in old(devicesByUUID) && CanCancel(old(devicesByUUID[k].Data())) :: CancelConnection(k) in sent
      ensures AllFromDevices(fromDevices)
      ensures old(Ordered(devicesByUUID, order, before))
      ensures sent == DisconnectRequests(before, clock) && fromDevices == DisconnectNotices(before, clock)
      ensures center.posted == old(center.posted) + fromDevices
        + Change(old(devicesByUUID), map[])
    {
      // The disconnects do not read the sweep flag, so it is dropped after them.
      sent, fromDevices, order, before := StopAndDisconnect(clock);
      label disconnected:
      timer := false;
      SetDevices(map[]);
      assert unchanged@disconnected(old(devicesByUUID).Values);
    }

    /**
      The power-off branch on the radio stack and the devices: the stop-scan
      request, then the `forEach` that disconnects every device of the
      registry in display order `order`. `before` is what the devices held,
      in that order; the requests and notices are those of their disconnects,
      one after the other.
     */
    method StopAndDisconnect(clock: int)
      returns (ghost sent: seq<Request>, ghost fromDevices: seq<Notice>, ghost order: seq<Uuid>, ghost before: seq<DeviceData>)
      requires Valid()
      modifies central, center, devicesByUUID.Values
      ensures central.state == old(central.state)
      ensures forall k | k in devicesByUUID :: devicesByUUID[k].Data() == DisconnectStep(old(devicesByUUID[k].Data()), clock).dev
      ensures old(Ordered(devicesByUUID, order, before))
      ensures central.requests == old(central.requests) + [StopScan] + sent && sent == DisconnectRequests(before, clock)
      ensures forall k | k in devicesByUUID && CanCancel(old(devicesByUUID[k].Data())) :: CancelConnection(k) in sent
      ensures center.posted == old(center.posted) + fromDevices && fromDevices == DisconnectNotices(before, clock)
      ensures AllFromDevices(fromDevices)
    {
      var ds;
      ds, order, before := DisplayOrder();
      central.Send(StopScan);
      sent, fromDevices := DisconnectAll(central, center, ds, before, clock);
      forall k | k in devicesByUUID
        ensures exists j | 0 <= j < |ds| :: ds[j] == devicesByUUID[k] && before[j] == old(devicesByUUID[k].Data())
      {
        var j :| 0 <= j < |order| && order[j] == k;
      }
    }

    /** The devices in display order, with their identifiers and what they hold. */
    method DisplayOrder() returns (ds: seq<Device>, ghost order: seq<Uuid>, ghost data: seq<DeviceData>)
      requires Valid()
      ensures |ds| == |order| == |data|
      ensures Ordered(devicesByUUID, order, data)
      ensures forall i | 0 <= i < |ds| ::
        && order[i] in devicesByUUID && devicesByUUID[order[i]] == ds[i]
        && ds[i].identifier == order[i] && ds[i].Data() == data[i]
        && ds[i].central == central && ds[i].center == center
      ensures forall i, j | 0 <= i < j < |ds| :: ds[i] != ds[j]
    {
      ds := Devices();
      data := seq(|ds|, i requires 0 <= i < |ds| reads ds => ds[i].Data());
      order := seq(|ds|, i requires 0 <= i < |ds| => ds[i].identifier);
      forall k | k in devicesByUUID ensures k in order {
        var j :| 0 <= j < |ds| && ds[j] == devicesByUUID[k];
        assert order[j] == k;
      }
    }

    /** An advertisement from `id`; `state` and `name` describe the peripheral should it be new. */
    method DidDiscover(id: Uuid, state: PeripheralState, name: Option<string>, rssi: int, now: int)
      requires Valid()
      modifies this`devicesByUUID, central, center, devicesByUUID.Values
      ensures Valid() && central.state == old(central.state)
      ensures id in old(devicesByUUID) ==>
        && devicesByUUID == old(devicesByUUID)
        && devicesByUUID[id].Produced(AdvertisementStep(old(devicesByUUID[id].Data()), now, rssi), old(central.requests), old(center.posted))
        && (forall k | k in devicesByUUID && k != id :: unchanged(devicesByUUID[k]))
      ensures id !in old(devicesByUUID) ==>
        && devicesByUUID.Keys == old(devicesByUUID).Keys + {id}
        && (forall k | k in old(devicesByUUID) :: devicesByUUID[k] == old(devicesByUUID)[k])
        && unchanged(old(devicesByUUID).Values)
        && fresh(devicesByUUID[id])
        && devicesByUUID[id].Data() == Created(id, state, name, rssi, now)
        && central.requests == old(central.requests)
        && center.posted == old(center.posted) + [ManagerNotice(DevicesChanged)]
    {
      if id in devicesByUUID {
        Readvertised(devicesByUUID[id], now, rssi);
      } else {
        var d := new Device(id, central, center, state, name, rssi, now);
        SetDevices(devicesByUUID[id := d]);
      }
    }

    /** The connection to `id` was established. */
    method DidConnect(id: Uuid, now: int)
      requires Valid()
      modifies central, center, devicesByUUID.Values
      ensures central.state == old(central.state)
      ensures id in devicesByUUID ==>
        devicesByUUID[id].Produced(SeenStep(old(devicesByUUID[id].Data()), now), old(central.requests), old(center.posted))
      ensures id !in devicesByUUID ==>
        central.requests == old(central.requests) && center.posted == old(center.posted)
      ensures forall k | k in devicesByUUID && k != id :: unchanged(devicesByUUID[k])
    {
      if id in devicesByUUID {
        var d := devicesByUUID[id];
        d.lastSeen := now;
        d.BroadcastStateChange();
      }
    }

    /** The connection attempt to `id` failed. */
    method DidFailToConnect(id: Uuid, now: int)
      requires Valid()
      modifies central, center, devicesByUUID.Values
      ensures central.state == old(central.state)
      ensures id in devicesByUUID ==>
        devicesByUUID[id].Produced(SeenStep(old(devicesByUUID[id].Data()), now), old(central.requests), old(center.posted))
      ensures id !in devicesByUUID ==>
        central.requests == old(central.requests) && center.posted == old(center.posted)
      ensures forall k | k in devicesByUUID && k != id :: unchanged(devicesByUUID[k])
    {
      if id in devicesByUUID {
        var d := devicesByUUID[id];
        d.lastSeen := now;
        d.BroadcastStateChange();
      }
    }

    /** The connection to `id` ended; `clock` is the wall clock reading. */
    method DidDisconnectPeripheral(id: Uuid, clock: int)
      requires Valid()
      modifies central, center, devicesByUUID.Values
      ensures central.state == old(central.state)
      ensures id in devicesByUUID ==>
        devicesByUUID[id].Produced(DroppedStep(old(devicesByUUID[id].Data()), clock), old(central.requests), old(center.posted))
      ensures id !in devicesByUUID ==>
        central.requests == old(central.requests) && center.posted == old(center.posted)
      ensures forall k | k in devicesByUUID && k != id :: unchanged(devicesByUUID[k])
    {
      if id in devicesByUUID {
        Dropped(devicesByUUID[id], clock);
      }
    }
  }

  /** A fresh advertisement from a known device: last sighting, signal strength, state broadcast. */
  method Readvertised(d: Device, now: int, rssi: int)
    modifies d, d.central, d.center
    ensures d.central.state == old(d.central.state)
    ensures d.Produced(AdvertisementStep(old(d.Data()), now, rssi), old(d.central.requests), old(d.center.posted))
  {
    ghost var r0, p0 := d.central.requests, d.center.posted;
    d.lastSeen := now;
    ghost var seen := d.Data();
    assert seen == old(d.Data()).(lastSeen := now);
    d.SetRssi(rssi);
    ghost var rs := RssiStep(seen, rssi);
    d.BroadcastStateChange();
    ghost var b := BroadcastStep(rs.dev);
    assert d.central.requests == r0 + (rs.requests + b.requests);
    assert d.center.posted == p0 + (rs.notices + b.notices);
  }

  /** The connection of a known device ended: disconnect it, then broadcast its state. */
  method Dropped(d: Device, clock: int)
    modifies d, d.central, d.center
    ensures d.central.state == old(d.central.state)
    ensures d.Produced(DroppedStep(old(d.Data()), clock), old(d.central.requests), old(d.center.posted))
  {
    ghost var r0, p0 := d.central.requests, d.center.posted;
    ghost var first := DisconnectStep(d.Data(), clock);
    d.Disconnect(clock);
    assert d.Data() == first.dev;
    ghost var b := BroadcastStep(first.dev);
    d.BroadcastStateChange();
    assert d.central.requests == r0 + (first.requests + b.requests);
    assert d.center.posted == p0 + (first.notices + b.notices);
  }

  /** The loop of the sweep over `ds`, devices with distinct identifiers holding `data`: the survivors collected. */
  method Sweep(central: Central, center: NotificationCenter, ds: seq<Device>, ghost data: seq<DeviceData>, now: int)
    returns (kept: map<Uuid, Device>, ghost sent: seq<Request>, ghost fromDevices: seq<Notice>)
    requires |data| == |ds|
    requires forall i | 0 <= i < |ds| :: ds[i].central == central && ds[i].center == center && ds[i].Data() == data[i]
    requires forall i, j | 0 <= i < j < |ds| :: ds[i].identifier != ds[j].identifier
    modifies central, center, ds
    ensures central.state == old(central.state)
    ensures forall i | 0 <= i < |ds| :: ds[i].Data() == ExpiryStep(data[i], now).dev
    ensures forall i | 0 <= i < |ds| :: ds[i].identifier in kept <==> !Lost(data[i], now)
    ensures forall k | k in kept :: kept[k] in ds && kept[k].identifier == k
    ensures central.requests == old(central.requests) + sent
    ensures forall i | 0 <= i < |ds| && TimedOut(data[i], now) :: CancelConnection(data[i].identifier) in sent
    ensures center.posted == old(center.posted) + fromDevices && AllFromDevices(fromDevices)
  {
    kept := map[];
    sent := [];
    fromDevices := [];
    for i := 0 to |ds|
      invariant forall j | 0 <= j < i :: ds[j].Data() == ExpiryStep(data[j], now).dev
      invariant forall j | i <= j < |ds| :: ds[j].Data() == data[j]
      invariant forall j | 0 <= j < i :: ds[j].identifier in kept <==> !Lost(data[j], now)
      invariant forall j | i <= j < |ds| :: ds[j].identifier !in kept
      invariant forall k | k in kept :: kept[k] in ds && kept[k].identifier == k
      invariant central.state == old(central.state)
      invariant central.requests == old(central.requests) + sent
      invariant forall j | 0 <= j < i && TimedOut(data[j], now) :: CancelConnection(data[j].identifier) in sent
      invariant center.posted == old(center.posted) + fromDevices && AllFromDevices(fromDevices)
    {
      ghost var o := ExpiryStep(data[i], now);
      ExpiryStepFromDevice(data[i], now);
      assert forall j | 0 <= j < |ds| && j != i :: ds[j] != ds[i];
      var lost := ds[i].IsLost(now, now);
      SeqAppendAssoc(old(central.requests), sent, o.requests);
      SeqAppendAssoc(old(center.posted), fromDevices, o.notices);
      sent := sent + o.requests;
      fromDevices := fromDevices + o.notices;
      if !lost {
        kept := kept[ds[i].identifier := ds[i]];
      }
    }
  }

  /** Disconnects the devices `ds`, each listed once, in order; `data` is what they hold beforehand. */
  method DisconnectAll(central: Central, center: NotificationCenter, ds: seq<Device>, ghost data: seq<DeviceData>, clock: int)
    returns (ghost sent: seq<Request>, ghost fromDevices: seq<Notice>)
    requires |data| == |ds|
    requires forall i | 0 <= i < |ds| :: ds[i].central == central && ds[i].center == center && ds[i].Data() == data[i]
    requires forall i, j | 0 <= i < j < |ds| :: ds[i] != ds[j]
    modifies central, center, ds
    ensures central.state == old(central.state)
    ensures central.requests == old(central.requests) + sent
    ensures forall i | 0 <= i < |ds| :: ds[i].Data() == DisconnectStep(data[i], clock).dev
    ensures sent == DisconnectRequests(data, clock)
    ensures forall i | 0 <= i < |ds| && CanCancel(data[i]) :: CancelConnection(data[i].identifier) in sent
    ensures center.posted == old(center.posted) + fromDevices
    ensures fromDevices == DisconnectNotices(data, clock) && AllFromDevices(fromDevices)
  {
    sent := [];
    fromDevices := [];
    for i := 0 to |ds|
      invariant forall j | 0 <= j < i :: ds[j].Data() == DisconnectStep(data[j], clock).dev
      invariant forall j | i <= j < |ds| :: ds[j].Data() == data[j]
      invariant central.state == old(central.state)
      invariant central.requests == old(central.requests) + sent
      invariant sent == DisconnectRequests(data[..i], clock)
      invariant center.posted == old(center.posted) + fromDevices
      invariant fromDevices == DisconnectNotices(data[..i], clock)
    {
      ghost var o := DisconnectStep(data[i], clock);
      assert data[..i + 1][..i] == data[..i];
      assert forall j | 0 <= j < |ds| && j != i :: ds[j] != ds[i];
      ds[i].Disconnect(clock);
      SeqAppendAssoc(old(central.requests), sent, o.requests);
      SeqAppendAssoc(old(center.posted), fromDevices, o.notices);
      sent := sent + o.requests;
      fromDevices := fromDevices + o.notices;
    }
    assert data[..|ds|] == data;
    DisconnectRequestsCancel(data, clock);
    DisconnectNoticesFromDevices(data, clock);
  }
}
