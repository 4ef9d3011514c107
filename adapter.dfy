/**
  The boundary between the scanner core and its collaborators.

  The radio stack is reduced to a `Central`: an environment-controlled power
  state and an append-only log of the requests the core issues to it
  (connect, cancel, discover..., read RSSI, scan). The notification center is
  reduced to an append-only log of (topic, sender) pairs; the payloads of the
  app's notifications carry only identity, so nothing else is kept.
 */
module Adapter {

  /** A peripheral identifier, as its canonical string form. */
  type Uuid = string
  /** Identity of a service object reported by the radio stack. */
  type ServiceRef = nat
  /** Identity of a characteristic object reported by the radio stack. */
  type CharacteristicRef = nat

  datatype Option<T> = None | Some(value: T)

  /** The value of an optional list, with an absent list read as empty. */
  function Listed<T>(o: Option<seq<T>>): seq<T>
  {
    match o
    case Some(s) => s
    case None => []
  }

  /** The connection state the radio stack reports for a peripheral. */
  datatype PeripheralState = Disconnected | Connecting | Connected | Disconnecting

  /** The power / availability state the radio stack reports for itself. */
  datatype ManagerState = Unknown | Resetting | Unsupported | Unauthorized | PoweredOff | PoweredOn

  /** A request issued to the radio stack; each completes later by a callback. */
  datatype Request =
    | ConnectPeripheral(id: Uuid)          // with notify-on-disconnection
    | CancelConnection(id: Uuid)
    | DiscoverServices(id: Uuid)
    | DiscoverCharacteristics(id: Uuid, service: ServiceRef)
    | DiscoverIncludedServices(id: Uuid, service: ServiceRef)
    | DiscoverDescriptors(id: Uuid, characteristic: CharacteristicRef)
    | ReadRssi(id: Uuid)
    | ScanForPeripherals(allowDuplicates: bool)
    | StopScan

  datatype Topic =
    | NameChanged
    | StateChanged
    | RssiChanged
    | ServicesChanged
    | CharacteristicsChanged(service: ServiceRef)
    | IncludedServicesChanged(service: ServiceRef)
    | DescriptorsChanged(service: ServiceRef)
    | DevicesChanged
    | BluetoothStateChanged

  datatype Sender = FromDevice(id: Uuid) | FromManager

  datatype Notice = Notice(topic: Topic, sender: Sender)

  /** True when every notice in `ns` was posted by some device. */
  predicate AllFromDevices(ns: seq<Notice>)
  {
    forall n | n in ns :: n.sender.FromDevice?
  }

  /** The radio stack as the core sees it. */
  class Central {
    var state: ManagerState
    var requests: seq<Request>

    constructor (state: ManagerState)
      ensures this.state == state && requests == []
    {
      this.state := state;
      requests := [];
    }

    method Send(r: Request)
      modifies this
      ensures requests == old(requests) + [r] && state == old(state)
    {
      requests := requests + [r];
    }
  }

  /** The notification bus, as the log of everything posted to it. */
  class NotificationCenter {
    var posted: seq<Notice>

    constructor ()
      ensures posted == []
    {
      posted := [];
    }

    method Post(n: Notice)
      modifies this
      ensures posted == old(posted) + [n]
    {
      posted := posted + [n];
    }
  }
}
