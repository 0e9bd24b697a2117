/**
 * Values shared by the discovery and registration back ends: the platform's
 * service record, the library's service and event values, the errors a stream
 * can end with, and a stand-in for an RxJava subscriber (a flag and a log).
 */
module BonjourModel {

  datatype Option<T> = None | Some(value: T)

  /** A host address as raw (signed, Java-style) bytes. */
  datatype InetAddress = InetAddress(bytes: seq<int>)

  /**
   * The platform's service record (android.net.nsd.NsdServiceInfo), reduced to
   * the fields the library reads or writes. TXT attribute values are raw bytes.
   */
  datatype NsdServiceInfo = NsdServiceInfo(
    serviceName: string,
    serviceType: string,
    host: Option<InetAddress>,
    port: int,
    attributes: map<string, seq<bv8>>)

  /** The library's immutable service value (rxbonjour.model.BonjourService). */
  datatype BonjourService = BonjourService(
    name: string,
    serviceType: string,
    host: Option<InetAddress>,
    port: int,
    txtRecords: map<string, string>)

  /** The name-and-type identity by which registrations are looked up. */
  datatype ServiceId = ServiceId(name: string, serviceType: string)

  function Identity(s: BonjourService): ServiceId
  {
    ServiceId(s.name, s.serviceType)
  }

  datatype EventType = Added | Removed | Registered | Unregistered

  datatype BonjourEvent = BonjourEvent(eventType: EventType, service: BonjourService)

  /** The exceptions the core hands to a subscriber's onError. */
  datatype Failure =
    | StaleContext
    | DiscoveryFailed(serviceType: string, errorCode: int)
      /** The NsdManager back end reports the record and the platform's error code. */
    | NsdRegistrationFailed(info: NsdServiceInfo, errorCode: int)
      /** The JmDNS back end reports only the service's name. */
    | SupportRegistrationFailed(serviceName: string)

  /** What a subscriber has been told, in order. */
  datatype Notification = Next(event: BonjourEvent) | Error(failure: Failure) | Completed

  /**
   * An RxJava subscriber reduced to whether it has unsubscribed and the
   * append-only log of notifications delivered to it.
   */
  class Subscriber {
    var unsubscribed: bool
    var log: seq<Notification>

    constructor ()
      ensures !unsubscribed && log == []
    {
      unsubscribed := false;
      log := [];
    }

    method OnNext(e: BonjourEvent)
      modifies this
      ensures log == old(log) + [Next(e)] && unsubscribed == old(unsubscribed)
    {
      log := log + [Next(e)];
    }

    method OnError(f: Failure)
      modifies this
      ensures log == old(log) + [Error(f)] && unsubscribed == old(unsubscribed)
    {
      log := log + [Error(f)];
    }

    method OnCompleted()
      modifies this
      ensures log == old(log) + [Completed] && unsubscribed == old(unsubscribed)
    {
      log := log + [Completed];
    }

    /** Marks the subscriber as unsubscribed; the caller runs the unsubscribe hooks. */
    method MarkUnsubscribed()
      modifies this
      ensures unsubscribed && log == old(log)
    {
      unsubscribed := true;
    }
  }
}
