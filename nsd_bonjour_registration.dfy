/**
 * Registration on the platform's NsdManager (NSDBonjourRegistration). The
 * manager handle is created lazily and shared; each registration gets its own
 * listener, which on success is stored in `listeners` under the registered
 * service's name-and-type identity, so that a later unregistration can find it
 * and hand it to the manager again.
 */
module NSDBonjourRegistration {
  import opened BonjourModel
  import opened LazyHandle
  import NSDHelper

  /** Calls into the NsdManager, in the order made. */
  datatype Call =
    | RegisterService(manager: nat, info: NsdServiceInfo, listener: RegistrationListener)
    | UnregisterService(manager: nat, listener: RegistrationListener)

  class Registration {
    var nsdManagerInstance: Option<nat>
    var nextManager: nat
    /** The listener controlling each registered service, by name and type. */
    var listeners: map<ServiceId, RegistrationListener>
    var calls: seq<Call>
    /** Build.VERSION.SDK_INT and the UTF-8 decoder, as NSDHelper uses them. */
    const sdk: int
    const utf8: seq<bv8> -> string

    /** The held manager was handed out before, and every stored listener belongs to this object. */
    ghost predicate Valid()
      reads this
    {
      && Fits(Slot(nsdManagerInstance, nextManager))
      && forall id | id in listeners :: listeners[id].owner == this
    }

    constructor (sdk: int, utf8: seq<bv8> -> string)
      ensures Valid()
      ensures nsdManagerInstance == None && nextManager == 0 && listeners == map[] && calls == []
      ensures this.sdk == sdk && this.utf8 == utf8
    {
      nsdManagerInstance, nextManager := None, 0;
      listeners, calls := map[], [];
      this.sdk, this.utf8 := sdk, utf8;
    }

    /** getNsdManager: the held manager, or a new one when none is held. */
    method GetNsdManager() returns (m: nat)
      modifies this`nsdManagerInstance, this`nextManager
      ensures Obtain(old(Slot(nsdManagerInstance, nextManager)), false) ==
              Obtained(m, Slot(nsdManagerInstance, nextManager))
    {
      if nsdManagerInstance.None? {
        nsdManagerInstance := Some(nextManager);
        nextManager := nextManager + 1;
      }
      m := nsdManagerInstance.value;
    }

    /**
     * The subscribe body of register(context, service). A stale context ends
     * the stream with StaleContextException and nothing reaches the manager;
     * otherwise a new listener bound to `sub` is made and the service, as a
     * platform record, is registered with it. The listener is returned so that
     * the manager's callbacks on it can be modelled.
     */
    method Register(stale: bool, service: BonjourService, sub: Subscriber) returns (listener: RegistrationListener?)
      requires Valid()
      modifies this`nsdManagerInstance, this`nextManager, this`calls, sub
      ensures Valid()
      ensures sub.unsubscribed == old(sub.unsubscribed)
      ensures stale ==>
                && listener == null
                && sub.log == old(sub.log) + [Error(StaleContext)]
                && nsdManagerInstance == old(nsdManagerInstance) && nextManager == old(nextManager)
                && calls == old(calls)
      ensures !stale ==>
                && listener != null && fresh(listener)
                && listener.owner == this && listener.subscriber == sub
                && sub.log == old(sub.log)
                && nsdManagerInstance.Some?
                && Obtain(old(Slot(nsdManagerInstance, nextManager)), false) ==
                   Obtained(nsdManagerInstance.value, Slot(nsdManagerInstance, nextManager))
                && calls == old(calls) + [RegisterService(nsdManagerInstance.value, NSDHelper.ToNsdServiceInfo(service), listener)]
    {
      if stale {
        sub.OnError(StaleContext);
        listener := null;
        return;
      }
      listener := new RegistrationListener(this);
      listener.SetSubscriber(sub);
      var m := GetNsdManager();
      calls := calls + [RegisterService(m, NSDHelper.ToNsdServiceInfo(service), listener)];
    }

    /**
     * The lookup unregister(context, service) makes when it is called, before
     * anything subscribes: the listener stored under the service's name and
     * type, or null when none is stored.
     */
    function Unregister(service: BonjourService): (found: RegistrationListener?)
      reads this
      ensures found != null <==> Identity(service) in listeners
      ensures found != null ==> found == listeners[Identity(service)]
    {
      if Identity(service) in listeners then listeners[Identity(service)] else null
    }

    /**
     * The subscribe body of the stream unregister returns, for the listener
     * found when it was called. A stale context ends the stream with
     * StaleContextException; a listener that was not found is dereferenced
     * anyway (`npe`) before anything reaches the manager; otherwise the
     * listener is rebound to `sub` and handed to the manager's unregisterService.
     */
    method SubscribeUnregister(listener: RegistrationListener?, stale: bool, sub: Subscriber) returns (npe: bool)
      requires Valid()
      modifies this`nsdManagerInstance, this`nextManager, this`calls, sub, listener
      ensures Valid()
      ensures sub.unsubscribed == old(sub.unsubscribed)
      ensures npe <==> !stale && listener == null
      ensures sub.log == old(sub.log) + (if stale then [Error(StaleContext)] else [])
      ensures stale || listener == null ==>
                && nsdManagerInstance == old(nsdManagerInstance) && nextManager == old(nextManager)
                && calls == old(calls)
                && (listener != null ==> listener.subscriber == old(listener.subscriber))
      ensures !stale && listener != null ==>
                && listener.subscriber == sub
                && nsdManagerInstance.Some?
                && Obtain(old(Slot(nsdManagerInstance, nextManager)), false) ==
                   Obtained(nsdManagerInstance.value, Slot(nsdManagerInstance, nextManager))
                && calls == old(calls) + [UnregisterService(nsdManagerInstance.value, listener)]
    {
      if stale {
        sub.OnError(StaleContext);
        return false;
      }
      if listener == null {
        return true;
      }
      listener.SetSubscriber(sub);
      var m := GetNsdManager();
      calls := calls + [UnregisterService(m, listener)];
      npe := false;
    }
  }

  /**
   * The listener of one registration. Its callbacks report to the subscriber
   * it is currently bound to, and store or remove itself in its owner's
   * `listeners`.
   */
  class RegistrationListener {
    const owner: Registration
    var subscriber: Subscriber?

    /** A new listener is not yet bound to a subscriber. */
    constructor (owner: Registration)
      ensures this.owner == owner && subscriber == null
    {
      this.owner := owner;
      subscriber := null;
    }

    /** setSubscriber: rebinds the listener; the previous subscriber is no longer told anything. */
    method SetSubscriber(sub: Subscriber)
      modifies this
      ensures subscriber == sub
    {
      subscriber := sub;
    }

    /**
     * onServiceRegistered: for a subscriber that has not unsubscribed, one
     * REGISTERED event carrying the converted record, then completion, and
     * this listener is stored under the record's name and type. Otherwise
     * nothing happens.
     */
    method OnServiceRegistered(info: NsdServiceInfo)
      requires subscriber != null
      modifies subscriber, owner`listeners
      ensures old(owner.Valid()) ==> owner.Valid()
      ensures subscriber.unsubscribed == old(subscriber.unsubscribed)
      ensures old(subscriber.unsubscribed) ==>
                subscriber.log == old(subscriber.log) && owner.listeners == old(owner.listeners)
      ensures !old(subscriber.unsubscribed) ==>
                && subscriber.log == old(subscriber.log) +
                   [Next(BonjourEvent(Registered, NSDHelper.ToBonjourService(info, owner.sdk, owner.utf8))), Completed]
                && owner.listeners == old(owner.listeners)[ServiceId(info.serviceName, info.serviceType) := this]
    {
      if !subscriber.unsubscribed {
        var service := NSDHelper.ToBonjourService(info, owner.sdk, owner.utf8);
        subscriber.OnNext(BonjourEvent(Registered, service));
        subscriber.OnCompleted();
        owner.listeners := owner.listeners[Identity(service) := this];
      }
    }

    /** onRegistrationFailed: the subscriber gets RegistrationFailed with the record and the error code. */
    method OnRegistrationFailed(info: NsdServiceInfo, errorCode: int)
      requires subscriber != null
      modifies subscriber
      ensures subscriber.unsubscribed == old(subscriber.unsubscribed)
      ensures subscriber.log == old(subscriber.log) + [Error(NsdRegistrationFailed(info, errorCode))]
      ensures owner.listeners == old(owner.listeners)
    {
      subscriber.OnError(NsdRegistrationFailed(info, errorCode));
    }

    /**
     * onServiceUnregistered: for a subscriber that has not unsubscribed, one
     * UNREGISTERED event carrying the converted record, then completion, and
     * the entry under the record's name and type is removed. Otherwise nothing
     * happens.
     */
    method OnServiceUnregistered(info: NsdServiceInfo)
      requires subscriber != null
      modifies subscriber, owner`listeners
      ensures old(owner.Valid()) ==> owner.Valid()
      ensures subscriber.unsubscribed == old(subscriber.unsubscribed)
      ensures old(subscriber.unsubscribed) ==>
                subscriber.log == old(subscriber.log) && owner.listeners == old(owner.listeners)
      ensures !old(subscriber.unsubscribed) ==>
                && subscriber.log == old(subscriber.log) +
                   [Next(NSDHelper.NewBonjourEvent(Unregistered, info, owner.sdk, owner.utf8)), Completed]
                && owner.listeners == old(owner.listeners) - {ServiceId(info.serviceName, info.serviceType)}
    {
      if !subscriber.unsubscribed {
        subscriber.OnNext(NSDHelper.NewBonjourEvent(Unregistered, info, owner.sdk, owner.utf8));
        subscriber.OnCompleted();
        var service := NSDHelper.ToBonjourService(info, owner.sdk, owner.utf8);
        owner.listeners := owner.listeners - {Identity(service)};
      }
    }

    /** onUnregistrationFailed: nothing is reported and the entry stays. */
    method OnUnregistrationFailed(info: NsdServiceInfo, errorCode: int)
      ensures subscriber != null ==> subscriber.log == old(subscriber.log)
      ensures owner.listeners == old(owner.listeners)
    {
    }
  }

  /**
   * The registry across one registration's life. Once the manager reports
   * the service registered to a live subscriber, unregister(service) finds
   * this listener; once it reports the service unregistered, the lookup finds
   * nothing, so a second unregistration of the same service fails before any
   * manager call.
   */
  method RegisterThenUnregister(l: RegistrationListener, info: NsdServiceInfo, service: BonjourService, later: Subscriber)
    returns (found: RegistrationListener?, gone: RegistrationListener?, npe: bool)
    requires l.subscriber != null && !l.subscriber.unsubscribed
    requires l.owner.Valid()
    requires Identity(service) == ServiceId(info.serviceName, info.serviceType)
    modifies l.subscriber, l.owner, later
    ensures found == l
    ensures gone == null && npe
  {
    l.OnServiceRegistered(info);
    found := l.owner.Unregister(service);
    l.OnServiceUnregistered(info);
    gone := l.owner.Unregister(service);
    npe := l.owner.SubscribeUnregister(gone, false, later);
  }
}
