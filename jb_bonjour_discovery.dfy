/**
 * Discovery on the platform's NsdManager (JBBonjourDiscovery). One object is
 * shared by every subscription to a discovery: the NsdManager handle and the
 * resolve backlog are created lazily by the first subscription, a count of
 * subscriptions is kept, and the unsubscribe hook of a subscription tears both
 * down once the count falls to zero or below.
 *
 * The lifecycle is first stated on values (Session, Attach, Detach, Run) and
 * then carried by the class Discovery, whose methods are the subscribe body,
 * the unsubscribe hook and the platform's callbacks.
 */
module JBBonjourDiscovery {
  import opened BonjourModel
  import opened LazyHandle
  import NSDHelper

  // ---------------------------------------------------------------------------
  // The lifecycle on values
  // ---------------------------------------------------------------------------

  /**
   * The fields the lifecycle is about: the manager handle, the backlog, the
   * subscriber count, and the numbers the next created manager and backlog get.
   */
  datatype Session = Session(
    manager: Option<nat>,
    backlog: Option<nat>,
    count: int,
    nextManager: nat,
    nextBacklog: nat)

  /**
   * A manager and a backlog are held exactly while the count is positive, the
   * count is never negative, and held handles were handed out before.
   */
  predicate Consistent(s: Session)
  {
    && s.count >= 0
    && (s.manager.Some? <==> s.count > 0)
    && (s.backlog.Some? <==> s.count > 0)
    && Fits(Slot(s.manager, s.nextManager))
    && (s.backlog.Some? ==> s.backlog.value < s.nextBacklog)
  }

  /** What a subscription with a live context does: getNsdManager, a backlog if none, count + 1. */
  function Attach(s: Session): (r: Session)
    ensures Consistent(s) ==> Consistent(r)
    ensures r.count == s.count + 1
  {
    var got := Obtain(Slot(s.manager, s.nextManager), false);
    if s.backlog.Some? then
      Session(got.slot.held, s.backlog, s.count + 1, got.slot.next, s.nextBacklog)
    else
      Session(got.slot.held, Some(s.nextBacklog), s.count + 1, got.slot.next, s.nextBacklog + 1)
  }

  /**
   * The unsubscribe hook: the count drops by one only when stopping discovery
   * did not throw; at zero or below the backlog and the manager are dropped.
   */
  function Detach(s: Session, stopThrows: bool): (r: Session)
    ensures Consistent(s) && s.count > 0 ==> Consistent(r)
    ensures r.count == if stopThrows then s.count else s.count - 1
  {
    var c := if stopThrows then s.count else s.count - 1;
    if c <= 0 then s.(count := c, manager := None, backlog := None) else s.(count := c)
  }

  /** While subscriptions are counted, a new one shares the held manager and backlog. */
  lemma AttachShares(s: Session)
    requires Consistent(s) && s.count > 0
    ensures Attach(s).manager == s.manager && Attach(s).backlog == s.backlog
    ensures Attach(s).nextManager == s.nextManager && Attach(s).nextBacklog == s.nextBacklog
  {
  }

  /** With none counted, a new subscription gets a manager and a backlog never handed out before. */
  lemma AttachFromIdleIsFresh(s: Session)
    requires Consistent(s) && s.count == 0
    ensures Attach(s).manager == Some(s.nextManager) && Attach(s).backlog == Some(s.nextBacklog)
  {
  }

  /** Teardown happens exactly when the last counted subscription stops cleanly. */
  lemma DetachTearsDownAtZero(s: Session, stopThrows: bool)
    requires Consistent(s) && s.count > 0
    ensures var r := Detach(s, stopThrows);
            (r.manager.None? <==> !stopThrows && s.count == 1) &&
            (r.backlog.None? <==> !stopThrows && s.count == 1)
  {
  }

  /**
   * A stop that throws leaves everything as it was: that subscription stays
   * counted, so the manager and backlog are kept even once no subscriber is left.
   */
  lemma FailedStopKeepsSession(s: Session)
    requires Consistent(s) && s.count > 0
    ensures Detach(s, true) == s
  {
  }

  datatype Op = Subscribe | Unsubscribe(stopThrows: bool)

  function Step(s: Session, op: Op): Session
  {
    match op
    case Subscribe => Attach(s)
    case Unsubscribe(t) => Detach(s, t)
  }

  function Run(s: Session, ops: seq<Op>): Session
    decreases |ops|
  {
    if ops == [] then s else Run(Step(s, ops[0]), ops[1..])
  }

  /** Every unsubscribe in `ops` happens while some subscription is counted. */
  predicate Legal(s: Session, ops: seq<Op>)
    decreases |ops|
  {
    ops == [] || ((ops[0].Subscribe? || s.count > 0) && Legal(Step(s, ops[0]), ops[1..]))
  }

  function Subscribes(ops: seq<Op>): nat
  {
    if ops == [] then 0 else (if ops[0].Subscribe? then 1 else 0) + Subscribes(ops[1..])
  }

  /** The unsubscribes whose stopServiceDiscovery did not throw. */
  function CleanStops(ops: seq<Op>): nat
  {
    if ops == [] then 0 else (if ops[0] == Unsubscribe(false) then 1 else 0) + CleanStops(ops[1..])
  }

  /**
   * In any legal interleaving the count is the number of subscriptions minus
   * the clean stops, it never goes negative, the handles stay consistent with
   * it, and the numbers of future handles only grow.
   */
  lemma {:induction false} RunCounts(s: Session, ops: seq<Op>)
    requires Consistent(s) && Legal(s, ops)
    ensures Consistent(Run(s, ops))
    ensures Run(s, ops).count == s.count + Subscribes(ops) - CleanStops(ops)
    ensures Run(s, ops).nextManager >= s.nextManager && Run(s, ops).nextBacklog >= s.nextBacklog
    decreases |ops|
  {
    if ops != [] {
      var t := Step(s, ops[0]);
      assert Consistent(t) && t.nextManager >= s.nextManager && t.nextBacklog >= s.nextBacklog;
      RunCounts(t, ops[1..]);
    }
  }

  /**
   * Starting with nothing held, once every subscription has been stopped
   * cleanly the manager and backlog are gone, so the next subscription
   * creates handles numbered beyond all those handed out so far.
   */
  lemma BalancedRunEndsIdle(s: Session, ops: seq<Op>)
    requires Consistent(s) && s.count == 0 && Legal(s, ops)
    requires Subscribes(ops) == CleanStops(ops)
    ensures var r := Run(s, ops);
            r.count == 0 && r.manager == None && r.backlog == None &&
            Attach(r).manager == Some(r.nextManager) && r.nextManager >= s.nextManager &&
            Attach(r).backlog == Some(r.nextBacklog) && r.nextBacklog >= s.nextBacklog
  {
    RunCounts(s, ops);
  }

  // ---------------------------------------------------------------------------
  // The object
  // ---------------------------------------------------------------------------

  /** A subscription's discovery listener: who it reports to, the manager it started on, the type. */
  datatype DiscoveryListener = DiscoveryListener(subscriber: Subscriber, manager: nat, serviceType: string)

  /**
   * What the resolve backlog's callbacks captured when the backlog was made:
   * the subscriber of the subscription that made it, and that subscription's manager.
   */
  datatype BacklogClosure = BacklogClosure(owner: Subscriber, manager: nat)

  /** How many entries of `flags` are set. */
  function CountSet(flags: seq<bool>): nat
  {
    if flags == [] then 0 else CountSet(flags[..|flags| - 1]) + (if flags[|flags| - 1] then 1 else 0)
  }

  /** Appending a set flag counts one more. */
  lemma CountSetAppend(flags: seq<bool>, f: bool)
    ensures CountSet(flags + [f]) == CountSet(flags) + (if f then 1 else 0)
  {
    assert (flags + [f])[..|flags|] == flags;
  }

  /** Clearing one set flag counts one fewer. */
  lemma {:induction false} CountSetClear(flags: seq<bool>, i: nat)
    requires i < |flags| && flags[i]
    ensures CountSet(flags[i := false]) == CountSet(flags) - 1
    decreases |flags|
  {
    var n := |flags| - 1;
    assert flags[i := false][..n] == if i == n then flags[..n] else flags[..n][i := false];
    if i < n {
      CountSetClear(flags[..n], i);
    }
  }

  /** With none counted, no flag is set. */
  lemma CountSetZero(flags: seq<bool>)
    requires CountSet(flags) == 0
    ensures forall i | 0 <= i < |flags| :: !flags[i]
  {
    forall i | 0 <= i < |flags|
      ensures !flags[i]
    {
      if flags[i] {
        CountSetPositive(flags, i);
      }
    }
  }

  /** A set flag is counted. */
  lemma {:induction false} CountSetPositive(flags: seq<bool>, i: nat)
    requires i < |flags| && flags[i]
    ensures CountSet(flags) > 0
  {
    CountSetClear(flags, i);
  }

  /**
   * The object invariant, on values. Listener and backlog numbers index
   * `listeners` and `backlogs`; `pending` marks the listeners whose
   * subscription's unsubscribe hook has not run. The session is consistent;
   * the count is the number of pending hooks plus the number of hooks whose
   * stop threw; every pending subscription started on the held manager; the
   * current backlog was made for that manager.
   */
  ghost predicate Coherent(st: Session, pending: seq<bool>, leaked: nat,
                           listeners: seq<DiscoveryListener>, backlogs: seq<BacklogClosure>)
  {
    && Consistent(st)
    && |pending| == |listeners|
    && st.nextBacklog == |backlogs|
    && st.count == CountSet(pending) + leaked
    && (forall l | 0 <= l < |pending| && pending[l] :: st.manager == Some(listeners[l].manager))
    && (st.backlog.Some? ==> st.manager == Some(backlogs[st.backlog.value].manager))
  }

  /** A subscription with a live context keeps the invariant. */
  lemma AttachCoherent(st: Session, pending: seq<bool>, leaked: nat,
                       listeners: seq<DiscoveryListener>, backlogs: seq<BacklogClosure>,
                       sub: Subscriber, serviceType: string)
    requires Coherent(st, pending, leaked, listeners, backlogs)
    ensures var r := Attach(st);
            Coherent(r, pending + [true], leaked,
                     listeners + [DiscoveryListener(sub, r.manager.value, serviceType)],
                     if st.backlog.None? then backlogs + [BacklogClosure(sub, r.manager.value)] else backlogs)
  {
    CountSetAppend(pending, true);
  }

  /** The unsubscribe hook of a pending subscription keeps the invariant. */
  lemma DetachCoherent(st: Session, pending: seq<bool>, leaked: nat,
                       listeners: seq<DiscoveryListener>, backlogs: seq<BacklogClosure>,
                       l: nat, stopThrows: bool)
    requires Coherent(st, pending, leaked, listeners, backlogs)
    requires l < |pending| && pending[l]
    ensures st.count > 0
    ensures Coherent(Detach(st, stopThrows), pending[l := false],
                     if stopThrows then leaked + 1 else leaked, listeners, backlogs)
  {
    CountSetClear(pending, l);
    if CountSet(pending[l := false]) == 0 {
      CountSetZero(pending[l := false]);
    }
  }

  /** Calls into the NsdManager and into the resolve backlog, in the order made. */
  datatype Call =
    | DiscoverServices(manager: nat, serviceType: string, listener: nat)
    | StopServiceDiscovery(manager: nat, listener: nat)
    | ResolveService(manager: nat, info: NsdServiceInfo, backlog: nat)
    | BacklogAdd(backlog: nat, info: NsdServiceInfo)
    | BacklogProceed(backlog: nat)
    | BacklogQuit(backlog: nat)

  class Discovery {
    var nsdManagerInstance: Option<nat>
    var subscriberCount: int
    var resolveBacklog: Option<nat>
    var nextManager: nat
    var nextBacklog: nat
    /** Every backlog ever made; a backlog's number is its index. */
    var backlogs: seq<BacklogClosure>
    /** Every discovery listener ever made; a listener's number is its index. */
    var listeners: seq<DiscoveryListener>
    var calls: seq<Call>
    /** Which listeners' subscriptions have not run their unsubscribe hook. */
    ghost var pending: seq<bool>
    /** How many unsubscribe hooks ran with a stopServiceDiscovery that threw. */
    ghost var leaked: nat
    /** Build.VERSION.SDK_INT and the UTF-8 decoder, as NSDHelper uses them. */
    const sdk: int
    const utf8: seq<bv8> -> string

    ghost function State(): Session
      reads this
    {
      Session(nsdManagerInstance, resolveBacklog, subscriberCount, nextManager, nextBacklog)
    }

    ghost predicate Valid()
      reads this
    {
      Coherent(State(), pending, leaked, listeners, backlogs)
    }

    constructor (sdk: int, utf8: seq<bv8> -> string)
      ensures Valid() && State() == Session(None, None, 0, 0, 0)
      ensures listeners == [] && backlogs == [] && calls == []
      ensures this.sdk == sdk && this.utf8 == utf8
    {
      nsdManagerInstance, subscriberCount, resolveBacklog := None, 0, None;
      nextManager, nextBacklog := 0, 0;
      backlogs, listeners, calls := [], [], [];
      pending, leaked := [], 0;
      this.sdk, this.utf8 := sdk, utf8;
      new;
      assert CountSet(pending) == 0;
    }

    /** getNsdManager: the held manager, or a new one when none is held. */
    method GetNsdManager() returns (m: nat)
      modifies this`nsdManagerInstance, this`nextManager
      ensures Obtain(old(Slot(nsdManagerInstance, nextManager)), false) ==
              Obtained(m, Slot(nsdManagerInstance, nextManager))
    {
      if nsdManagerInstance.None? {
        nsdManagerInstance := Some(nextManager);
        nextManager := nextManager + 1;
      }
      m := nsdManagerInstance.value;
    }

    /**
     * The subscribe body of start(context, type). A stale context ends the
     * stream with StaleContextException and changes nothing else; otherwise a
     * listener is made, the manager and (if none) the backlog are obtained,
     * discovery is started and the count goes up by one.
     */
    method Subscribe(stale: bool, serviceType: string, sub: Subscriber) returns (listener: Option<nat>)
      requires Valid()
      modifies this, sub
      ensures Valid()
      ensures sub.unsubscribed == old(sub.unsubscribed) && leaked == old(leaked)
      ensures stale ==>
                && listener == None
                && sub.log == old(sub.log) + [Error(StaleContext)]
                && State() == old(State()) && calls == old(calls)
                && listeners == old(listeners) && backlogs == old(backlogs) && pending == old(pending)
      ensures !stale ==>
                && listener == Some(old(|listeners|))
                && State() == Attach(old(State()))
                && sub.log == old(sub.log)
                && listeners == old(listeners) + [DiscoveryListener(sub, nsdManagerInstance.value, serviceType)]
                && pending == old(pending) + [true]
                && backlogs == old(backlogs) +
                               (if old(resolveBacklog).None? then [BacklogClosure(sub, nsdManagerInstance.value)] else [])
                && calls == old(calls) + [DiscoverServices(nsdManagerInstance.value, serviceType, old(|listeners|))]
    {
      if stale {
        sub.OnError(StaleContext);
        listener := None;
        return;
      }
      ghost var st0, pending0, listeners0, backlogs0 := State(), pending, listeners, backlogs;
      var l := |listeners|;
      var m := GetNsdManager();
      listeners := listeners + [DiscoveryListener(sub, m, serviceType)];
      if resolveBacklog.None? {
        backlogs := backlogs + [BacklogClosure(sub, m)];
        resolveBacklog := Some(nextBacklog);
        nextBacklog := nextBacklog + 1;
      }
      calls := calls + [DiscoverServices(m, serviceType, l)];
      subscriberCount := subscriberCount + 1;
      pending := pending + [true];
      listener := Some(l);
      assert State() == Attach(st0);
      AttachCoherent(st0, pending0, leaked, listeners0, backlogs0, sub, serviceType);
    }

    /**
     * The unsubscribe hook of the subscription that made listener `l`: stop
     * discovery on the manager it started on; count down only if that did not
     * throw; at zero or below quit the backlog and drop it and the manager.
     */
    method Unsubscribe(l: nat, stopThrows: bool)
      requires Valid() && l < |pending| && pending[l]
      modifies this, listeners[l].subscriber
      ensures Valid()
      ensures State() == Detach(old(State()), stopThrows)
      ensures listeners == old(listeners) && backlogs == old(backlogs)
      ensures pending == old(pending)[l := false]
      ensures leaked == if stopThrows then old(leaked) + 1 else old(leaked)
      ensures listeners[l].subscriber.unsubscribed
      ensures listeners[l].subscriber.log == old(listeners[l].subscriber.log)
      ensures calls == old(calls) + [StopServiceDiscovery(listeners[l].manager, l)] +
                       (if subscriberCount <= 0 then [BacklogQuit(old(resolveBacklog).value)] else [])
    {
      ghost var st0, pending0, leaked0 := State(), pending, leaked;
      DetachCoherent(st0, pending0, leaked0, listeners, backlogs, l, stopThrows);
      var d := listeners[l];
      d.subscriber.MarkUnsubscribed();
      calls := calls + [StopServiceDiscovery(d.manager, l)];
      pending := pending[l := false];
      if !stopThrows {
        subscriberCount := subscriberCount - 1;
      } else {
        leaked := leaked + 1;
      }
      if subscriberCount <= 0 {
        calls := calls + [BacklogQuit(resolveBacklog.value)];
        resolveBacklog := None;
        nsdManagerInstance := None;
      }
      assert State() == Detach(st0, stopThrows);
    }

    /** Once a hook's stop has thrown, the manager and backlog stay held for good. */
    lemma LeakKeepsSession()
      requires Valid() && leaked > 0
      ensures subscriberCount > 0 && nsdManagerInstance.Some? && resolveBacklog.Some?
    {
    }

    /** onStartDiscoveryFailed: the listener's subscriber gets DiscoveryFailed. */
    method OnStartDiscoveryFailed(l: nat, serviceType: string, errorCode: int)
      requires l < |listeners|
      modifies listeners[l].subscriber
      ensures listeners[l].subscriber.unsubscribed == old(listeners[l].subscriber.unsubscribed)
      ensures listeners[l].subscriber.log ==
              old(listeners[l].subscriber.log) + [Error(DiscoveryFailed(serviceType, errorCode))]
    {
      listeners[l].subscriber.OnError(DiscoveryFailed(serviceType, errorCode));
    }

    /** onStopDiscoveryFailed: the listener's subscriber gets DiscoveryFailed. */
    method OnStopDiscoveryFailed(l: nat, serviceType: string, errorCode: int)
      requires l < |listeners|
      modifies listeners[l].subscriber
      ensures listeners[l].subscriber.unsubscribed == old(listeners[l].subscriber.unsubscribed)
      ensures listeners[l].subscriber.log ==
              old(listeners[l].subscriber.log) + [Error(DiscoveryFailed(serviceType, errorCode))]
    {
      listeners[l].subscriber.OnError(DiscoveryFailed(serviceType, errorCode));
    }

    /**
     * onServiceFound: the record goes to the current backlog and nothing is
     * emitted. With no backlog the call dereferences null (`npe`), which
     * cannot happen to a listener whose subscription is still pending.
     */
    method OnServiceFound(l: nat, info: NsdServiceInfo) returns (npe: bool)
      requires Valid() && l < |listeners|
      modifies this`calls
      ensures npe <==> resolveBacklog.None?
      ensures pending[l] ==> !npe
      ensures calls == if npe then old(calls) else old(calls) + [BacklogAdd(resolveBacklog.value, info)]
      ensures listeners[l].subscriber.log == old(listeners[l].subscriber.log)
    {
      if pending[l] {
        CountSetPositive(pending, l);
      }
      npe := resolveBacklog.None?;
      if !npe {
        calls := calls + [BacklogAdd(resolveBacklog.value, info)];
      }
    }

    /** onServiceLost: one REMOVED event to the listener's subscriber, if it has not unsubscribed. */
    method OnServiceLost(l: nat, info: NsdServiceInfo)
      requires l < |listeners|
      modifies listeners[l].subscriber
      ensures var s := listeners[l].subscriber;
              s.unsubscribed == old(s.unsubscribed) &&
              s.log == old(s.log) +
                       (if old(s.unsubscribed) then []
                        else [Next(NSDHelper.NewBonjourEvent(Removed, info, sdk, utf8))])
    {
      var s := listeners[l].subscriber;
      if !s.unsubscribed {
        s.OnNext(NSDHelper.NewBonjourEvent(Removed, info, sdk, utf8));
      }
    }

    /** The backlog's onNext: resolve the record on the manager captured with the backlog. */
    method OnBacklogNext(b: nat, info: NsdServiceInfo)
      requires b < |backlogs|
      modifies this`calls
      ensures calls == old(calls) + [ResolveService(backlogs[b].manager, info, b)]
    {
      calls := calls + [ResolveService(backlogs[b].manager, info, b)];
    }

    /**
     * onServiceResolved, for a resolve started by backlog `b`: one ADDED event
     * to the subscriber captured with that backlog, if it has not unsubscribed;
     * then proceed() on whatever backlog is current, if there is one.
     */
    method OnServiceResolved(b: nat, info: NsdServiceInfo)
      requires b < |backlogs|
      modifies this`calls, backlogs[b].owner
      ensures var o := backlogs[b].owner;
              o.unsubscribed == old(o.unsubscribed) &&
              o.log == old(o.log) +
                       (if old(o.unsubscribed) then []
                        else [Next(NSDHelper.NewBonjourEvent(Added, info, sdk, utf8))])
      ensures calls == old(calls) + (if resolveBacklog.Some? then [BacklogProceed(resolveBacklog.value)] else [])
    {
      var o := backlogs[b].owner;
      if !o.unsubscribed {
        o.OnNext(NSDHelper.NewBonjourEvent(Added, info, sdk, utf8));
      }
      if resolveBacklog.Some? {
        calls := calls + [BacklogProceed(resolveBacklog.value)];
      }
    }

    /** onResolveFailed: nothing is emitted and the backlog is not told to proceed. */
    method OnResolveFailed(b: nat, info: NsdServiceInfo, errorCode: int)
      requires b < |backlogs|
      ensures calls == old(calls)
      ensures backlogs[b].owner.log == old(backlogs[b].owner.log)
    {
    }
  }
}
