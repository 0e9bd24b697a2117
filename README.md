# RxBonjour back ends in Dafny

A model of the Android back ends of RxBonjour, a library that exposes DNS-SD
(Bonjour) discovery and registration as RxJava streams:

- **JBBonjourDiscovery** discovers services on the platform's NsdManager. One
  object serves every subscription. It creates the manager handle and the resolve
  backlog lazily, counts subscriptions, and tears both down when the count falls
  to zero or below.
- **NSDBonjourRegistration** registers services on the NsdManager. It keeps a
  map from each registered service to the listener that controls it.
- **SupportBonjourRegistration** registers services through JmDNS. It builds the
  JmDNS handle lazily on the device's IPv4 address and holds a reference-counted
  multicast lock around each call.
- **NSDHelper** converts between the platform's service record and the library's
  service value.

Files:

- `bonjour_model.dfy` holds the shared values and a stand-in for an Rx
  subscriber: an `unsubscribed` flag and the log of what it was told.
- `lazy_handle.dfy` holds the lazily created shared handle that both
  getNsdManager and getJmdns follow.
- `nsd_helper.dfy`, `jb_bonjour_discovery.dfy`, `nsd_bonjour_registration.dfy`
  and `support_bonjour_registration.dfy` each follow one Java class.

Foreign objects (NsdManager, JmDNS, the multicast locks, the Backlog) are
numbered handles. Each class records the calls it makes into them, in order, in
a `calls` field, and contracts state that trace exactly. Conditions the back
ends cannot see are inputs:

- whether the weak reference to the Context has been cleared (`stale`);
- whether one of the foreign calls that the code guards with a `try` throws: `stopServiceDiscovery` (`stopThrows`), and JmDNS creation, `registerService` and `unregisterAllServices` (`createFails`, `registerFails`, `unregisterFails`);
- the Wi-Fi IP address;
- the SDK level;
- the UTF-8 decoder.

The discovery lifecycle is first stated on values. `Session` holds the manager,
the backlog, the count and the next handle numbers. `Attach` and `Detach` are
one subscription and one unsubscribe hook, and `Run` is any sequence of them.
The class `Discovery` is proved to move its `State()` exactly as `Attach` and
`Detach` do. Its invariant ties the count to the subscriptions whose hook has
not yet run, plus the hooks whose `stopServiceDiscovery` threw.

Two behaviours of the code as written are proved rather than corrected:

- A hook whose stop threw keeps its subscription counted for good, so the manager
  and backlog are never released afterwards.
- The JmDNS `unregister` acquires a multicast lock that it never releases.

## Model

| member | source | states |
|---|---|---|
| LazyHandle.Obtain | rxbonjour/src/main/java/rxbonjour/internal/JBBonjourDiscovery.java:59-66 | a held handle is returned with nothing changed; with none held a new handle numbered `next` is created and held, unless creation throws, which leaves the slot empty |
| LazyHandle.ObtainIdempotent | rxbonjour/src/main/java/rxbonjour/internal/NSDBonjourRegistration.java:55-62 | after a successful request the handle is held and every later request returns that same handle and changes nothing |
| NSDHelper.ToBonjourService | rxbonjour/src/main/java/rxbonjour/internal/NSDHelper.java:33-48 | name, type, host and port are copied; on SDK 21 and up there is exactly one TXT record per attribute key holding its decoded value, below 21 none |
| NSDHelper.AddTxtRecords | rxbonjour/src/main/java/rxbonjour/internal/NSDHelper.java:38-41 | the loop over the attribute keys yields exactly the attribute keys, each mapped to its decoded value, whatever order the keys are visited in |
| NSDHelper.BuildBonjourService | rxbonjour/src/main/java/rxbonjour/internal/NSDHelper.java:33-48 | the builder, SDK gate and loop produce exactly the service ToBonjourService describes |
| NSDHelper.ToNsdServiceInfo | rxbonjour/src/main/java/rxbonjour/internal/NSDHelper.java:50-56 | the fresh record has the service's name, type and port, no host and no attributes |
| NSDHelper.NewBonjourEvent | rxbonjour/src/main/java/rxbonjour/internal/NSDHelper.java:28-31 | the event has the given type and carries the converted record, with its name, type, host and port |
| NSDHelper.ServiceRoundTrip | rxbonjour/src/main/java/rxbonjour/internal/NSDHelper.java:33-56 | service to record and back keeps name, type and port and loses host and TXT records |
| NSDHelper.RecordRoundTrip | rxbonjour/src/main/java/rxbonjour/internal/NSDHelper.java:33-56 | record to service and back is the record with host and attributes cleared |
| JBBonjourDiscovery.Attach | rxbonjour/src/main/java/rxbonjour/internal/JBBonjourDiscovery.java:113-137 | a subscription keeps the session consistent and adds exactly one to the count |
| JBBonjourDiscovery.Detach | rxbonjour/src/main/java/rxbonjour/internal/JBBonjourDiscovery.java:141-157 | a hook on a counted session keeps it consistent; the count drops by one only when stop did not throw |
| JBBonjourDiscovery.AttachShares | rxbonjour/src/main/java/rxbonjour/internal/JBBonjourDiscovery.java:116-137 | while the count is positive a new subscription reuses the held manager and backlog and creates nothing |
| JBBonjourDiscovery.AttachFromIdleIsFresh | rxbonjour/src/main/java/rxbonjour/internal/JBBonjourDiscovery.java:113-117 | with the count at zero a subscription gets a newly created manager and a newly created backlog |
| JBBonjourDiscovery.DetachTearsDownAtZero | rxbonjour/src/main/java/rxbonjour/internal/JBBonjourDiscovery.java:150-156 | the manager and the backlog are dropped exactly when a clean stop takes the count from one to zero |
| JBBonjourDiscovery.FailedStopKeepsSession | rxbonjour/src/main/java/rxbonjour/internal/JBBonjourDiscovery.java:142-148 | a hook whose stop throws leaves the session unchanged |
| JBBonjourDiscovery.RunCounts | rxbonjour/src/main/java/rxbonjour/internal/JBBonjourDiscovery.java:139-163 | over any legal sequence of subscriptions and hooks the session stays consistent, the count equals subscriptions minus clean stops, and handle numbers only grow |
| JBBonjourDiscovery.BalancedRunEndsIdle | rxbonjour/src/main/java/rxbonjour/internal/JBBonjourDiscovery.java:150-156 | from idle, once every subscription is stopped cleanly nothing is held and the next subscription creates a manager and backlog numbered beyond all earlier ones |
| JBBonjourDiscovery.AttachCoherent | rxbonjour/src/main/java/rxbonjour/internal/JBBonjourDiscovery.java:113-163 | a subscription keeps the object invariant with its listener pending and, when it made the backlog, the backlog's captured subscriber and manager recorded |
| JBBonjourDiscovery.DetachCoherent | rxbonjour/src/main/java/rxbonjour/internal/JBBonjourDiscovery.java:141-157 | the hook of a pending subscription runs with the count positive and keeps the object invariant, counting the subscription as leaked when stop threw |
| JBBonjourDiscovery.Discovery.constructor | rxbonjour/src/main/java/rxbonjour/internal/JBBonjourDiscovery.java:33-48 | a new object holds no manager and no backlog, has count zero and has made no calls |
| JBBonjourDiscovery.Discovery.GetNsdManager | rxbonjour/src/main/java/rxbonjour/internal/JBBonjourDiscovery.java:59-66 | the manager field moves exactly as Obtain describes: created only when none is held |
| JBBonjourDiscovery.Discovery.Subscribe | rxbonjour/src/main/java/rxbonjour/internal/JBBonjourDiscovery.java:74-164 | a stale context gets StaleContextException and nothing else changes; otherwise a listener is made, the state moves as Attach, a backlog capturing this subscriber is made only if none exists, and discoverServices is called on the obtained manager |
| JBBonjourDiscovery.Discovery.Unsubscribe | rxbonjour/src/main/java/rxbonjour/internal/JBBonjourDiscovery.java:140-158 | stopServiceDiscovery is called on the manager the subscription started on; the state moves as Detach; at zero or below the held backlog (never null) is quit and both fields are cleared |
| JBBonjourDiscovery.Discovery.LeakKeepsSession | rxbonjour/src/main/java/rxbonjour/internal/JBBonjourDiscovery.java:142-156 | once any stop has thrown, the count stays positive and the manager and backlog stay held |
| JBBonjourDiscovery.Discovery.OnStartDiscoveryFailed | rxbonjour/src/main/java/rxbonjour/internal/JBBonjourDiscovery.java:84-86 | the listener's subscriber gets DiscoveryFailed with the type and error code |
| JBBonjourDiscovery.Discovery.OnStopDiscoveryFailed | rxbonjour/src/main/java/rxbonjour/internal/JBBonjourDiscovery.java:88-90 | the listener's subscriber gets DiscoveryFailed with the type and error code |
| JBBonjourDiscovery.Discovery.OnServiceFound | rxbonjour/src/main/java/rxbonjour/internal/JBBonjourDiscovery.java:100-103 | the record is only added to the current backlog and nothing is emitted; the null dereference with no backlog cannot happen to a pending subscription |
| JBBonjourDiscovery.Discovery.OnServiceLost | rxbonjour/src/main/java/rxbonjour/internal/JBBonjourDiscovery.java:105-109 | one REMOVED event carrying the converted record, only to a subscriber that has not unsubscribed |
| JBBonjourDiscovery.Discovery.OnBacklogNext | rxbonjour/src/main/java/rxbonjour/internal/JBBonjourDiscovery.java:118-120 | the backlog resolves the record on the manager captured when the backlog was made |
| JBBonjourDiscovery.Discovery.OnServiceResolved | rxbonjour/src/main/java/rxbonjour/internal/JBBonjourDiscovery.java:124-132 | one ADDED event to the subscriber captured with the backlog, only if it has not unsubscribed; then proceed on the current backlog if there is one |
| JBBonjourDiscovery.Discovery.OnResolveFailed | rxbonjour/src/main/java/rxbonjour/internal/JBBonjourDiscovery.java:121-122 | nothing is emitted and proceed is not called |
| NSDBonjourRegistration.Registration.constructor | rxbonjour/src/main/java/rxbonjour/internal/NSDBonjourRegistration.java:33-45 | a new object holds no manager, stores no listeners and has made no calls |
| NSDBonjourRegistration.Registration.GetNsdManager | rxbonjour/src/main/java/rxbonjour/internal/NSDBonjourRegistration.java:55-62 | the manager field moves exactly as Obtain describes: created only when none is held |
| NSDBonjourRegistration.Registration.Register | rxbonjour/src/main/java/rxbonjour/internal/NSDBonjourRegistration.java:70-86 | a stale context gets StaleContextException and no manager call; otherwise a fresh listener bound to the subscriber is passed with the converted record to registerService |
| NSDBonjourRegistration.Registration.Unregister | rxbonjour/src/main/java/rxbonjour/internal/NSDBonjourRegistration.java:99 | the listener is looked up when unregister is called: the stored listener for the service's name and type, or null exactly when none is stored |
| NSDBonjourRegistration.RegisterThenUnregister | rxbonjour/src/main/java/rxbonjour/internal/NSDBonjourRegistration.java:99-153 | after a live registered callback the lookup for a service of that name and type finds that listener; after a live unregistered callback it finds none, so a second unregistration fails before any manager call |
| NSDBonjourRegistration.Registration.SubscribeUnregister | rxbonjour/src/main/java/rxbonjour/internal/NSDBonjourRegistration.java:100-115 | a stale context gets StaleContextException; a null listener fails before any manager call; otherwise the listener is rebound to this subscriber and handed to unregisterService |
| NSDBonjourRegistration.RegistrationListener.constructor | rxbonjour/src/main/java/rxbonjour/internal/NSDBonjourRegistration.java:124-125 | a new listener belongs to its registration object and has no subscriber yet |
| NSDBonjourRegistration.RegistrationListener.SetSubscriber | rxbonjour/src/main/java/rxbonjour/internal/NSDBonjourRegistration.java:127-129 | the listener reports to the given subscriber from then on |
| NSDBonjourRegistration.RegistrationListener.OnServiceRegistered | rxbonjour/src/main/java/rxbonjour/internal/NSDBonjourRegistration.java:132-139 | a live subscriber gets exactly one REGISTERED event then completion, and the listener is stored under the record's name and type; an unsubscribed one gets nothing and the map is unchanged |
| NSDBonjourRegistration.RegistrationListener.OnRegistrationFailed | rxbonjour/src/main/java/rxbonjour/internal/NSDBonjourRegistration.java:142-144 | the subscriber gets RegistrationFailed with the record and the error code; the map is unchanged |
| NSDBonjourRegistration.RegistrationListener.OnServiceUnregistered | rxbonjour/src/main/java/rxbonjour/internal/NSDBonjourRegistration.java:147-154 | a live subscriber gets exactly one UNREGISTERED event then completion, and the entry for the record's name and type is removed; an unsubscribed one gets nothing and the map is unchanged |
| NSDBonjourRegistration.RegistrationListener.OnUnregistrationFailed | rxbonjour/src/main/java/rxbonjour/internal/NSDBonjourRegistration.java:157-158 | no event and no map change |
| SupportBonjourRegistration.ShiftRightBytes | rxbonjour/src/main/java/rxbonjour/internal/SupportBonjourRegistration.java:88-89 | Java's arithmetic right shift by 0, 8, 16 or 24 bits keeps the sign and does not grow the magnitude |
| SupportBonjourRegistration.MaskedByte | rxbonjour/src/main/java/rxbonjour/internal/SupportBonjourRegistration.java:88-89 | each masked byte lies in 0..255 before the cast |
| SupportBonjourRegistration.ByteCast | rxbonjour/src/main/java/rxbonjour/internal/SupportBonjourRegistration.java:88-89 | the (byte) cast keeps the low eight bits of its argument and yields a value in -128..127 |
| SupportBonjourRegistration.Unsigned | rxbonjour/src/main/java/rxbonjour/internal/SupportBonjourRegistration.java:88-89 | a signed byte read back unsigned lies in 0..255 |
| SupportBonjourRegistration.UnsignedByteCast | rxbonjour/src/main/java/rxbonjour/internal/SupportBonjourRegistration.java:88-89 | the (byte) cast of a value in 0..255 loses nothing |
| SupportBonjourRegistration.InetAddressBytes | rxbonjour/src/main/java/rxbonjour/internal/SupportBonjourRegistration.java:85-91 | the address has exactly four bytes |
| SupportBonjourRegistration.InetAddressBytesMasked | rxbonjour/src/main/java/rxbonjour/internal/SupportBonjourRegistration.java:88-89 | byte i, read unsigned, is the int shifted right by 8*i and masked with 0xff, least significant first |
| SupportBonjourRegistration.Recombine | rxbonjour/src/main/java/rxbonjour/internal/SupportBonjourRegistration.java:86-89 | b0 + 2^8 b1 + 2^16 b2 + 2^24 b3 of the unsigned bytes equals the int mod 2^32 |
| SupportBonjourRegistration.InetAddressBytesInjective | rxbonjour/src/main/java/rxbonjour/internal/SupportBonjourRegistration.java:86-90 | different ints give different addresses |
| SupportBonjourRegistration.BonjourToServiceInfo | rxbonjour/src/main/java/rxbonjour/internal/SupportBonjourRegistration.java:156-158 | the JmDNS record carries the service's type, name and port, no subtype, weight and priority 1, persistent, empty text |
| SupportBonjourRegistration.BonjourToServiceInfoForgets | rxbonjour/src/main/java/rxbonjour/internal/SupportBonjourRegistration.java:156-158 | two services give the same JmDNS record exactly when their name, type and port agree |
| SupportBonjourRegistration.LockBalanceAppend | rxbonjour/src/main/java/rxbonjour/internal/SupportBonjourRegistration.java:128-130 | the count of unreleased lock acquisitions adds up over consecutive stretches of calls |
| SupportBonjourRegistration.SupportRegistration.constructor | rxbonjour/src/main/java/rxbonjour/internal/SupportBonjourRegistration.java:57-70 | a new object holds no JmDNS, has made no locks and no calls |
| SupportBonjourRegistration.SupportRegistration.GetJmdns | rxbonjour/src/main/java/rxbonjour/internal/SupportBonjourRegistration.java:100-108 | the JmDNS field moves exactly as Obtain describes; a new JmDNS is created on the address bytes of the reported IP only when none is held; the returned handle is the held one and was handed out by a creation; no lock is touched |
| SupportBonjourRegistration.SupportRegistration.Register | rxbonjour/src/main/java/rxbonjour/internal/SupportBonjourRegistration.java:118-147 | a stale context gets StaleContextException before any lock is made; otherwise a lock is acquired, JmDNS obtained and registerService called with the converted record; success gives one REGISTERED event for the given service then completion, an IOException gives RegistrationFailed naming it; the lock is released on every path, so the unreleased count is unchanged |
| SupportBonjourRegistration.SupportRegistration.Unregister | rxbonjour/src/main/java/rxbonjour/internal/SupportBonjourRegistration.java:166-193 | as Register, but unregisterAllServices is called without naming the service, the event is UNREGISTERED for the requested service, and the lock is never released, so the unreleased count goes up by one |

## Left out

- Threads and the `synchronized` blocks: every call is modelled as running alone.
- RxJava's `Observable.create`, `share()` and `MainThreadSubscription`. A subscriber is a flag and a log. The model does not capture that `onError` unsubscribes the subscriber and so runs its hook; `Unsubscribe` is called explicitly instead.
- The Backlog class is not part of this model. Only its `add`, `proceed` and `quit` calls and its `onNext` callback are modelled, with no claim about queue order or one resolve at a time.
- NsdManager, WifiManager, MulticastLock, JmDNS, `InetAddress.getByAddress` and the network are foreign. Their calls are recorded, not run. Only the calls listed above as throw inputs may throw in the model. `createMulticastLock` and `setReferenceCounted(true)` are folded into one recorded call.
- These calls are assumed never to throw: `discoverServices` and `resolveService` in discovery, NsdManager `registerService` and `unregisterService`, `getSystemService`, and the multicast lock's `acquire` and `release`. In the source, a `discoverServices` that throws would leave the unsubscribe hook installed while `subscriberCount++` never runs. The model's Subscribe and its count invariant do not cover that path.
- The WeakReference to the Context: only whether it was cleared is modelled.
- UTF-8 decoding of TXT values is a parameter. TXT attributes whose value is null are not modelled.
- The BonjourService builder and its `equals`/`hashCode` are not part of this model. The registration map is keyed by the service's name and type.
- `InetAddress.toString()`, used as the JmDNS instance name, is not modelled.
- The static logger setup, the unused `SUFFIX` constant and the unused `subscriberCount` field of SupportBonjourRegistration are left out. So are the empty `onDiscoveryStarted` and `onDiscoveryStopped` callbacks, the message formatting of RegistrationFailed and DiscoveryFailed, and the BonjourRegistration interface.
- JBBonjourDiscovery.Discovery.Subscribe: the count is an unbounded integer, so 32-bit wrap-around of `subscriberCount` is not modelled.
- NSDBonjourRegistration.RegistrationListener.OnServiceRegistered: requires a bound subscriber. Register binds it before the listener reaches the manager, so the null dereference is unreachable in the source.
- JBBonjourDiscovery.Discovery.OnStartDiscoveryFailed: callbacks are modelled only for listeners and backlogs this object made (the index requires).
