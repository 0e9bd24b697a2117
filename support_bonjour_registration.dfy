/**
 * Registration through JmDNS (SupportBonjourRegistration). The JmDNS handle is
 * created lazily on the device's IPv4 address, which the Wi-Fi service reports
 * as a 32-bit int with the first octet in the low byte; each subscription holds
 * a reference-counted multicast lock around its call into JmDNS.
 *
 * Java's `int` and `byte` are the subset types Int32 and Int8, and its shift,
 * mask and narrowing cast are written out arithmetically.
 */
module SupportBonjourRegistration {
  import opened BonjourModel
  import opened LazyHandle

  /** The tag every multicast lock is created with. */
  const LOCK_TAG: string := "RxBonjourDiscovery"

  type Int32 = x: int | -0x8000_0000 <= x < 0x8000_0000
  type Int8 = x: int | -0x80 <= x < 0x80

  // ---------------------------------------------------------------------------
  // The address bytes
  // ---------------------------------------------------------------------------

  /** `x >> 8 * i` on a Java int, for i = 0..3: an arithmetic shift, so the quotient rounds down. */
  function ShiftRightBytes(x: Int32, i: nat): (r: Int32)
    requires i < 4
    ensures i == 0 ==> r == x
    ensures x >= 0 ==> 0 <= r <= x
    ensures x < 0 ==> x <= r < 0
  {
    match i
    case 0 => x
    case 1 => x / 0x100
    case 2 => x / 0x1_0000
    case 3 => x / 0x100_0000
  }

  /** `x >> 8 * i & 0xff`: byte i of the two's-complement form of `x`, as 0..255. */
  function MaskedByte(x: Int32, i: nat): (r: int)
    requires i < 4
    ensures 0 <= r < 0x100
  {
    ShiftRightBytes(x, i) % 0x100
  }

  /** Java's `(byte) v`: the low eight bits of `v`, read as a signed byte. */
  function ByteCast(v: int): (b: Int8)
    ensures b % 0x100 == v % 0x100
  {
    (v + 0x80) % 0x100 - 0x80
  }

  /** Java's `b & 0xff` on a byte: its value as an unsigned byte. */
  function Unsigned(b: Int8): (u: int)
    ensures 0 <= u < 0x100
  {
    b % 0x100
  }

  /** A value already in 0..255 survives the narrowing cast and the widening mask. */
  lemma UnsignedByteCast(v: int)
    requires 0 <= v < 0x100
    ensures Unsigned(ByteCast(v)) == v
  {
    if v < 0x80 {
      assert ByteCast(v) == v;
    } else {
      assert ByteCast(v) == v - 0x100;
    }
  }

  /** getInetAddress: the four address bytes, byte 0 of the int first. */
  function InetAddressBytes(x: Int32): (b: seq<Int8>)
    ensures |b| == 4
  {
    [ByteCast(MaskedByte(x, 0)), ByteCast(MaskedByte(x, 1)),
     ByteCast(MaskedByte(x, 2)), ByteCast(MaskedByte(x, 3))]
  }

  /** Byte i, read back unsigned, is `x >> 8 * i & 0xff`, least significant first. */
  lemma InetAddressBytesMasked(x: Int32)
    ensures forall i | 0 <= i < 4 :: Unsigned(InetAddressBytes(x)[i]) == MaskedByte(x, i)
  {
    forall i | 0 <= i < 4
      ensures Unsigned(InetAddressBytes(x)[i]) == MaskedByte(x, i)
    {
      UnsignedByteCast(MaskedByte(x, i));
    }
  }

  /** The bytes recombined little-endian give back the two's-complement form of the int. */
  lemma Recombine(x: Int32)
    ensures var b := InetAddressBytes(x);
            Unsigned(b[0]) + 0x100 * Unsigned(b[1]) + 0x1_0000 * Unsigned(b[2]) + 0x100_0000 * Unsigned(b[3])
            == x % 0x1_0000_0000
  {
    InetAddressBytesMasked(x);
    SplitLowByte32(x);
    SplitLowByte24(x / 0x100);
    SplitLowByte16(x / 0x1_0000);
    DivByByteTwice(x);
    assert MaskedByte(x, 0) + 0x100 * MaskedByte(x, 1) + 0x1_0000 * MaskedByte(x, 2) + 0x100_0000 * MaskedByte(x, 3)
           == x % 0x1_0000_0000;
  }

  // Peeling the low byte off a remainder modulo 2^32, 2^24 and 2^16.

  lemma SplitLowByte32(y: int)
    ensures y % 0x1_0000_0000 == y % 0x100 + 0x100 * ((y / 0x100) % 0x100_0000)
  {
  }

  lemma SplitLowByte24(y: int)
    ensures y % 0x100_0000 == y % 0x100 + 0x100 * ((y / 0x100) % 0x1_0000)
  {
  }

  lemma SplitLowByte16(y: int)
    ensures y % 0x1_0000 == y % 0x100 + 0x100 * ((y / 0x100) % 0x100)
  {
  }

  lemma DivByByteTwice(x: int)
    ensures x / 0x100 / 0x100 == x / 0x1_0000 && x / 0x1_0000 / 0x100 == x / 0x100_0000
  {
  }

  /** Different ints give different addresses. */
  lemma InetAddressBytesInjective(x: Int32, y: Int32)
    requires InetAddressBytes(x) == InetAddressBytes(y)
    ensures x == y
  {
    Recombine(x);
    Recombine(y);
    TwosComplementInjective(x, y);
  }

  /** An int is determined by its two's-complement form. */
  lemma TwosComplementInjective(x: Int32, y: Int32)
    requires x % 0x1_0000_0000 == y % 0x1_0000_0000
    ensures x == y
  {
    assert x % 0x1_0000_0000 == if x >= 0 then x else x + 0x1_0000_0000;
    assert y % 0x1_0000_0000 == if y >= 0 then y else y + 0x1_0000_0000;
  }

  // ---------------------------------------------------------------------------
  // The JmDNS record
  // ---------------------------------------------------------------------------

  /** The JmDNS record (ServiceInfoImpl) as its constructor receives it. */
  datatype JmdnsServiceInfo = JmdnsServiceInfo(
    serviceType: string,
    name: string,
    subtype: Option<string>,
    port: int,
    weight: int,
    priority: int,
    persistent: bool,
    text: string)

  /**
   * bonjourToServiceInfo: the service's type, name and port, no subtype,
   * weight and priority 1, persistent, and an empty text.
   */
  function BonjourToServiceInfo(s: BonjourService): (r: JmdnsServiceInfo)
    ensures r.serviceType == s.serviceType && r.name == s.name && r.port == s.port
    ensures r.subtype == None && r.weight == 1 && r.priority == 1 && r.persistent && r.text == ""
  {
    JmdnsServiceInfo(s.serviceType, s.name, None, s.port, 1, 1, true, "")
  }

  /** The record depends on the service's name, type and port alone; its host and TXT records are dropped. */
  lemma BonjourToServiceInfoForgets(s: BonjourService, t: BonjourService)
    ensures BonjourToServiceInfo(s) == BonjourToServiceInfo(t) <==> Identity(s) == Identity(t) && s.port == t.port
  {
  }

  // ---------------------------------------------------------------------------
  // Calls and the multicast lock count
  // ---------------------------------------------------------------------------

  /** Calls into the Wi-Fi service and into JmDNS, in the order made. */
  datatype Call =
    | CreateMulticastLock(tag: string, lock: nat)
    | AcquireMulticastLock(lock: nat)
    | ReleaseMulticastLock(lock: nat)
    | CreateJmdns(address: seq<Int8>, jmdns: nat)
    | RegisterService(jmdns: nat, info: JmdnsServiceInfo)
    | UnregisterAllServices(jmdns: nat)

  /** What one call does to the number of acquisitions not yet released. */
  function LockDelta(c: Call): int
  {
    if c.AcquireMulticastLock? then 1 else if c.ReleaseMulticastLock? then -1 else 0
  }

  /** How many multicast lock acquisitions in `calls` have not been released. */
  function LockBalance(calls: seq<Call>): int
  {
    if calls == [] then 0 else LockDelta(calls[0]) + LockBalance(calls[1..])
  }

  lemma {:induction false} LockBalanceAppend(a: seq<Call>, b: seq<Call>)
    ensures LockBalance(a + b) == LockBalance(a) + LockBalance(b)
    decreases |a|
  {
    if a != [] {
      assert (a + b)[0] == a[0];
      assert (a + b)[1..] == a[1..] + b;
      LockBalanceAppend(a[1..], b);
    } else {
      assert a + b == b;
    }
  }

  lemma LockBalanceOne(c: Call)
    ensures LockBalance([c]) == LockDelta(c)
  {
    assert [c][1..] == [];
  }

  class SupportRegistration {
    var jmdnsInstance: Option<nat>
    var nextJmdns: nat
    var nextLock: nat
    var calls: seq<Call>

    ghost predicate Valid()
      reads this
    {
      Fits(Slot(jmdnsInstance, nextJmdns))
    }

    constructor ()
      ensures Valid()
      ensures jmdnsInstance == None && nextJmdns == 0 && nextLock == 0 && calls == []
    {
      jmdnsInstance, nextJmdns, nextLock := None, 0, 0;
      calls := [];
    }

    /** Records calls made in a row. */
    method Record(cs: seq<Call>)
      modifies this`calls
      ensures calls == old(calls) + cs
      ensures LockBalance(calls) == LockBalance(old(calls)) + LockBalance(cs)
    {
      LockBalanceAppend(calls, cs);
      calls := calls + cs;
    }

    /** Records one call. */
    method RecordOne(c: Call)
      modifies this`calls
      ensures calls == old(calls) + [c]
      ensures LockBalance(calls) == LockBalance(old(calls)) + LockDelta(c)
    {
      LockBalanceOne(c);
      Record([c]);
    }

    /**
     * getJmdns, with the Wi-Fi service reporting `ipAddress`: the held JmDNS,
     * or one newly created on the address's bytes when none is held. Creation
     * may throw an IOException (`createFails`), leaving none held. Either way
     * the handle returned is held and was handed out by a creation.
     */
    method GetJmdns(ipAddress: Int32, createFails: bool) returns (jmdns: Option<nat>)
      requires Valid()
      modifies this`jmdnsInstance, this`nextJmdns, this`calls
      ensures Valid()
      ensures jmdns.Some? ==> jmdnsInstance == jmdns && jmdns.value < nextJmdns
      ensures Obtain(old(Slot(jmdnsInstance, nextJmdns)), createFails) ==
              if jmdns.Some? then Obtained(jmdns.value, Slot(jmdnsInstance, nextJmdns)) else CreateFailed
      ensures jmdns.None? ==> jmdnsInstance == old(jmdnsInstance) && nextJmdns == old(nextJmdns)
      ensures calls == old(calls) +
                       if old(jmdnsInstance).None? && jmdns.Some?
                       then [CreateJmdns(InetAddressBytes(ipAddress), jmdns.value)] else []
      ensures LockBalance(calls) == LockBalance(old(calls))
    {
      if jmdnsInstance.None? {
        var address := InetAddressBytes(ipAddress);
        if createFails {
          return None;
        }
        jmdnsInstance := Some(nextJmdns);
        RecordOne(CreateJmdns(address, nextJmdns));
        nextJmdns := nextJmdns + 1;
      }
      jmdns := jmdnsInstance;
    }

    /**
     * The subscribe body of register(context, service). A stale context ends
     * the stream with StaleContextException before any lock is made.
     * Otherwise a multicast lock is acquired; JmDNS is obtained and the
     * service registered, ending the stream with one REGISTERED event and
     * completion, or, when either throws an IOException, with
     * RegistrationFailed naming the service; the lock is released on both paths.
     */
    method Register(stale: bool, service: BonjourService, sub: Subscriber,
                    ipAddress: Int32, createFails: bool, registerFails: bool)
      requires Valid()
      modifies this, sub
      ensures Valid()
      ensures sub.unsubscribed == old(sub.unsubscribed)
      ensures stale ==>
                && sub.log == old(sub.log) + [Error(StaleContext)]
                && jmdnsInstance == old(jmdnsInstance) && nextJmdns == old(nextJmdns)
                && nextLock == old(nextLock) && calls == old(calls)
      ensures !stale ==> LockBalance(calls) == LockBalance(old(calls))
      ensures !stale ==>
                var got := Obtain(old(Slot(jmdnsInstance, nextJmdns)), createFails);
                var lock := old(nextLock);
                && nextLock == lock + 1
                && (got.Obtained? ==> Slot(jmdnsInstance, nextJmdns) == got.slot)
                && (got.CreateFailed? ==> jmdnsInstance == old(jmdnsInstance) && nextJmdns == old(nextJmdns))
                && sub.log == old(sub.log) +
                   (if got.Obtained? && !registerFails
                    then [Next(BonjourEvent(Registered, service)), Completed]
                    else [Error(SupportRegistrationFailed(service.name))])
                && calls == old(calls) + [CreateMulticastLock(LOCK_TAG, lock), AcquireMulticastLock(lock)] +
                   (if got.Obtained? && old(jmdnsInstance).None?
                    then [CreateJmdns(InetAddressBytes(ipAddress), got.handle)] else []) +
                   (if got.Obtained? then [RegisterService(got.handle, BonjourToServiceInfo(service))] else []) +
                   [ReleaseMulticastLock(lock)]
    {
      if stale {
        sub.OnError(StaleContext);
        return;
      }
      var lock := nextLock;
      nextLock := nextLock + 1;
      LockBalanceOne(CreateMulticastLock(LOCK_TAG, lock));
      LockBalanceOne(AcquireMulticastLock(lock));
      LockBalanceAppend([CreateMulticastLock(LOCK_TAG, lock)], [AcquireMulticastLock(lock)]);
      Record([CreateMulticastLock(LOCK_TAG, lock), AcquireMulticastLock(lock)]);
      var jmdns := GetJmdns(ipAddress, createFails);
      if jmdns.None? {
        sub.OnError(SupportRegistrationFailed(service.name));
      } else {
        RecordOne(RegisterService(jmdns.value, BonjourToServiceInfo(service)));
        if registerFails {
          sub.OnError(SupportRegistrationFailed(service.name));
        } else {
          sub.OnNext(BonjourEvent(Registered, service));
          sub.OnCompleted();
        }
      }
      RecordOne(ReleaseMulticastLock(lock));
    }

    /**
     * The subscribe body of unregister(context, service). As Register, but
     * JmDNS is told to unregister every service, not just this one, and the
     * event is UNREGISTERED carrying the requested service. The acquired lock
     * is never released.
     */
    method Unregister(stale: bool, service: BonjourService, sub: Subscriber,
                      ipAddress: Int32, createFails: bool, unregisterFails: bool)
      requires Valid()
      modifies this, sub
      ensures Valid()
      ensures sub.unsubscribed == old(sub.unsubscribed)
      ensures stale ==>
                && sub.log == old(sub.log) + [Error(StaleContext)]
                && jmdnsInstance == old(jmdnsInstance) && nextJmdns == old(nextJmdns)
                && nextLock == old(nextLock) && calls == old(calls)
      ensures !stale ==> LockBalance(calls) == LockBalance(old(calls)) + 1
      ensures !stale ==>
                var got := Obtain(old(Slot(jmdnsInstance, nextJmdns)), createFails);
                var lock := old(nextLock);
                && nextLock == lock + 1
                && (got.Obtained? ==> Slot(jmdnsInstance, nextJmdns) == got.slot)
                && (got.CreateFailed? ==> jmdnsInstance == old(jmdnsInstance) && nextJmdns == old(nextJmdns))
                && sub.log == old(sub.log) +
                   (if got.Obtained? && !unregisterFails
                    then [Next(BonjourEvent(Unregistered, service)), Completed]
                    else [Error(SupportRegistrationFailed(service.name))])
                && calls == old(calls) + [CreateMulticastLock(LOCK_TAG, lock), AcquireMulticastLock(lock)] +
                   (if got.Obtained? && old(jmdnsInstance).None?
                    then [CreateJmdns(InetAddressBytes(ipAddress), got.handle)] else []) +
                   (if got.Obtained? then [UnregisterAllServices(got.handle)] else [])
    {
      if stale {
        sub.OnError(StaleContext);
        return;
      }
      var lock := nextLock;
      nextLock := nextLock + 1;
      LockBalanceOne(CreateMulticastLock(LOCK_TAG, lock));
      LockBalanceOne(AcquireMulticastLock(lock));
      LockBalanceAppend([CreateMulticastLock(LOCK_TAG, lock)], [AcquireMulticastLock(lock)]);
      Record([CreateMulticastLock(LOCK_TAG, lock), AcquireMulticastLock(lock)]);
      var jmdns := GetJmdns(ipAddress, createFails);
      if jmdns.None? {
        sub.OnError(SupportRegistrationFailed(service.name));
      } else {
        RecordOne(UnregisterAllServices(jmdns.value));
        if unregisterFails {
          sub.OnError(SupportRegistrationFailed(service.name));
        } else {
          sub.OnNext(BonjourEvent(Unregistered, service));
          sub.OnCompleted();
        }
      }
    }
  }
}
