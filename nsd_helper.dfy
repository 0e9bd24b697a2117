/**
 * Field-by-field conversion between the platform's service record and the
 * library's service value (NSDHelper). TXT attributes are copied only on
 * Lollipop (SDK level 21) and up; how their bytes are decoded as UTF-8 is a
 * parameter, `utf8`.
 */
module NSDHelper {
  import opened BonjourModel

  const LOLLIPOP: int := 21

  /** The TXT records a record with attributes `attrs` contributes on SDK level `sdk`. */
  function TxtRecords(attrs: map<string, seq<bv8>>, sdk: int, utf8: seq<bv8> -> string): map<string, string>
  {
    if sdk >= LOLLIPOP then map k | k in attrs :: utf8(attrs[k]) else map[]
  }

  /**
   * toBonjourService: service name, service type, host and port are copied;
   * there is one TXT record per attribute key, holding the decoded value, on
   * Lollipop and up, and none below it.
   */
  function ToBonjourService(info: NsdServiceInfo, sdk: int, utf8: seq<bv8> -> string): (s: BonjourService)
    ensures s.name == info.serviceName && s.serviceType == info.serviceType
    ensures s.host == info.host && s.port == info.port
    ensures s.txtRecords.Keys == if sdk >= LOLLIPOP then info.attributes.Keys else {}
    ensures forall k | k in s.txtRecords :: s.txtRecords[k] == utf8(info.attributes[k])
  {
    BonjourService(info.serviceName, info.serviceType, info.host, info.port,
                   TxtRecords(info.attributes, sdk, utf8))
  }

  /**
   * The loop of toBonjourService: one addTxtRecord per attribute key, in
   * whatever order the key set is visited, into an initially empty builder.
   */
  method AddTxtRecords(attrs: map<string, seq<bv8>>, utf8: seq<bv8> -> string) returns (txt: map<string, string>)
    ensures txt.Keys == attrs.Keys
    ensures forall k | k in txt :: txt[k] == utf8(attrs[k])
  {
    txt := map[];
    var remaining := attrs.Keys;
    while remaining != {}
      invariant remaining <= attrs.Keys
      invariant txt.Keys == attrs.Keys - remaining
      invariant forall k | k in txt :: txt[k] == utf8(attrs[k])
      decreases remaining
    {
      var key :| key in remaining;
      txt := txt[key := utf8(attrs[key])];
      remaining := remaining - {key};
    }
  }

  /** toBonjourService as the source runs it: the builder, the SDK gate and the loop. */
  method BuildBonjourService(info: NsdServiceInfo, sdk: int, utf8: seq<bv8> -> string) returns (s: BonjourService)
    ensures s == ToBonjourService(info, sdk, utf8)
  {
    var txt: map<string, string> := map[];
    if sdk >= LOLLIPOP {
      txt := AddTxtRecords(info.attributes, utf8);
    }
    s := BonjourService(info.serviceName, info.serviceType, info.host, info.port, txt);
  }

  /**
   * toNsdServiceInfo: a fresh record whose name, type and port are set from
   * the service; its host stays null and it has no attributes.
   */
  function ToNsdServiceInfo(s: BonjourService): (info: NsdServiceInfo)
    ensures info.serviceName == s.name && info.serviceType == s.serviceType && info.port == s.port
    ensures info.host == None && info.attributes == map[]
  {
    NsdServiceInfo(s.name, s.serviceType, None, s.port, map[])
  }

  /** newBonjourEvent: an event of the given type carrying the converted record. */
  function NewBonjourEvent(t: EventType, info: NsdServiceInfo, sdk: int, utf8: seq<bv8> -> string): (e: BonjourEvent)
    ensures e.eventType == t
    ensures Identity(e.service) == ServiceId(info.serviceName, info.serviceType)
    ensures e.service.host == info.host && e.service.port == info.port
    ensures e.service == ToBonjourService(info, sdk, utf8)
  {
    BonjourEvent(t, ToBonjourService(info, sdk, utf8))
  }

  /**
   * Name, type and port survive the trip service -> platform record ->
   * service; host and TXT records do not, since toNsdServiceInfo copies neither.
   */
  lemma ServiceRoundTrip(s: BonjourService, sdk: int, utf8: seq<bv8> -> string)
    ensures var back := ToBonjourService(ToNsdServiceInfo(s), sdk, utf8);
            Identity(back) == Identity(s) && back.port == s.port &&
            back.host == None && back.txtRecords == map[]
  {
  }

  /**
   * The other direction: converting a record and back restores exactly its
   * name, type and port, and clears its host and attributes.
   */
  lemma RecordRoundTrip(info: NsdServiceInfo, sdk: int, utf8: seq<bv8> -> string)
    ensures ToNsdServiceInfo(ToBonjourService(info, sdk, utf8)) ==
            info.(host := None, attributes := map[])
  {
  }
}
