/** The MQTT-SN client's list of known gateways. In this revision the
    address search is commented out, so `contains` never finds anything and
    `add` always appends. */
module MqttsnGateway {
  import opened CTypes

  /** An IPv6 address: its sixteen octets. */
  type Ipv6Address = a: seq<byte> | |a| == 16 witness seq(16, _ => 0)

  /** One list entry: the gateway id, a copy of its address and the
      duration. */
  datatype GatewayEntry = GatewayEntry(gatewayId: byte, address: Ipv6Address, duration: uint16)

  class GatewayList {
    /** The static list `gateways`, in insertion order. */
    var gateways: seq<GatewayEntry>

    /** The static list starts NULL (empty). */
    constructor ()
      ensures gateways == []
    {
      gateways := [];
    }

    /** `mqttsn_gateway_init`: does nothing. */
    method Init()
      ensures gateways == old(gateways)
    {
    }

    /** `mqttsn_gateway_contains`: the search is disabled, so no address is
        ever found. */
    function Contains(address: Ipv6Address): (r: bool)
      reads this
      ensures !r
    {
      false
    }

    /** `mqttsn_gateway_add`: since `contains` never finds an address, the
        entry is always appended, even for an address already listed. */
    method Add(gatewayId: byte, address: Ipv6Address, duration: uint16) returns (added: bool)
      modifies this
      ensures added
      ensures gateways == old(gateways) + [GatewayEntry(gatewayId, address, duration)]
    {
      if Contains(address) {
        return false;
      }
      gateways := gateways + [GatewayEntry(gatewayId, address, duration)];
      added := true;
    }

    /** `mqttsn_gateway_get_most_recent_entry`: always NULL. */
    function MostRecentEntry(): (r: Option<GatewayEntry>)
      reads this
      ensures r.None?
    {
      None
    }

    /** `mqttsn_gateway_size`: `LL_COUNT` into a `uint8_t`, so the length of
        the list modulo 256. The list is read, not changed. */
    method Size() returns (size: byte)
      ensures size == |gateways| % 0x100
    {
      size := 0;
      var i := 0;
      while i < |gateways|
        invariant 0 <= i <= |gateways|
        invariant size == i % 0x100
      {
        size := ToByte(size + 1);
        i := i + 1;
      }
    }

    /** `mqttsn_gateway_clear`: deletes the entries one by one. */
    method Clear()
      modifies this
      ensures gateways == []
    {
      while gateways != []
        decreases |gateways|
      {
        gateways := gateways[1..];
      }
    }
  }

  /** The gateway unit tests: an empty list has size 0; one `add` succeeds
      and gives size 1; `clear` brings it back to 0. Adding the same
      address a second time succeeds too and gives size 2. */
  method GatewayScenario(address: Ipv6Address) returns (sizes: seq<byte>, first: bool, second: bool)
    ensures first && second
    ensures sizes == [0, 1, 2, 0]
  {
    var list := new GatewayList();
    var size := list.Size();
    sizes := [size];
    first := list.Add(23, address, 42);
    size := list.Size();
    sizes := sizes + [size];
    second := list.Add(23, address, 42);
    size := list.Size();
    sizes := sizes + [size];
    list.Clear();
    size := list.Size();
    sizes := sizes + [size];
  }
}
