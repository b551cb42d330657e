/** ARA's packet types and packet construction. A built packet is an IPv6
    header snip over a payload snip; the two buffer allocations it needs
    are parameters saying whether each succeeds. */
module AraPacket {
  import opened CTypes
  import opened AraRoutingTable

  /** The `ara_packet_type` enumeration. */
  const Data: byte := 0
  const Fant: byte := 1
  const Bant: byte := 2
  const RouteFailure: byte := 3

  /** `ara_packet_is_ant_packet`: forward and backward ants are ant packets. */
  predicate IsAntPacket(kind: byte): (r: bool)
    ensures r ==> kind != Data && kind != RouteFailure && kind <= RouteFailure
    ensures !r ==> kind == Data || kind == RouteFailure || kind > RouteFailure
    ensures kind > RouteFailure ==> !r
  {
    kind == Fant || kind == Bant
  }

  /** `ara_packet_get_type_as_string`: the name of each packet type, and
      "UNKNOWN" for any other value. */
  function TypeAsString(kind: byte): (s: string)
    ensures kind == Data ==> s == "DATA"
    ensures kind == Fant ==> s == "FANT"
    ensures kind == Bant ==> s == "BANT"
    ensures kind == RouteFailure ==> s == "ROUTE FAILURE"
    ensures kind > RouteFailure ==> s == "UNKNOWN"
  {
    match kind
    case 0 => "DATA"
    case 1 => "FANT"
    case 2 => "BANT"
    case 3 => "ROUTE FAILURE"
    case _ => "UNKNOWN"
  }

  /** The four packet types have four different names, none "UNKNOWN". */
  lemma TypeNamesDistinct(a: byte, b: byte)
    requires a <= RouteFailure && b <= RouteFailure && a != b
    ensures TypeAsString(a) != TypeAsString(b)
    ensures TypeAsString(a) != "UNKNOWN"
  {
  }

  /** An ant packet's type name is "FANT" or "BANT", and a value is an ant
      packet exactly when its name is one of those two. */
  lemma AntPacketNames(kind: byte)
    ensures IsAntPacket(kind) <==> TypeAsString(kind) == "FANT" || TypeAsString(kind) == "BANT"
  {
  }

  /** The network type a packet snip is tagged with. */
  datatype NetType = NetTypeUndef | NetTypeIpv6 | NetTypeOther

  /** A packet snip: its type, the source and destination of its IPv6
      header (meaningful for `NetTypeIpv6` only) and the payload below it. */
  datatype Packet = Packet(netType: NetType, source: Address, destination: Address, payload: seq<byte>)

  /** The result of building a packet: the packet or NULL, and whether an
      allocated payload buffer was released again. */
  datatype Outcome = Outcome(packet: Option<Packet>, payloadReleased: bool)

  /** `ara_packet_make_packet`: allocates a payload holding the first
      `dataSize` data bytes, then builds an IPv6 header from `source` to
      `destination` over it. NULL when the payload cannot be allocated;
      NULL, with the payload released, when the header cannot be. The
      sender, type and previous-hop arguments are not used. */
  function MakePacket(source: Address, destination: Address, sender: Address, kind: byte,
                      data: seq<byte>, dataSize: byte, previousHop: Address,
                      payloadAllocated: bool, headerAllocated: bool): (r: Outcome)
    requires dataSize <= |data|
    ensures r.packet.Some? <==> payloadAllocated && headerAllocated
    ensures r.payloadReleased <==> payloadAllocated && !headerAllocated
    ensures r.packet.Some? ==> r.packet.value.netType == NetTypeIpv6
    ensures r.packet.Some? ==> r.packet.value.source == source && r.packet.value.destination == destination
    ensures r.packet.Some? ==> r.packet.value.payload == data[..dataSize]
  {
    if !payloadAllocated then Outcome(None, false)
    else
      var payload := data[..dataSize];
      if !headerAllocated then Outcome(None, true)
      else Outcome(Some(Packet(NetTypeIpv6, source, destination, payload)), false)
  }

  /** `ara_packet_make_fant`: an empty forward ant from `source` to
      `destination`. */
  function MakeFant(source: Address, destination: Address, payloadAllocated: bool, headerAllocated: bool): (r: Outcome)
    ensures r.packet.Some? <==> payloadAllocated && headerAllocated
    ensures r.packet.Some? ==> r.packet.value == Packet(NetTypeIpv6, source, destination, [])
  {
    MakePacket(source, destination, source, Fant, [], 0, [], payloadAllocated, headerAllocated)
  }

  /** `ara_packet_make_route_failure`: an empty route-failure packet from
      `source` to `destination`. */
  function MakeRouteFailure(source: Address, destination: Address, payloadAllocated: bool, headerAllocated: bool): (r: Outcome)
    ensures r.packet.Some? <==> payloadAllocated && headerAllocated
    ensures r.packet.Some? ==> r.packet.value == Packet(NetTypeIpv6, source, destination, [])
  {
    MakePacket(source, destination, source, RouteFailure, [], 0, [], payloadAllocated, headerAllocated)
  }

  /** `ara_packet_make_bant`: NULL for a packet that is not IPv6; otherwise
      an empty backward ant from the packet's destination back to its
      source. */
  function MakeBant(packet: Packet, payloadAllocated: bool, headerAllocated: bool): (r: Outcome)
    ensures packet.netType != NetTypeIpv6 ==> r == Outcome(None, false)
    ensures r.packet.Some? <==> packet.netType == NetTypeIpv6 && payloadAllocated && headerAllocated
    ensures r.packet.Some? ==>
              r.packet.value == Packet(NetTypeIpv6, packet.destination, packet.source, [])
  {
    if packet.netType != NetTypeIpv6 then Outcome(None, false)
    else MakePacket(packet.destination, packet.source, packet.destination, Bant, [], 0, [],
                    payloadAllocated, headerAllocated)
  }

  /** Since the type is not used in building, a forward ant and a route
      failure between the same addresses are the same packet. */
  lemma FantAndRouteFailureCoincide(source: Address, destination: Address, payloadAllocated: bool, headerAllocated: bool)
    ensures MakeFant(source, destination, payloadAllocated, headerAllocated) ==
            MakeRouteFailure(source, destination, payloadAllocated, headerAllocated)
  {
  }

  /** A backward ant of a backward ant runs the original direction again. */
  lemma BantOfBantRestoresDirection(packet: Packet)
    requires packet.netType == NetTypeIpv6
    ensures MakeBant(MakeBant(packet, true, true).packet.value, true, true).packet ==
            Some(Packet(NetTypeIpv6, packet.source, packet.destination, []))
  {
  }

  /** A backward ant answering a forward ant runs from the forward ant's
      destination to its source. */
  lemma BantAnswersFant(source: Address, destination: Address)
    ensures MakeBant(MakeFant(source, destination, true, true).packet.value, true, true).packet ==
            Some(Packet(NetTypeIpv6, destination, source, []))
  {
  }

  /** `ara_packet_prepare_payload`: always NULL in this revision. */
  function PreparePayload(kind: byte, payload: seq<byte>, payloadSize: byte): (r: Option<seq<byte>>)
    ensures r == None
  {
    None
  }
}
