/** ARA's packet trap: a hash table from destination addresses to lists of
    trapped packets. In this revision only `count` does anything; `init`,
    `trap_packet` and `contains` are stubs, so the trap stays empty. */
module AraPacketTrap {
  import opened CTypes
  import opened AraRoutingTable

  /** A trapped packet; its contents play no part in any operation. */
  datatype TrappedPacket = TrappedPacket(data: seq<byte>)

  class PacketTrap {
    /** The static hash table: for each destination that has an entry, its
        packet list, which may be NULL. */
    var entries: map<Address, Option<seq<TrappedPacket>>>

    /** Static storage starts as the NULL (empty) table. */
    constructor ()
      ensures entries == map[]
    {
      entries := map[];
    }

    /** `ara_packet_trap_init`: does nothing. */
    method Init()
      ensures entries == old(entries)
    {
    }

    /** `ara_packet_trap_trap_packet`: does nothing. */
    method TrapPacket()
      ensures entries == old(entries)
    {
    }

    /** `ara_packet_trap_contains`: always false. */
    function Contains(): (r: bool)
      ensures !r
    {
      false
    }

    /** `ara_packet_trap_count`: 255 (the `uint8_t` value -1) when the
        destination has no entry or a NULL packet list; otherwise the number
        of packets in the list, counted from 0 in a `uint8_t`. The trap is
        read, not changed. */
    method Count(destination: Address) returns (result: byte)
      ensures destination !in entries ==> result == 0xFF
      ensures destination in entries && entries[destination].None? ==> result == 0xFF
      ensures destination in entries && entries[destination].Some? ==>
                result == |entries[destination].value| % 0x100
    {
      result := ToByte(-1);
      if destination in entries {
        var packets := entries[destination];
        if packets.Some? {
          var list := packets.value;
          result := 0;
          var i := 0;
          while i < |list|
            invariant 0 <= i <= |list|
            invariant result == i % 0x100
          {
            result := ToByte(result + 1);
            i := i + 1;
          }
        }
      }
    }
  }

  /** Since none of the operations stores anything, a trap used through its
      interface never contains a packet and counts 255 for every
      destination. */
  method EmptyTrapScenario(destination: Address) returns (contained: bool, count: byte)
    ensures !contained && count == 0xFF
  {
    var trap := new PacketTrap();
    trap.Init();
    trap.TrapPacket();
    contained := trap.Contains();
    count := trap.Count(destination);
  }
}
