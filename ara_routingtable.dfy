/** ARA's routing table: the fixed array of routing-table slots that
    routingtable.c keeps and zeroes, its two lookup stubs, and the
    destination-keyed add/delete/size/deliverability operations that the
    unit tests exercise. */
module AraRoutingTable {
  import opened CTypes

  /** `ARA_MAX_ROUTING_ENTRIES`. */
  const MaxRoutingEntries: nat := 256

  /** Length in octets of an IPv6 address. */
  const AddressLength: nat := 16

  /** A network address, compared octet by octet. */
  type Address = seq<byte>

  /** A potential next hop towards a destination with its pheromone value
      `phi`. `credit` and `ttl` are carried but read by no decision. */
  datatype NextHop = NextHop(address: Address, phi: real, credit: real, ttl: byte)

  /** A routing-table entry: a destination and its list of next hops, in
      list order. */
  datatype RoutingEntry = RoutingEntry(destination: Address, lastAccessTime: nat, nextHops: seq<NextHop>)
  {
    /** The entry's `size` field: its number of next hops. */
    function Size(): nat
    {
      |nextHops|
    }
  }

  /** The all-zero address `memset` leaves in a slot. */
  const ZeroAddress: Address := seq(AddressLength, _ => 0)

  /** The all-zero slot `memset` leaves behind: no next hops. */
  const ZeroEntry: RoutingEntry := RoutingEntry(ZeroAddress, 0, [])

  // ---------------------------------------------------------------------
  // Next-hop comparison and next-hop lists.

  /** `next_hop_compare`: octet-wise comparison of two next-hop addresses,
      -1 when the first is smaller, 0 when equal, 1 when larger. */
  function CompareAddresses(a: Address, b: Address): (r: int)
    ensures -1 <= r <= 1
    ensures r == 0 <==> a == b
  {
    if a == [] && b == [] then 0
    else if a == [] then -1
    else if b == [] then 1
    else if a[0] < b[0] then -1
    else if a[0] > b[0] then 1
    else
      var r := CompareAddresses(a[1..], b[1..]);
      assert r == 0 ==> a == [a[0]] + a[1..] && b == [b[0]] + b[1..];
      r
  }

  /** Two equally long addresses compare as -1 when they agree up to the
      first octet where the first address is smaller. */
  lemma {:induction false} CompareAtFirstDifference(a: Address, b: Address, k: nat)
    requires |a| == |b| && k < |a|
    requires a[..k] == b[..k] && a[k] < b[k]
    ensures CompareAddresses(a, b) == -1
    decreases k
  {
    if k > 0 {
      assert a[0] == a[..k][0] && b[0] == b[..k][0];
      assert a[1..][..k - 1] == a[..k][1..];
      assert b[1..][..k - 1] == b[..k][1..];
      CompareAtFirstDifference(a[1..], b[1..], k - 1);
    }
  }

  /** Swapping the arguments negates the comparison. */
  lemma {:induction false} CompareAntisymmetric(a: Address, b: Address)
    ensures CompareAddresses(b, a) == -CompareAddresses(a, b)
    decreases |a|
  {
    if a != [] && b != [] && a[0] == b[0] {
      CompareAntisymmetric(a[1..], b[1..]);
    }
  }

  /** Whether some next hop of the list has the given address. */
  predicate HasNextHop(hops: seq<NextHop>, address: Address)
  {
    exists i :: 0 <= i < |hops| && hops[i].address == address
  }

  /** No two next hops of the list share an address. */
  predicate UniqueAddresses(hops: seq<NextHop>)
  {
    forall i, j :: 0 <= i < j < |hops| ==> hops[i].address != hops[j].address
  }

  /** `add_next_hop`: a next hop whose address the entry already has is
      rejected; any other is appended, growing `size` by one. */
  function AddNextHop(entry: RoutingEntry, hop: NextHop): (r: RoutingEntry)
    ensures r.destination == entry.destination
    ensures HasNextHop(entry.nextHops, hop.address) ==> r == entry
    ensures !HasNextHop(entry.nextHops, hop.address) ==>
              r.nextHops == entry.nextHops + [hop] && r.Size() == entry.Size() + 1
  {
    if HasNextHop(entry.nextHops, hop.address) then entry
    else entry.(nextHops := entry.nextHops + [hop])
  }

  /** `del_next_hops`: removes every next hop, resetting `size` to 0. */
  function DelNextHops(entry: RoutingEntry): (r: RoutingEntry)
    ensures r.destination == entry.destination && r.Size() == 0
  {
    entry.(nextHops := [])
  }

  /** Adding next hops never creates two hops with the same address. */
  lemma AddNextHopKeepsAddressesUnique(entry: RoutingEntry, hop: NextHop)
    requires UniqueAddresses(entry.nextHops)
    ensures UniqueAddresses(AddNextHop(entry, hop).nextHops)
  {
    var r := AddNextHop(entry, hop);
    if !HasNextHop(entry.nextHops, hop.address) {
      forall i, j | 0 <= i < j < |r.nextHops|
        ensures r.nextHops[i].address != r.nextHops[j].address
      {
        if j == |entry.nextHops| {
          assert r.nextHops[i] == entry.nextHops[i];
        }
      }
    }
  }

  /** The same next hop added twice leaves one copy of it. */
  lemma AddNextHopTwice(entry: RoutingEntry, hop: NextHop)
    requires entry.Size() == 0
    ensures AddNextHop(AddNextHop(entry, hop), hop).Size() == 1
  {
    var once := AddNextHop(entry, hop);
    assert once.nextHops[0] == hop;
  }

  // ---------------------------------------------------------------------
  // The table.

  class RoutingTable {
    /** The static `routing_table` array of routingtable.c. */
    var slots: array<RoutingEntry>
    /** The entries added through the test-defined operations, by destination. */
    var entries: map<Address, RoutingEntry>

    ghost predicate Valid()
      reads this
    {
      slots.Length == MaxRoutingEntries
    }

    /** Static storage starts zeroed, holding no entries. */
    constructor ()
      ensures Valid() && fresh(slots) && entries == map[]
      ensures forall i :: 0 <= i < slots.Length ==> slots[i] == ZeroEntry
    {
      slots := new RoutingEntry[MaxRoutingEntries](_ => ZeroEntry);
      entries := map[];
    }

    /** `routingtable_init`: every slot is zeroed. */
    method Init()
      requires Valid()
      modifies slots
      ensures forall i :: 0 <= i < slots.Length ==> slots[i] == ZeroEntry
    {
      forall i | 0 <= i < slots.Length {
        slots[i] := ZeroEntry;
      }
    }

    /** `routingtable_get_entry`: in this revision, no destination has one. */
    function SlotEntry(destination: Address): (r: Option<RoutingEntry>)
      ensures r == None
    {
      None
    }

    /** `routingtable_get_next_hop`: looks up the entry and, found or not,
        returns no next hop. */
    function SlotNextHop(destination: Address): (r: Option<Address>)
      ensures r == None
    {
      match SlotEntry(destination)
      case None => None
      case Some(_) => None
    }

    /** `size`: the number of destinations. */
    function Size(): (r: nat)
      reads this
      ensures r == 0 <==> entries == map[]
    {
      |entries|
    }

    /** `entry_exists`: a destination with an entry makes the table
        non-empty. */
    predicate EntryExists(destination: Address)
      reads this
      ensures EntryExists(destination) ==> Size() > 0
    {
      destination in entries
    }

    /** `get_entry`: absent exactly when no entry exists. */
    function GetEntry(destination: Address): (r: Option<RoutingEntry>)
      reads this
      ensures r.Some? <==> EntryExists(destination)
      ensures r.Some? ==> r.value == entries[destination]
      ensures r.Some? && Keyed() ==> r.value.destination == destination
    {
      if destination in entries then Some(entries[destination]) else None
    }

    /** Every stored entry sits under its own destination. */
    ghost predicate Keyed()
      reads this
    {
      forall d :: d in entries ==> entries[d].destination == d
    }

    /** `is_deliverable`: an entry exists and has at least one next hop. */
    predicate IsDeliverable(destination: Address)
      reads this
      ensures IsDeliverable(destination) ==> EntryExists(destination)
      ensures IsDeliverable(destination) <==>
                destination in entries && entries[destination].Size() > 0
    {
      match GetEntry(destination)
      case None => false
      case Some(e) => e.Size() > 0
    }

    /** `add_entry`: stores a copy of the entry unless its destination is
        already present; never overwrites. */
    method AddEntry(entry: RoutingEntry)
      modifies this
      ensures slots == old(slots)
      ensures entries == if entry.destination in old(entries) then old(entries)
                         else old(entries)[entry.destination := entry]
      ensures old(Keyed()) ==> Keyed()
    {
      if entry.destination !in entries {
        entries := entries[entry.destination := entry];
      }
    }

    /** `del_entry`: removes the entry for the given entry's destination. */
    method DelEntry(entry: RoutingEntry)
      modifies this
      ensures slots == old(slots)
      ensures entries == old(entries) - {entry.destination}
      ensures old(Keyed()) ==> Keyed()
    {
      entries := entries - {entry.destination};
    }

    /** `clear`: removes every entry. */
    method Clear()
      modifies this
      ensures slots == old(slots)
      ensures entries == map[] && Keyed()
    {
      entries := map[];
    }
  }

  /** The add/delete unit test for two distinct destinations: sizes 1, 2,
      then 1 after deleting the second, whose entry then no longer exists. */
  method AddDeleteScenario(address: Address, anotherAddress: Address)
    returns (sizes: seq<nat>, firstExists: bool, secondExists: bool, secondExistsAfterDelete: bool)
    requires address != anotherAddress
    ensures sizes == [1, 2, 1]
    ensures firstExists && secondExists && !secondExistsAfterDelete
  {
    var table := new RoutingTable();
    var entry := RoutingEntry(address, 0, []);
    table.AddEntry(entry);
    sizes := [table.Size()];
    firstExists := table.EntryExists(address);
    entry := entry.(destination := anotherAddress);
    table.AddEntry(entry);
    assert table.entries.Keys == {address, anotherAddress};
    sizes := sizes + [table.Size()];
    secondExists := table.EntryExists(anotherAddress);
    table.DelEntry(entry);
    assert table.entries.Keys == {address};
    sizes := sizes + [table.Size()];
    secondExistsAfterDelete := table.EntryExists(anotherAddress);
  }

  /** The get-entry unit test: absent before `add_entry`, present after it,
      and the table is empty again after `del_entry`. */
  method GetEntryScenario(address: Address)
    returns (before: Option<RoutingEntry>, after: Option<RoutingEntry>, sizeAfterDelete: nat)
    ensures before == None && after == Some(RoutingEntry(address, 0, []))
    ensures sizeAfterDelete == 0
  {
    var table := new RoutingTable();
    var entry := RoutingEntry(address, 0, []);
    before := table.GetEntry(address);
    table.AddEntry(entry);
    after := table.GetEntry(address);
    table.DelEntry(entry);
    assert table.entries == map[];
    sizeAfterDelete := table.Size();
  }

  /** The deliverability unit test: not deliverable without an entry, and
      not deliverable for an entry without next hops. */
  method DeliverabilityScenario(address: Address)
    returns (withoutEntry: bool, withoutNextHops: bool)
    ensures !withoutEntry && !withoutNextHops
  {
    var table := new RoutingTable();
    withoutEntry := table.IsDeliverable(address);
    table.AddEntry(RoutingEntry(address, 0, []));
    withoutNextHops := table.IsDeliverable(address);
  }

  /** The next-hop unit tests: one hop added to an empty entry gives size 1,
      and `del_next_hops` brings it back to 0. */
  lemma NextHopScenario(entry: RoutingEntry, hop: NextHop)
    requires entry.Size() == 0
    ensures AddNextHop(entry, hop).Size() == 1
    ensures DelNextHops(AddNextHop(entry, hop)).Size() == 0
  {
  }

  /** The comparison unit test's two addresses compare as -1, and each
      equals itself. */
  lemma CompareScenario()
    ensures CompareAddresses(TestAddressA(), TestAddressA()) == 0
    ensures CompareAddresses(TestAddressB(), TestAddressB()) == 0
    ensures CompareAddresses(TestAddressA(), TestAddressB()) == -1
  {
    CompareAtFirstDifference(TestAddressA(), TestAddressB(), 0);
  }

  function TestAddressA(): Address
  {
    [0x00, 0x01, 0x02, 0x03, 0x04, 0x05, 0x06, 0x07, 0x08, 0x09, 0x0a, 0x0b, 0x0c, 0x0d, 0x0e, 0x0f]
  }

  function TestAddressB(): Address
  {
    [0x08, 0x09, 0x0a, 0x0b, 0x0c, 0x0d, 0x0e, 0x0f, 0x00, 0x01, 0x02, 0x03, 0x04, 0x05, 0x06, 0x07]
  }
}
