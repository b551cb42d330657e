/** The device identity of the MQTT-SN client: the wireless node id used
    in forwarder encapsulation, a static 252-octet buffer and its length.
    The random number `create` draws, and the clock that seeds the
    generator, are a parameter of the model. */
module MqttsnDevice {
  import opened CTypes

  /** `MQTTSN_MAX_WIRELESS_NODE_ID_LENGTH`. */
  const MaxWirelessNodeIdLength: nat := 252

  /** The four octets a `uint32_t` occupies in little-endian host memory. */
  function LittleEndian32(v: uint32): (r: seq<byte>)
    ensures |r| == 4
  {
    [v % 0x100, (v / 0x100) % 0x100, (v / 0x1_0000) % 0x100, v / 0x100_0000]
  }

  /** The `uint32_t` four little-endian octets hold. */
  function FromLittleEndian32(b: seq<byte>): (v: uint32)
    requires |b| == 4
  {
    b[0] as int + 0x100 * b[1] as int + 0x1_0000 * b[2] as int + 0x100_0000 * b[3] as int
  }

  /** The id `create` writes reads back as the random number it drew. */
  lemma LittleEndian32RoundTrip(v: uint32)
    ensures FromLittleEndian32(LittleEndian32(v)) == v
  {
    var q1 := v / 0x100;
    var q2 := q1 / 0x100;
    var q3 := q2 / 0x100;
    assert v == v % 0x100 + 0x100 * q1;
    assert q1 == q1 % 0x100 + 0x100 * q2;
    assert q2 == q2 % 0x100 + 0x100 * q3;
    assert q2 == v / 0x1_0000;
    assert q3 == v / 0x100_0000;
  }

  /** `mqttsn_device_validate`: -1 (255) exactly for a length above 252 and
      0 otherwise, even for a NULL id or a zero length. */
  function Validate(nodeId: Option<seq<byte>>, nodeLength: byte): (r: byte)
    ensures r == 0xFF <==> nodeLength > MaxWirelessNodeIdLength
    ensures r == 0 <==> nodeLength <= MaxWirelessNodeIdLength
  {
    if nodeLength > MaxWirelessNodeIdLength then ToByte(-1) else 0
  }

  class Device {
    /** `wireless_node_id`. */
    const nodeId: array<byte>
    /** `wireless_node_length`. */
    var nodeLength: byte

    /** What every operation keeps: a 252-octet buffer and a length that
        fits it. */
    ghost predicate Valid()
      reads this
    {
      nodeId.Length == MaxWirelessNodeIdLength && nodeLength <= MaxWirelessNodeIdLength
    }

    /** Static storage starts zeroed. */
    constructor ()
      ensures Valid() && fresh(nodeId) && nodeLength == 0
      ensures forall i :: 0 <= i < MaxWirelessNodeIdLength ==> nodeId[i] == 0
    {
      nodeId := new byte[MaxWirelessNodeIdLength](_ => 0);
      nodeLength := 0;
    }

    /** `mqttsn_device_create`: zeroes all 252 octets, stores the drawn
        random number in host order in the first four and sets the length
        to 4. */
    method Create(randomId: uint32)
      requires Valid()
      modifies this, nodeId
      ensures Valid() && nodeLength == 4
      ensures nodeId[..] == LittleEndian32(randomId) + seq(MaxWirelessNodeIdLength - 4, _ => 0)
    {
      var i := 0;
      while i < MaxWirelessNodeIdLength
        invariant 0 <= i <= MaxWirelessNodeIdLength
        invariant forall k :: 0 <= k < i ==> nodeId[k] == 0
      {
        nodeId[i] := 0;
        i := i + 1;
      }
      var octets := LittleEndian32(randomId);
      i := 0;
      while i < 4
        invariant 0 <= i <= 4
        invariant forall k :: 0 <= k < i ==> nodeId[k] == octets[k]
        invariant forall k :: 4 <= k < MaxWirelessNodeIdLength ==> nodeId[k] == 0
      {
        nodeId[i] := octets[i];
        i := i + 1;
      }
      nodeLength := 4;
      assert nodeId[..] == octets + seq(MaxWirelessNodeIdLength - 4, _ => 0);
    }

    /** `mqttsn_device_init`: an id that passes validation has its first
        `nodeLength` octets copied and its length stored, the other octets
        left as they were; otherwise a random id is created. A NULL id is
        only acceptable with length 0, where nothing is copied. */
    method Init(node: Option<seq<byte>>, length: byte, randomId: uint32)
      requires Valid()
      requires 0 < length <= MaxWirelessNodeIdLength ==> node.Some? && length <= |node.value|
      modifies this, nodeId
      ensures Valid()
      ensures length <= MaxWirelessNodeIdLength ==>
                nodeLength == length &&
                (forall i :: 0 <= i < length ==> nodeId[i] == node.value[i]) &&
                nodeId[length..] == old(nodeId[length..])
      ensures length > MaxWirelessNodeIdLength ==>
                nodeLength == 4 && nodeId[..] == LittleEndian32(randomId) + seq(MaxWirelessNodeIdLength - 4, _ => 0)
    {
      if Validate(node, length) == 0 {
        var i := 0;
        while i < length
          invariant 0 <= i <= length
          invariant forall k :: 0 <= k < i ==> nodeId[k] == node.value[k]
          invariant forall k :: i <= k < MaxWirelessNodeIdLength ==> nodeId[k] == old(nodeId[k])
        {
          nodeId[i] := node.value[i];
          i := i + 1;
        }
        nodeLength := length;
      } else {
        Create(randomId);
      }
    }

    /** `mqttsn_device_get_node_length`: the stored length, never above
        252. */
    function NodeLength(): (r: byte)
      reads this
      ensures Valid() ==> r <= MaxWirelessNodeIdLength
      ensures r == nodeLength
    {
      nodeLength
    }

    /** The getter for the id buffer: the buffer itself, not a copy. */
    function Node(): (r: array<byte>)
      reads this
      ensures r == nodeId
    {
      nodeId
    }
  }

  /** An id too long to validate is replaced by a four-octet random one
      that reads back as the drawn number; a valid id is kept. */
  method DeviceScenario(randomId: uint32) returns (fallbackLength: byte, storedId: uint32, keptLength: byte)
    ensures fallbackLength == 4 && storedId == randomId
    ensures keptLength == 2
  {
    var device := new Device();
    device.Init(None, 253, randomId);
    fallbackLength := device.NodeLength();
    LittleEndian32RoundTrip(randomId);
    storedId := FromLittleEndian32(device.nodeId[..4]);
    device.Init(Some([0xAB, 0xCD]), 2, randomId);
    keptLength := device.NodeLength();
  }
}
