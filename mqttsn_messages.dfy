/** The MQTT-SN v1.2 wire format as the client writes it: the constants of
    mqttsn.h, the flags octet, one function per message the client builds
    (the octets of its packed struct and payload), and a decoder that reads
    a message the way a receiver does, with every 16-bit field in network
    order. */
module MqttsnMessages {
  import opened CTypes
  import opened MqttsnTopic

  /** `MQTTSN_MAX_PACKET_LENGTH`. */
  const MaxPacketLength: nat := 255
  /** The longest client identifier CONNECT accepts (section 5.4.4 of
      MQTT-SN v1.2: 1 to 23 characters). */
  const MaxClientIdLength: nat := 23
  /** The longest PUBLISH payload: the packet bound less the seven header
      octets. */
  const MaxPublishDataLength: nat := MaxPacketLength - 7
  /** The ProtocolId field of CONNECT. */
  const ProtocolId: byte := 0x01

  // ---------------------------------------------------------------------
  // `mqttsn_msg_t`: the MsgType field.

  const TypeAdvertise: byte := 0x00
  const TypeSearchGw: byte := 0x01
  const TypeGwInfo: byte := 0x02
  const TypeConnect: byte := 0x04
  const TypeConnack: byte := 0x05
  const TypeWillTopicReq: byte := 0x06
  const TypeWillTopic: byte := 0x07
  const TypeWillMsgReq: byte := 0x08
  const TypeWillMsg: byte := 0x09
  const TypeRegister: byte := 0x0A
  const TypeRegack: byte := 0x0B
  const TypePublish: byte := 0x0C
  const TypePuback: byte := 0x0D
  const TypePubcomp: byte := 0x0E
  const TypePubrec: byte := 0x0F
  const TypePubrel: byte := 0x10
  const TypeSubscribe: byte := 0x12
  const TypeSuback: byte := 0x13
  const TypeUnsubscribe: byte := 0x14
  const TypeUnsuback: byte := 0x15
  const TypePingReq: byte := 0x16
  const TypePingResp: byte := 0x17
  const TypeDisconnect: byte := 0x18
  const TypeWillTopicUpd: byte := 0x1A
  const TypeWillTopicResp: byte := 0x1B
  const TypeWillMsgUpd: byte := 0x1C
  const TypeWillMsgResp: byte := 0x1D
  const TypeEncMsg: byte := 0xFE

  // `mqttsn_return_code`.
  const ReturnCodeAccepted: byte := 0x00
  const ReturnCodeRejectedCongestion: byte := 0x01
  const ReturnCodeRejectedInvalidTopic: byte := 0x02
  const ReturnCodeRejectedNotSupported: byte := 0x03

  // `mqttsn_flag_t`: the bits of the Flags octet.
  const FlagDup: byte := 0x80
  const FlagQos0: byte := 0x00
  const FlagQos1: byte := 0x20
  const FlagQos2: byte := 0x40
  const FlagQosN1: byte := 0x60
  const FlagRetain: byte := 0x10
  const FlagWill: byte := 0x08
  const FlagCleanSession: byte := 0x04

  // `mqttsn_topic_t`, as mqttsn.h writes the values.
  const TopicTypeName: byte := 0x00
  const TopicTypePreDefined: byte := 0x01
  const TopicTypeShort: byte := 0x10
  const TopicTypeReserved: byte := 0x11

  /** The TopicIdType value of a short topic name in bits 1-0 of the Flags
      octet (section 5.3.4 of MQTT-SN v1.2: 0b10). */
  const TopicIdTypeShortName: byte := 0x02

  // ---------------------------------------------------------------------
  // The Flags octet (section 5.3.4 of MQTT-SN v1.2).

  /** `mqttsn_get_qos_flag`: the QoS bits for QoS 0, 1, 2 and -1, and no
      bits for any other value. */
  function QosFlag(qos: int8): (r: byte)
    ensures qos == 0 ==> r == FlagQos0
    ensures qos == 1 ==> r == FlagQos1
    ensures qos == 2 ==> r == FlagQos2
    ensures qos == -1 ==> r == FlagQosN1
    ensures qos < -1 || qos > 2 ==> r == 0
    ensures r % 0x20 == 0 && r <= 0x60
  {
    match qos
    case 0 => FlagQos0
    case 1 => FlagQos1
    case 2 => FlagQos2
    case -1 => FlagQosN1
    case _ => 0
  }

  /** The QoS level bits 6-5 of a Flags octet encode (0b11 is -1). */
  function QosOfFlags(flags: byte): (qos: int8)
    ensures -1 <= qos <= 2
  {
    var bits := (flags / 0x20) % 4;
    if bits == 3 then -1 else bits
  }

  /** Bit 4, the RETAIN flag. */
  predicate RetainOfFlags(flags: byte)
  {
    (flags / 0x10) % 2 == 1
  }

  /** Bits 1-0, the TopicIdType. */
  function TopicIdTypeOfFlags(flags: byte): (t: byte)
    ensures t < 4
  {
    flags % 4
  }

  /** Reading the QoS bits back gives the level that was encoded, for each
      of the four levels the client knows. */
  lemma QosFlagRoundTrip(qos: int8)
    requires -1 <= qos <= 2
    ensures QosOfFlags(QosFlag(qos)) == qos
  {
  }

  /** The PUBLISH Flags octet `qos + retain + (topic_type & 3)` keeps its
      three fields apart: each reads back unchanged, and it does not
      overflow an octet. */
  lemma {:induction false} PublishFlagsFields(qos: int8, retain: bool, topicType: byte)
    requires -1 <= qos <= 2
    ensures QosFlag(qos) + (if retain then FlagRetain else 0) + topicType % 4 < 0x80
    ensures var flags: byte := QosFlag(qos) + (if retain then FlagRetain else 0) + topicType % 4;
            QosOfFlags(flags) == qos && (RetainOfFlags(flags) <==> retain) &&
            TopicIdTypeOfFlags(flags) == topicType % 4
  {
    var q := QosFlag(qos);
    var bits := q / 0x20;
    assert q == bits * 0x20;
    var low := (if retain then FlagRetain else 0) + topicType % 4;
    var flags := q + low;
    assert flags / 0x20 == bits;
    assert flags % 4 == topicType % 4;
    assert flags / 0x10 == 2 * bits + (if retain then 1 else 0);
  }

  // ---------------------------------------------------------------------
  // The messages the client builds. Each function gives the octets the
  // packed struct and its payload occupy; the first octet is the Length
  // field that `mqttsn_send` reads to know how much to send.

  /** The CONNECT packet: Length, MsgType, Flags (CleanSession only),
      ProtocolId, Duration in network order, then the client id. */
  function ConnectPacket(clientId: seq<byte>, cleanSession: bool, duration: uint16): (m: seq<byte>)
    requires |clientId| <= MaxClientIdLength
    ensures |m| == 6 + |clientId| && m[0] == |m| && m[1] == TypeConnect
  {
    [6 + |clientId|, TypeConnect, if cleanSession then FlagCleanSession else 0, ProtocolId]
      + BigEndian16(duration) + clientId
  }

  /** The DISCONNECT packet: the zeroed struct, of which the Length field 2
      lets only the header be sent. */
  function DisconnectPacket(): (m: seq<byte>)
    ensures m == [2, 0x18]
  {
    [2, TypeDisconnect]
  }

  /** The PINGREQ packet. */
  function PingRequestPacket(): (m: seq<byte>)
    ensures m == [2, 0x16]
  {
    [2, TypePingReq]
  }

  /** The REGISTER packet: Length, MsgType, the TopicId as stored, without
      `HTONS`, so in the host's little-endian order, the MsgId in network
      order, then the topic name. */
  function RegisterPacket(topicId: uint16, msgId: uint16, topicName: seq<byte>): (m: seq<byte>)
    requires |topicName| <= MaxTopicLength
    ensures |m| == 6 + |topicName| && m[0] == |m| && m[1] == TypeRegister
  {
    [6 + |topicName|, TypeRegister] + HostOrder16(topicId) + BigEndian16(msgId) + topicName
  }

  /** The REGACK packet: Length 7, MsgType, TopicId and MsgId in network
      order, ReturnCode "accepted". */
  function RegackPacket(topicId: uint16, msgId: uint16): (m: seq<byte>)
    ensures |m| == 7 && m[0] == |m| && m[1] == TypeRegack && m[6] == ReturnCodeAccepted
  {
    [7, TypeRegack] + BigEndian16(topicId) + BigEndian16(msgId) + [ReturnCodeAccepted]
  }

  /** The SUBSCRIBE packet for a pre-defined topic id: Flags with the QoS
      bits and TopicIdType 1, the MsgId, then the TopicId, both in network
      order. */
  function SubscribeTopicIdPacket(topicId: uint16, qos: int8, msgId: uint16): (m: seq<byte>)
    ensures |m| == 7 && m[0] == |m| && m[1] == TypeSubscribe
    ensures QosOfFlags(m[2]) == QosOfFlags(QosFlag(qos)) && TopicIdTypeOfFlags(m[2]) == TopicTypePreDefined
  {
    [7, TypeSubscribe, QosFlag(qos) + TopicTypePreDefined] + BigEndian16(msgId) + BigEndian16(topicId)
  }

  /** The SUBSCRIBE packet for a topic name as mqttsn.c writes it: a
      two-character name adds `MQTTSN_TOPIC_TYPE_SHORT`, 0x10, to the
      Flags, any other name adds 0. */
  function SubscribeTopicNamePacketAsWritten(topicName: seq<byte>, qos: int8, msgId: uint16): (m: seq<byte>)
    requires |topicName| <= MaxTopicLength
    ensures |m| == 5 + |topicName| && m[0] == |m| && m[1] == TypeSubscribe
  {
    [5 + |topicName|, TypeSubscribe, QosFlag(qos) + (if |topicName| == 2 then TopicTypeShort else TopicTypeName)]
      + BigEndian16(msgId) + topicName
  }

  /** The SUBSCRIBE packet for a topic name with a two-character name
      marked by TopicIdType 0b10, as section 5.3.4 of MQTT-SN v1.2 defines
      it. */
  function SubscribeTopicNamePacket(topicName: seq<byte>, qos: int8, msgId: uint16): (m: seq<byte>)
    requires |topicName| <= MaxTopicLength
    ensures |m| == 5 + |topicName| && m[0] == |m| && m[1] == TypeSubscribe
  {
    [5 + |topicName|, TypeSubscribe, QosFlag(qos) + (if |topicName| == 2 then TopicIdTypeShortName else TopicTypeName)]
      + BigEndian16(msgId) + topicName
  }

  /** The PUBLISH packet: Flags with the QoS bits, RETAIN when `retain` is
      non-zero and the low two bits of the topic type, then the TopicId and
      the MsgId in network order, then the data. */
  function PublishPacket(topicId: uint16, topicType: byte, data: seq<byte>, qos: int8, retain: byte, msgId: uint16): (m: seq<byte>)
    requires |data| <= MaxPublishDataLength
    ensures |m| == 7 + |data| && m[0] == |m| && m[1] == TypePublish
  {
    var flags := QosFlag(qos) + (if retain != 0 then FlagRetain else 0) + topicType % 4;
    [7 + |data|, TypePublish, flags] + BigEndian16(topicId) + BigEndian16(msgId) + data
  }

  // ---------------------------------------------------------------------
  // Reading messages back.

  /** A message as its fields. */
  datatype Message =
    | Connect(flags: byte, protocolId: byte, duration: uint16, clientId: seq<byte>)
    | Disconnect
    | PingRequest
    | Register(topicId: uint16, msgId: uint16, topicName: seq<byte>)
    | Regack(topicId: uint16, msgId: uint16, returnCode: byte)
    | SubscribeTopicId(flags: byte, msgId: uint16, topicId: uint16)
    | SubscribeTopicName(flags: byte, msgId: uint16, topicName: seq<byte>)
    | Publish(flags: byte, topicId: uint16, msgId: uint16, data: seq<byte>)

  /** Reads a message whose one-octet Length field matches its size,
      following the layouts of section 5.4 of MQTT-SN v1.2; SUBSCRIBE is
      read by topic id when its TopicIdType is 1 and by name otherwise.
      NULL for a wrong length or a type the client does not build. */
  function Decode(m: seq<byte>): (r: Option<Message>)
    ensures r.Some? ==> 2 <= |m| && m[0] == |m|
  {
    if |m| < 2 || m[0] != |m| then None
    else if m[1] == TypeConnect then
      if |m| >= 6 then Some(Connect(m[2], m[3], FromBigEndian16(m[4], m[5]), m[6..])) else None
    else if m[1] == TypeDisconnect then
      if |m| == 2 then Some(Disconnect) else None
    else if m[1] == TypePingReq then
      if |m| == 2 then Some(PingRequest) else None
    else if m[1] == TypeRegister then
      if |m| >= 6 then Some(Register(FromBigEndian16(m[2], m[3]), FromBigEndian16(m[4], m[5]), m[6..])) else None
    else if m[1] == TypeRegack then
      if |m| == 7 then Some(Regack(FromBigEndian16(m[2], m[3]), FromBigEndian16(m[4], m[5]), m[6])) else None
    else if m[1] == TypeSubscribe then
      if |m| < 5 then None
      else if TopicIdTypeOfFlags(m[2]) == TopicTypePreDefined then
        if |m| == 7 then Some(SubscribeTopicId(m[2], FromBigEndian16(m[3], m[4]), FromBigEndian16(m[5], m[6]))) else None
      else Some(SubscribeTopicName(m[2], FromBigEndian16(m[3], m[4]), m[5..]))
    else if m[1] == TypePublish then
      if |m| >= 7 then Some(Publish(m[2], FromBigEndian16(m[3], m[4]), FromBigEndian16(m[5], m[6]), m[7..])) else None
    else None
  }

  /** A CONNECT reads back with its flags, protocol id 1, duration and
      client id. */
  lemma ConnectRoundTrip(clientId: seq<byte>, cleanSession: bool, duration: uint16)
    requires |clientId| <= MaxClientIdLength
    ensures Decode(ConnectPacket(clientId, cleanSession, duration)) ==
            Some(Connect(if cleanSession then FlagCleanSession else 0, ProtocolId, duration, clientId))
  {
    var m := ConnectPacket(clientId, cleanSession, duration);
    assert m[6..] == clientId;
    BigEndianRoundTrip(duration);
  }

  lemma DisconnectRoundTrip()
    ensures Decode(DisconnectPacket()) == Some(Disconnect)
  {
  }

  lemma PingRequestRoundTrip()
    ensures Decode(PingRequestPacket()) == Some(PingRequest)
  {
  }

  /** A REGISTER reads back with its msg id and name, but with the topic
      id's two octets exchanged, since the client stores it in host order;
      the id survives exactly when both its octets are equal, as 0x0000,
      the id clients send, does. */
  lemma RegisterRoundTrip(topicId: uint16, msgId: uint16, topicName: seq<byte>)
    requires |topicName| <= MaxTopicLength
    ensures Decode(RegisterPacket(topicId, msgId, topicName)) == Some(Register(Swap16(topicId), msgId, topicName))
    ensures Swap16(topicId) == topicId <==> topicId / 0x100 == topicId % 0x100
  {
    var m := RegisterPacket(topicId, msgId, topicName);
    assert m[6..] == topicName;
    HostOrderReadAsNetworkOrder(topicId);
    BigEndianRoundTrip(msgId);
  }

  /** A REGACK reads back with its topic id, msg id and return code 0. */
  lemma RegackRoundTrip(topicId: uint16, msgId: uint16)
    ensures Decode(RegackPacket(topicId, msgId)) == Some(Regack(topicId, msgId, ReturnCodeAccepted))
  {
    BigEndianRoundTrip(topicId);
    BigEndianRoundTrip(msgId);
  }

  /** A SUBSCRIBE by topic id reads back with its QoS, msg id and topic id. */
  lemma SubscribeTopicIdRoundTrip(topicId: uint16, qos: int8, msgId: uint16)
    ensures var r := Decode(SubscribeTopicIdPacket(topicId, qos, msgId));
            r.Some? && r.value.SubscribeTopicId? && r.value.msgId == msgId && r.value.topicId == topicId &&
            QosOfFlags(r.value.flags) == QosOfFlags(QosFlag(qos))
  {
    BigEndianRoundTrip(topicId);
    BigEndianRoundTrip(msgId);
  }

  /** A SUBSCRIBE by name reads back as one by name, with its QoS, msg id
      and name; a two-character name is marked short. */
  lemma SubscribeTopicNameRoundTrip(topicName: seq<byte>, qos: int8, msgId: uint16)
    requires |topicName| <= MaxTopicLength && -1 <= qos <= 2
    ensures var r := Decode(SubscribeTopicNamePacket(topicName, qos, msgId));
            r.Some? && r.value.SubscribeTopicName? && r.value.msgId == msgId && r.value.topicName == topicName &&
            QosOfFlags(r.value.flags) == qos && !RetainOfFlags(r.value.flags) &&
            TopicIdTypeOfFlags(r.value.flags) == (if |topicName| == 2 then TopicIdTypeShortName else TopicTypeName)
  {
    var m := SubscribeTopicNamePacket(topicName, qos, msgId);
    assert m[5..] == topicName;
    BigEndianRoundTrip(msgId);
    var q := QosFlag(qos);
    assert q == (q / 0x20) * 0x20;
  }

  /** The SUBSCRIBE by name as written and the corrected one are the same
      packet exactly when the name does not have two characters. */
  lemma SubscribeTopicNamePacketsAgree(topicName: seq<byte>, qos: int8, msgId: uint16)
    requires |topicName| <= MaxTopicLength
    ensures SubscribeTopicNamePacketAsWritten(topicName, qos, msgId) == SubscribeTopicNamePacket(topicName, qos, msgId)
            <==> |topicName| != 2
  {
    if |topicName| == 2 {
      assert SubscribeTopicNamePacketAsWritten(topicName, qos, msgId)[2] != SubscribeTopicNamePacket(topicName, qos, msgId)[2];
    }
  }

  /** As mqttsn.c writes it, a SUBSCRIBE for a two-character name carries
      TopicIdType 0, a normal name, and sets the RETAIN bit instead. */
  lemma SubscribeShortNameAsWritten(topicName: seq<byte>, qos: int8, msgId: uint16)
    requires |topicName| == 2 && -1 <= qos <= 2
    ensures var flags := SubscribeTopicNamePacketAsWritten(topicName, qos, msgId)[2];
            TopicIdTypeOfFlags(flags) == TopicTypeName && RetainOfFlags(flags)
  {
    var q := QosFlag(qos);
    assert q == (q / 0x20) * 0x20;
  }

  /** A PUBLISH reads back with its QoS, retain flag, topic type bits,
      topic id, msg id and data. */
  lemma PublishRoundTrip(topicId: uint16, topicType: byte, data: seq<byte>, qos: int8, retain: byte, msgId: uint16)
    requires |data| <= MaxPublishDataLength && -1 <= qos <= 2
    ensures var r := Decode(PublishPacket(topicId, topicType, data, qos, retain, msgId));
            r.Some? && r.value.Publish? && r.value.topicId == topicId && r.value.msgId == msgId &&
            r.value.data == data && QosOfFlags(r.value.flags) == qos &&
            (RetainOfFlags(r.value.flags) <==> retain != 0) &&
            TopicIdTypeOfFlags(r.value.flags) == topicType % 4
  {
    var m := PublishPacket(topicId, topicType, data, qos, retain, msgId);
    assert m[7..] == data;
    PublishFlagsFields(qos, retain != 0, topicType);
    BigEndianRoundTrip(topicId);
    BigEndianRoundTrip(msgId);
  }

  // ---------------------------------------------------------------------
  // Handling received messages.

  /** The msg id `mqttsn_handle_register_msg` echoes, as written: `NTOHS`
      of the received MsgId assigned to a `uint8_t`, which keeps only the
      low octet. */
  function RegisterReplyIdAsWritten(packet: seq<byte>): (id: uint16)
    requires |packet| >= 6
    ensures id < 0x100 && id == FromBigEndian16(packet[4], packet[5]) % 0x100
  {
    ToByte(FromBigEndian16(packet[4], packet[5]))
  }

  /** The msg id a REGACK must echo: the REGISTER's whole 16-bit MsgId. */
  function RegisterReplyId(packet: seq<byte>): (id: uint16)
    requires |packet| >= 6
  {
    FromBigEndian16(packet[4], packet[5])
  }

  /** The REGACK answering any REGISTER carries that REGISTER's msg id. */
  lemma RegackEchoesRegisterMsgId(topicId: uint16, msgId: uint16, topicName: seq<byte>)
    requires |topicName| <= MaxTopicLength
    ensures Decode(RegackPacket(Swap16(topicId), RegisterReplyId(RegisterPacket(topicId, msgId, topicName)))) ==
            Some(Regack(Swap16(topicId), msgId, ReturnCodeAccepted))
  {
    BigEndianRoundTrip(msgId);
    RegackRoundTrip(Swap16(topicId), msgId);
  }

  /** The reply id as written and the corrected one agree exactly when the
      REGISTER's msg id is below 256. */
  lemma RegisterReplyIdsAgree(packet: seq<byte>)
    requires |packet| >= 6
    ensures RegisterReplyIdAsWritten(packet) == RegisterReplyId(packet) <==> RegisterReplyId(packet) < 0x100
  {
  }

  /** As written, a REGISTER with msg id 0x0100 is answered by a REGACK with
      msg id 0x0000, which does not acknowledge it. */
  lemma RegisterReplyIdDropsHighOctet()
    ensures RegisterReplyIdAsWritten(RegisterPacket(0x0000, 0x0100, [])) == 0x0000
    ensures RegisterReplyId(RegisterPacket(0x0000, 0x0100, [])) == 0x0100
  {
  }

  /** `mqttsn_handle_register_acknowledgement_msg`: the received TopicId, in
      host order; the msg id and return code it reads change nothing. */
  function HandleRegackMsg(packet: seq<byte>): (topicId: uint16)
    requires |packet| >= 7
    ensures var d := Decode(packet); d.Some? && d.value.Regack? ==> topicId == d.value.topicId
  {
    FromBigEndian16(packet[2], packet[3])
  }

  /** Handling the REGACK the client itself would send returns the topic id
      that went into it. */
  lemma HandleRegackRoundTrip(topicId: uint16, msgId: uint16)
    ensures HandleRegackMsg(RegackPacket(topicId, msgId)) == topicId
  {
    BigEndianRoundTrip(topicId);
  }
}
