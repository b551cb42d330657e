/** The MQTT-SN client of mqttsn.c: the static 16-bit `message_id`
    counter, the messages it sends and the handlers for messages it
    receives. `mqttsn_send` is modelled as appending the sent octets to the
    log `sent`; the topic registry of topic.c is the `topics` object. */
module MqttsnClient {
  import opened CTypes
  import opened MqttsnTopic
  import opened MqttsnMessages

  /** The topic name `mqttsn_handle_register_msg` registers: "TODO". */
  const PlaceholderTopicName: seq<byte> := [0x54, 0x4F, 0x44, 0x4F]

  /** CONNECT is sent when the id is not NULL, at most 23 octets long and
      `strnlen(id, 23)` equals the given length. */
  predicate ConnectAccepted(clientIdentifier: Option<seq<byte>>, clientIdentifierLength: nat)
  {
    && clientIdentifier.Some?
    && clientIdentifierLength <= MaxClientIdLength
    && Strnlen(clientIdentifier.value, MaxClientIdLength) == clientIdentifierLength
  }

  /** REGISTER takes a msg id when the name is not NULL and at most 249
      octets long. */
  predicate RegisterStamped(topicName: Option<seq<byte>>, topicLength: nat)
  {
    topicName.Some? && topicLength <= MaxTopicLength
  }

  /** ... and is sent when moreover `strnlen(name, 249)` equals the length. */
  predicate RegisterAccepted(topicName: Option<seq<byte>>, topicLength: nat)
  {
    RegisterStamped(topicName, topicLength) && Strnlen(topicName.value, MaxTopicLength) == topicLength
  }

  /** PUBLISH is sent when the data is not NULL, at most 248 octets long and
      `strnlen(data, 248)` equals the given size. */
  predicate PublishAccepted(data: Option<seq<byte>>, payloadSize: nat)
  {
    && data.Some?
    && payloadSize <= MaxPublishDataLength
    && Strnlen(data.value, MaxPublishDataLength) == payloadSize
  }

  class Client {
    /** `message_id`: the msg id the next REGISTER, SUBSCRIBE or PUBLISH
        stamps. */
    var messageId: uint16
    /** Every packet handed to `mqttsn_send`, oldest first. */
    var sent: seq<seq<byte>>
    /** The client's topic registry. */
    const topics: TopicRegistry

    /** The counter starts at 1 and nothing has been sent. */
    constructor (registry: TopicRegistry)
      ensures messageId == 1 && sent == [] && topics == registry
    {
      messageId := 1;
      sent := [];
      topics := registry;
    }

    /** `mqttsn_send`: sends as many octets as the packet's first octet
        says. */
    method Send(packet: seq<byte>)
      requires 1 <= |packet| && packet[0] <= |packet|
      modifies this
      ensures sent == old(sent) + [packet[..packet[0]]]
      ensures packet[0] == |packet| ==> sent == old(sent) + [packet]
      ensures messageId == old(messageId)
    {
      assert packet[0] == |packet| ==> packet[..packet[0]] == packet;
      sent := sent + [packet[..packet[0]]];
    }

    /** `mqttsn_connect`: sends a CONNECT with the first `length` octets of
        the id when the checks pass, and nothing otherwise; no msg id is
        used. The WILL flag is never set. */
    method Connect(clientIdentifier: Option<seq<byte>>, clientIdentifierLength: nat, duration: uint16, cleanSession: bool)
      modifies this
      ensures messageId == old(messageId)
      ensures ConnectAccepted(clientIdentifier, clientIdentifierLength) ==>
                sent == old(sent) + [ConnectPacket(clientIdentifier.value[..clientIdentifierLength], cleanSession, duration)]
      ensures !ConnectAccepted(clientIdentifier, clientIdentifierLength) ==> sent == old(sent)
    {
      if clientIdentifier.None? || clientIdentifierLength > MaxClientIdLength {
        return;
      }
      var size := Strnlen(clientIdentifier.value, MaxClientIdLength);
      if size != clientIdentifierLength {
        return;
      }
      var packet := ConnectPacket(clientIdentifier.value[..size], cleanSession, duration);
      Send(packet);
    }

    /** `mqttsn_disconnect`: sends `[2, DISCONNECT]`. */
    method Disconnect()
      modifies this
      ensures messageId == old(messageId)
      ensures sent == old(sent) + [DisconnectPacket()]
    {
      Send(DisconnectPacket());
    }

    /** `mqttsn_ping_request`: sends `[2, PINGREQ]`. */
    method PingRequest()
      modifies this
      ensures messageId == old(messageId)
      ensures sent == old(sent) + [PingRequestPacket()]
    {
      Send(PingRequestPacket());
    }

    /** `mqttsn_register`: nothing happens for a NULL or too long name.
        Otherwise the current msg id is taken, and the REGISTER is sent
        only when `strnlen` agrees with the length; a mismatch has used up
        the id all the same. */
    method Register(topicName: Option<seq<byte>>, topicLength: nat, topicId: uint16)
      modifies this
      ensures RegisterStamped(topicName, topicLength) ==> messageId == Increment16(old(messageId))
      ensures !RegisterStamped(topicName, topicLength) ==> messageId == old(messageId)
      ensures RegisterAccepted(topicName, topicLength) ==>
                sent == old(sent) + [RegisterPacket(topicId, old(messageId), topicName.value[..topicLength])]
      ensures !RegisterAccepted(topicName, topicLength) ==> sent == old(sent)
    {
      if topicName.None? || topicLength > MaxTopicLength {
        return;
      }
      var msgId := messageId;
      messageId := Increment16(messageId);
      var size := Strnlen(topicName.value, MaxTopicLength);
      if size != topicLength {
        return;
      }
      Send(RegisterPacket(topicId, msgId, topicName.value[..size]));
    }

    /** `mqttsn_register_acknowledgement`: sends an accepting REGACK. */
    method RegisterAcknowledgement(topicId: uint16, msgId: uint16)
      modifies this
      ensures messageId == old(messageId)
      ensures sent == old(sent) + [RegackPacket(topicId, msgId)]
    {
      Send(RegackPacket(topicId, msgId));
    }

    /** `mqttsn_subscribe_topic_id`: always sends, stamping and using up
        the current msg id. */
    method SubscribeTopicId(topicIdentifier: uint16, qos: int8)
      modifies this
      ensures messageId == Increment16(old(messageId))
      ensures sent == old(sent) + [SubscribeTopicIdPacket(topicIdentifier, qos, old(messageId))]
    {
      var msgId := messageId;
      messageId := Increment16(messageId);
      Send(SubscribeTopicIdPacket(topicIdentifier, qos, msgId));
    }

    /** `mqttsn_subscribe_topic_name`: checks `strnlen(name, 249)` against
        the length first, so a mismatch sends nothing and uses no msg id.
        A two-character name is marked with the short-name TopicIdType of
        section 5.3.4 of MQTT-SN v1.2; for any other name the packet sent
        is the one mqttsn.c builds. */
    method SubscribeTopicName(topicName: seq<byte>, topicLength: nat, qos: int8)
      modifies this
      ensures Strnlen(topicName, MaxTopicLength) == topicLength ==>
                messageId == Increment16(old(messageId)) &&
                sent == old(sent) + [SubscribeTopicNamePacket(topicName[..topicLength], qos, old(messageId))]
      ensures Strnlen(topicName, MaxTopicLength) == topicLength && topicLength != 2 ==>
                sent == old(sent) + [SubscribeTopicNamePacketAsWritten(topicName[..topicLength], qos, old(messageId))]
      ensures Strnlen(topicName, MaxTopicLength) != topicLength ==>
                messageId == old(messageId) && sent == old(sent)
    {
      var size := Strnlen(topicName, MaxTopicLength);
      if size != topicLength {
        return;
      }
      var msgId := messageId;
      messageId := Increment16(messageId);
      SubscribeTopicNamePacketsAgree(topicName[..size], qos, msgId);
      Send(SubscribeTopicNamePacket(topicName[..size], qos, msgId));
    }

    /** `mqttsn_publish`: checks the data first, so a rejection sends
        nothing and uses no msg id. */
    method Publish(topicIdentifier: uint16, topicType: byte, data: Option<seq<byte>>, payloadSize: nat, qos: int8, retain: byte)
      modifies this
      ensures PublishAccepted(data, payloadSize) ==>
                messageId == Increment16(old(messageId)) &&
                sent == old(sent) + [PublishPacket(topicIdentifier, topicType, data.value[..payloadSize], qos, retain, old(messageId))]
      ensures !PublishAccepted(data, payloadSize) ==> messageId == old(messageId) && sent == old(sent)
    {
      if data.None? || payloadSize > MaxPublishDataLength {
        return;
      }
      var size := Strnlen(data.value, MaxPublishDataLength);
      if size != payloadSize {
        return;
      }
      var msgId := messageId;
      messageId := Increment16(messageId);
      Send(PublishPacket(topicIdentifier, topicType, data.value[..size], qos, retain, msgId));
    }

    /** `mqttsn_handle_register_msg`: decodes the TopicId, tries to register
        it under the name "TODO" (a refusal is ignored) and answers with a
        REGACK carrying the TopicId and the REGISTER's whole msg id; for a
        msg id below 256 that is the REGACK mqttsn.c sends. */
    method HandleRegisterMsg(packet: seq<byte>)
      requires |packet| >= 6
      modifies this, topics
      ensures messageId == old(messageId)
      ensures sent == old(sent) + [RegackPacket(FromBigEndian16(packet[2], packet[3]), RegisterReplyId(packet))]
      ensures RegisterReplyId(packet) < 0x100 ==>
                sent == old(sent) + [RegackPacket(FromBigEndian16(packet[2], packet[3]), RegisterReplyIdAsWritten(packet))]
      ensures var topicId := FromBigEndian16(packet[2], packet[3]);
              if ValidIdentifier(topicId) && topicId !in old(topics.Identifiers())
              then topics.topics == old(topics.topics) + [TopicEntry(topicId, StrncpyCells(PlaceholderTopicName, MaxTopicLength))]
              else topics.topics == old(topics.topics)
    {
      var msgId := RegisterReplyId(packet);
      var topicIdentifier := FromBigEndian16(packet[2], packet[3]);
      RegisterReplyIdsAgree(packet);
      var added := topics.Add(topicIdentifier, Some(PlaceholderTopicName));
      RegisterAcknowledgement(topicIdentifier, msgId);
    }

    /** `mqttsn_handle_disconnect_msg`: does nothing. */
    method HandleDisconnectMsg(packet: Option<seq<byte>>)
      ensures messageId == old(messageId) && sent == old(sent)
    {
    }
  }

  /** The msg-id counter: a fresh client stamps 1 on its first REGISTER; a
      REGISTER whose length disagrees with its name uses up 2 sending
      nothing; a refused PUBLISH uses nothing; the next PUBLISH stamps 3. */
  method MessageIdScenario() returns (log: seq<seq<byte>>, nextId: uint16)
    ensures nextId == 4
    ensures log == [RegisterPacket(0x0000, 1, [0x61]), PublishPacket(0x0004, 0, [0x61], 0, 0, 3)]
  {
    var registry := new TopicRegistry();
    var client := new Client(registry);
    var name: seq<byte> := [0x61];
    assert name[..1] == name;
    StrnlenOfPrefix(name, 1, MaxTopicLength);
    client.Register(Some(name), 1, 0x0000);
    assert client.sent == [RegisterPacket(0x0000, 1, name)] && client.messageId == 2;
    client.Register(Some(name), 2, 0x0000);
    assert client.sent == [RegisterPacket(0x0000, 1, name)] && client.messageId == 3;
    client.Publish(0x0004, 0, None, 1, 0, 0);
    StrnlenOfPrefix(name, 1, MaxPublishDataLength);
    client.Publish(0x0004, 0, Some(name), 1, 0, 0);
    log := client.sent;
    nextId := client.messageId;
  }

  /** Handling a REGISTER for topic id 4 with msg id 0x0100 adds the topic
      and answers with a REGACK for topic 4 and the whole msg id, where the
      REGACK mqttsn.c builds carries msg id 0x0000. */
  method HandleRegisterScenario() returns (reply: seq<byte>, registered: bool, sourceReply: seq<byte>)
    ensures Decode(reply) == Some(Regack(0x0004, 0x0100, ReturnCodeAccepted))
    ensures registered
    ensures Decode(sourceReply) == Some(Regack(0x0004, 0x0000, ReturnCodeAccepted))
  {
    var registry := new TopicRegistry();
    var client := new Client(registry);
    var register := [6, TypeRegister, 0x00, 0x04, 0x01, 0x00];
    client.HandleRegisterMsg(register);
    reply := client.sent[0];
    RegackRoundTrip(0x0004, 0x0100);
    registered := client.topics.Contains(0x0004);
    assert client.topics.topics[0].identifier == 0x0004;
    sourceReply := RegackPacket(0x0004, RegisterReplyIdAsWritten(register));
    RegackRoundTrip(0x0004, 0x0000);
  }
}
