/** The MQTT-SN debugging helpers: the names of return codes and message
    types, spelled exactly as debug.c returns them. */
module MqttsnDebug {
  import opened CTypes
  import opened MqttsnMessages

  const Reserved: string := "reserved"
  const UnknownMessageType: string := "UNKNOWN MESSSAGE TYPE"

  /** `mqttsn_debug_return_code_to_string`: the name of each of the four
      return codes, and "reserved" for every other octet. */
  function ReturnCodeToString(returnCode: byte): (s: string)
    ensures returnCode == ReturnCodeAccepted ==> s == "Accepted"
    ensures returnCode == ReturnCodeRejectedCongestion ==> s == "Reected: congestion"
    ensures returnCode == ReturnCodeRejectedInvalidTopic ==> s == "Rejected: invalid topic ID"
    ensures returnCode == ReturnCodeRejectedNotSupported ==> s == "Rejected: not supported"
    ensures s == Reserved <==> returnCode > ReturnCodeRejectedNotSupported
  {
    match returnCode
    case 0x00 => "Accepted"
    case 0x01 => "Reected: congestion"
    case 0x02 => "Rejected: invalid topic ID"
    case 0x03 => "Rejected: not supported"
    case _ => Reserved
  }

  /** The return code a name belongs to: the inverse of
      `ReturnCodeToString` on the four codes. */
  function ReturnCodeOfString(s: string): (r: Option<byte>)
  {
    if s == "Accepted" then Some(ReturnCodeAccepted)
    else if s == "Reected: congestion" then Some(ReturnCodeRejectedCongestion)
    else if s == "Rejected: invalid topic ID" then Some(ReturnCodeRejectedInvalidTopic)
    else if s == "Rejected: not supported" then Some(ReturnCodeRejectedNotSupported)
    else None
  }

  /** Each of the four return codes has a name of its own. */
  lemma ReturnCodeNamesDistinct(returnCode: byte)
    requires returnCode <= ReturnCodeRejectedNotSupported
    ensures ReturnCodeOfString(ReturnCodeToString(returnCode)) == Some(returnCode)
  {
  }

  /** The message types `mqttsn_msg_t` defines, ENCMSG among them. */
  const DefinedTypes: set<byte> :=
    {TypeAdvertise, TypeSearchGw, TypeGwInfo, TypeConnect, TypeConnack, TypeWillTopicReq,
     TypeWillTopic, TypeWillMsgReq, TypeWillMsg, TypeRegister, TypeRegack, TypePublish,
     TypePuback, TypePubcomp, TypePubrec, TypePubrel, TypeSubscribe, TypeSuback,
     TypeUnsubscribe, TypeUnsuback, TypePingReq, TypePingResp, TypeDisconnect,
     TypeWillTopicUpd, TypeWillTopicResp, TypeWillMsgUpd, TypeWillMsgResp, TypeEncMsg}

  /** `mqttsn_debug_msg_type_to_string`: the name of every defined message
      type but ENCMSG; ENCMSG and every undefined octet fall to the
      default. */
  function MessageTypeToString(msgType: byte): (s: string)
    ensures s == UnknownMessageType <==> msgType !in DefinedTypes || msgType == TypeEncMsg
    ensures msgType == TypeConnect ==> s == "CONECT"
    ensures msgType == TypeConnack ==> s == "CONACK"
    ensures msgType == TypeWillMsgUpd ==> s == "WILMSGUPD"
  {
    match msgType
    case 0x00 => "ADVERTISE"
    case 0x01 => "SEARCHGW"
    case 0x02 => "GWINFO"
    case 0x04 => "CONECT"
    case 0x05 => "CONACK"
    case 0x06 => "WILLTOPICREQ"
    case 0x07 => "WILLTOPIC"
    case 0x08 => "WILLMSGREQ"
    case 0x09 => "WILLMSG"
    case 0x0A => "REGISTER"
    case 0x0B => "REGACK"
    case 0x0C => "PUBLISH"
    case 0x0D => "PUBACK"
    case 0x0E => "PUBCOMP"
    case 0x0F => "PUBREC"
    case 0x10 => "PUBREL"
    case 0x12 => "SUBSCRIBE"
    case 0x13 => "SUBACK"
    case 0x14 => "UNSUBSCRIBE"
    case 0x15 => "UNSUBACK"
    case 0x16 => "PINGREQ"
    case 0x17 => "PINGRESP"
    case 0x18 => "DISCONNECT"
    case 0x1A => "WILLTOPICUPD"
    case 0x1B => "WILLTOPICRESP"
    case 0x1C => "WILMSGUPD"
    case 0x1D => "WILLMSGRESP"
    case _ => UnknownMessageType
  }

  /** The message type a name belongs to: the inverse of
      `MessageTypeToString` on the named types. The names are looked up by
      their first letter, then compared whole. */
  function MessageTypeOfString(s: string): (r: Option<byte>)
  {
    if s == [] then None
    else match s[0]
      case 'A' =>
        if s == "ADVERTISE" then Some(TypeAdvertise)
        else None
      case 'S' =>
        if s == "SEARCHGW" then Some(TypeSearchGw)
        else if s == "SUBSCRIBE" then Some(TypeSubscribe)
        else if s == "SUBACK" then Some(TypeSuback)
        else None
      case 'G' =>
        if s == "GWINFO" then Some(TypeGwInfo)
        else None
      case 'C' =>
        if s == "CONECT" then Some(TypeConnect)
        else if s == "CONACK" then Some(TypeConnack)
        else None
      case 'W' =>
        if s == "WILLTOPICREQ" then Some(TypeWillTopicReq)
        else if s == "WILLTOPIC" then Some(TypeWillTopic)
        else if s == "WILLMSGREQ" then Some(TypeWillMsgReq)
        else if s == "WILLMSG" then Some(TypeWillMsg)
        else if s == "WILLTOPICUPD" then Some(TypeWillTopicUpd)
        else if s == "WILLTOPICRESP" then Some(TypeWillTopicResp)
        else if s == "WILMSGUPD" then Some(TypeWillMsgUpd)
        else if s == "WILLMSGRESP" then Some(TypeWillMsgResp)
        else None
      case 'R' =>
        if s == "REGISTER" then Some(TypeRegister)
        else if s == "REGACK" then Some(TypeRegack)
        else None
      case 'P' =>
        if s == "PUBLISH" then Some(TypePublish)
        else if s == "PUBACK" then Some(TypePuback)
        else if s == "PUBCOMP" then Some(TypePubcomp)
        else if s == "PUBREC" then Some(TypePubrec)
        else if s == "PUBREL" then Some(TypePubrel)
        else if s == "PINGREQ" then Some(TypePingReq)
        else if s == "PINGRESP" then Some(TypePingResp)
        else None
      case 'U' =>
        if s == "UNSUBSCRIBE" then Some(TypeUnsubscribe)
        else if s == "UNSUBACK" then Some(TypeUnsuback)
        else None
      case 'D' =>
        if s == "DISCONNECT" then Some(TypeDisconnect)
        else None
      case _ => None
  }

  /** Every defined message type other than ENCMSG has a name of its own:
      reading the name back gives the type. */
  lemma MessageTypeNamesDistinct(msgType: byte)
    requires msgType in DefinedTypes && msgType != TypeEncMsg
    ensures MessageTypeOfString(MessageTypeToString(msgType)) == Some(msgType)
  {
    if msgType < TypeWillMsgReq {
      NamesBelowWillMsgReq(msgType);
    } else if msgType < TypePubrel {
      NamesBelowPubrel(msgType);
    } else if msgType < TypeDisconnect {
      NamesBelowDisconnect(msgType);
    } else {
      NamesFromDisconnect(msgType);
    }
  }

  // The four lemmas below split the proof above by ranges of types and
  // consider each type of a range in turn.

  lemma NamesBelowWillMsgReq(msgType: byte)
    requires msgType in DefinedTypes && msgType < TypeWillMsgReq
    ensures MessageTypeOfString(MessageTypeToString(msgType)) == Some(msgType)
  {
    match msgType
    case 0x00 =>
    case 0x01 =>
    case 0x02 =>
    case 0x04 =>
    case 0x05 =>
    case 0x06 =>
    case 0x07 =>
  }

  lemma NamesBelowPubrel(msgType: byte)
    requires msgType in DefinedTypes && TypeWillMsgReq <= msgType < TypePubrel
    ensures MessageTypeOfString(MessageTypeToString(msgType)) == Some(msgType)
  {
    match msgType
    case 0x08 =>
    case 0x09 =>
    case 0x0A =>
    case 0x0B =>
    case 0x0C =>
    case 0x0D =>
    case 0x0E =>
    case 0x0F =>
  }

  lemma NamesBelowDisconnect(msgType: byte)
    requires msgType in DefinedTypes && TypePubrel <= msgType < TypeDisconnect
    ensures MessageTypeOfString(MessageTypeToString(msgType)) == Some(msgType)
  {
    match msgType
    case 0x10 =>
    case 0x12 =>
    case 0x13 =>
    case 0x14 =>
    case 0x15 =>
    case 0x16 =>
    case 0x17 =>
  }

  lemma NamesFromDisconnect(msgType: byte)
    requires msgType in DefinedTypes && TypeDisconnect <= msgType && msgType != TypeEncMsg
    ensures MessageTypeOfString(MessageTypeToString(msgType)) == Some(msgType)
  {
    match msgType
    case 0x18 =>
    case 0x1A =>
    case 0x1B =>
    case 0x1C =>
    case 0x1D =>
  }
}
