/** The client's WILL topic and WILL message: two static character
    buffers of fixed size. Their sizes, `MQTTSN_DEFAULT_WILL_TOPIC_SIZE` and
    `MQTTSN_DEFAULT_WILL_MESSAGE_SIZE`, are not defined in the headers of
    this revision and are therefore parameters of the model. */
module MqttsnWill {
  import opened CTypes

  /** `mqttsn_will_set_char_array`: when the source length fits the
      destination, `strncpy` fills the first `length - 1` cells (the
      string, then NUL padding), cell `length - 1` gets a NUL and the rest
      is untouched; the last counted source character is thus dropped.
      When it does not fit, nothing is written and the result is the
      `uint8_t` value -1. A zero length would make `strncpy` copy
      `SIZE_MAX` cells and is excluded. */
  method SetCharArray(source: seq<byte>, sourceLength: nat, destination: array<byte>, destinationLength: nat)
    returns (result: byte)
    requires destinationLength <= destination.Length
    requires sourceLength >= 1
    modifies destination
    ensures sourceLength > destinationLength ==> result == 0xFF && destination[..] == old(destination[..])
    ensures sourceLength <= destinationLength ==>
              result == 0 &&
              destination[..] == StrncpyCells(source, sourceLength - 1) + [0] + old(destination[sourceLength..])
  {
    if sourceLength <= destinationLength {
      var n := sourceLength - 1;
      var length := Strnlen(source, n);
      ghost var cells := StrncpyCells(source, n);
      var i := 0;
      while i < n
        invariant 0 <= i <= n
        invariant destination[..i] == cells[..i]
        invariant destination[i..] == old(destination[i..])
      {
        destination[i] := if i < length then source[i] else 0;
        assert destination[..i + 1] == destination[..i] + [destination[i]];
        assert destination[i + 1..] == old(destination[..])[i + 1..];
        i := i + 1;
      }
      destination[n] := 0;
      assert destination[..] == destination[..n] + [destination[n]] + destination[n + 1..];
      assert destination[n + 1..] == old(destination[..])[n + 1..];
      return 0;
    }
    return ToByte(-1);
  }

  class Will {
    /** `will_topic`. */
    const topic: array<byte>
    /** `will_msg`. */
    const message: array<byte>

    /** Static storage: two zeroed buffers of the configured sizes. */
    constructor (topicSize: nat, messageSize: nat)
      ensures Valid() && fresh(topic) && fresh(message)
      ensures topic.Length == topicSize && message.Length == messageSize
      ensures forall i :: 0 <= i < topicSize ==> topic[i] == 0
      ensures forall i :: 0 <= i < messageSize ==> message[i] == 0
    {
      topic := new byte[topicSize](_ => 0);
      message := new byte[messageSize](_ => 0);
    }

    /** The two buffers are distinct objects. */
    ghost predicate Valid()
      reads this
    {
      topic != message
    }

    /** `mqttsn_will_init`: copies a non-NULL topic into the topic buffer
        and a non-NULL message into the message buffer, each only when it
        fits, and ignores the outcome of either copy. */
    method Init(topicName: Option<seq<byte>>, topicLength: nat, messageText: Option<seq<byte>>, messageLength: nat)
      requires Valid()
      requires topicName.Some? ==> topicLength >= 1
      requires messageText.Some? ==> messageLength >= 1
      modifies topic, message
      ensures topicName.Some? && topicLength <= topic.Length ==>
                topic[..] == StrncpyCells(topicName.value, topicLength - 1) + [0] + old(topic[topicLength..])
      ensures !(topicName.Some? && topicLength <= topic.Length) ==> topic[..] == old(topic[..])
      ensures messageText.Some? && messageLength <= message.Length ==>
                message[..] == StrncpyCells(messageText.value, messageLength - 1) + [0] + old(message[messageLength..])
      ensures !(messageText.Some? && messageLength <= message.Length) ==> message[..] == old(message[..])
    {
      if topicName.Some? {
        var ignored := SetCharArray(topicName.value, topicLength, topic, topic.Length);
      }
      if messageText.Some? {
        var ignored := SetCharArray(messageText.value, messageLength, message, message.Length);
      }
    }

    /** `mqttsn_will_msg_size`: the buffer's fixed size as a `uint8_t`, not
        the length of what was stored. */
    function MessageSize(): (r: byte)
      reads this
      ensures r == message.Length % 0x100
    {
      ToByte(message.Length)
    }

    /** `mqttsn_will_topic_size`: likewise for the topic buffer. */
    function TopicSize(): (r: byte)
      reads this
      ensures r == topic.Length % 0x100
    {
      ToByte(topic.Length)
    }

    /** `mqttsn_will_get_message`: the buffer itself, not a copy. */
    function GetMessage(): (r: array<byte>)
      reads this
      ensures r == message
    {
      message
    }

    /** `mqttsn_will_get_topic`: the buffer itself, not a copy. */
    function GetTopic(): (r: array<byte>)
      reads this
      ensures r == topic
    {
      topic
    }
  }

  /** The topic of the WILL unit test, "some topic". */
  const SomeTopic: seq<byte> := [0x73, 0x6F, 0x6D, 0x65, 0x20, 0x74, 0x6F, 0x70, 0x69, 0x63]

  /** Copying nine cells of "some topic" copies its first nine characters. */
  lemma SomeTopicCells()
    ensures StrncpyCells(SomeTopic, 9) == SomeTopic[..9]
  {
    StrnlenOfPrefix(SomeTopic, 9, 9);
    StrncpyCellsOfPrefix(SomeTopic, 9);
  }

  /** Setting "some topic" with length 10 into a 12-cell buffer keeps its
      first nine characters followed by NULs; the sizes stay those of the
      buffers whatever is stored, and a topic too long for its buffer is
      refused. */
  method WillScenario() returns (topicSize: byte, messageSize: byte, stored: seq<byte>, tooLong: byte)
    ensures topicSize == 12 && messageSize == 10
    ensures stored == SomeTopic[..9] + [0, 0, 0]
    ensures tooLong == 0xFF
  {
    var will := new Will(12, 10);
    ghost var before := will.topic[..];
    assert before[10..] == [0, 0];
    will.Init(Some(SomeTopic), 10, None, 0);
    topicSize := will.TopicSize();
    messageSize := will.MessageSize();
    SomeTopicCells();
    stored := will.topic[..];
    tooLong := SetCharArray(SomeTopic, 13, will.topic, will.topic.Length);
  }

  /** `strncpy` of `n` cells from a string with at least `n` non-NUL
      characters copies exactly its first `n` characters. */
  lemma StrncpyCellsOfPrefix(s: seq<byte>, n: nat)
    requires n <= |s| && Strnlen(s, n) == n
    ensures StrncpyCells(s, n) == s[..n]
  {
  }
}
