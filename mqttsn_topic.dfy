/** The MQTT-SN client's topic registry: a list of (topic id, topic name)
    entries. Names are stored in a fixed array of `MaxTopicLength` cells
    filled by `strncpy`, so a name is kept to its first 249 characters. */
module MqttsnTopic {
  import opened CTypes

  /** `MQTTSN_MAX_TOPIC_LENGTH`: the largest packet, 255 octets, less the
      six octets of a REGISTER message around the name. */
  const MaxTopicLength: nat := 255 - 6

  /** One list entry: the topic id and the `topic_name` cells. */
  datatype TopicEntry = TopicEntry(identifier: uint16, name: seq<byte>)

  /** `mqttsn_topic_valid_identifier`: only the ids 0x0000 and 0x0004 are
      accepted. */
  predicate ValidIdentifier(topicIdentifier: uint16): (r: bool)
    ensures r <==> topicIdentifier == 0x0000 || topicIdentifier == 0x0004
  {
    topicIdentifier == 0x0000 || topicIdentifier == 0x0004
  }

  /** `mqttsn_topic_valid_name`: a name is accepted exactly when it is not
      NULL, since `strnlen(name, 249)` never exceeds 249. */
  predicate ValidName(topicName: Option<seq<byte>>): (r: bool)
    ensures r <==> topicName.Some?
  {
    if topicName.Some? then Strnlen(topicName.value, MaxTopicLength) <= MaxTopicLength else false
  }

  /** The cells `strncpy(entry.topic_name, name, 249)` leaves: read back as
      a C string they give the name's first 249 characters (up to its
      terminator). */
  lemma StoredNameReadsBack(name: seq<byte>)
    ensures |StrncpyCells(name, MaxTopicLength)| == MaxTopicLength
    ensures Strnlen(StrncpyCells(name, MaxTopicLength), MaxTopicLength) == Strnlen(name, MaxTopicLength)
    ensures StrncpyCells(name, MaxTopicLength)[..Strnlen(name, MaxTopicLength)] ==
            name[..Strnlen(name, MaxTopicLength)]
  {
    var cells := StrncpyCells(name, MaxTopicLength);
    var n := Strnlen(name, MaxTopicLength);
    StrnlenOfPrefix(cells, n, MaxTopicLength);
  }

  /** Only two ids are valid, so three valid ids cannot all differ. */
  lemma NoThreeDistinctValidIdentifiers(a: uint16, b: uint16, c: uint16)
    requires ValidIdentifier(a) && ValidIdentifier(b) && ValidIdentifier(c)
    ensures a == b || b == c || a == c
  {
  }

  class TopicRegistry {
    /** The static list `topics`, in insertion order. */
    var topics: seq<TopicEntry>

    /** The set of ids in the list. */
    function Identifiers(): (ids: set<uint16>)
      reads this
      ensures forall i :: 0 <= i < |topics| ==> topics[i].identifier in ids
      ensures forall id :: id in ids ==> exists i :: 0 <= i < |topics| && topics[i].identifier == id
    {
      set i | 0 <= i < |topics| :: topics[i].identifier
    }

    /** What `add` keeps true: every id is valid, appears once, and every
        stored name fills the 249 cells. */
    ghost predicate Valid()
      reads this
    {
      && (forall i :: 0 <= i < |topics| ==> ValidIdentifier(topics[i].identifier))
      && (forall i, j :: 0 <= i < j < |topics| ==> topics[i].identifier != topics[j].identifier)
      && (forall i :: 0 <= i < |topics| ==> |topics[i].name| == MaxTopicLength)
    }

    /** The static list starts NULL (empty). */
    constructor ()
      ensures topics == [] && Valid()
    {
      topics := [];
    }

    /** `mqttsn_topic_init`: does nothing. */
    method Init()
      ensures topics == old(topics)
    {
    }

    /** `mqttsn_topic_contains`: a linear search for the id; the list is
        read, not changed. */
    method Contains(topicIdentifier: uint16) returns (found: bool)
      ensures found <==> topicIdentifier in Identifiers()
    {
      found := false;
      var i := 0;
      while i < |topics| && !found
        invariant 0 <= i <= |topics|
        invariant found <==> exists k :: 0 <= k < i && topics[k].identifier == topicIdentifier
      {
        if topics[i].identifier == topicIdentifier {
          found := true;
        }
        i := i + 1;
      }
    }

    /** `mqttsn_topic_get`: the name cells of the first entry with the id,
        and NULL exactly when there is none. */
    method Get(topicIdentifier: uint16) returns (name: Option<seq<byte>>)
      ensures name.None? <==> topicIdentifier !in Identifiers()
      ensures name.Some? ==> exists i :: 0 <= i < |topics| && topics[i].identifier == topicIdentifier &&
                                         name.value == topics[i].name &&
                                         forall k :: 0 <= k < i ==> topics[k].identifier != topicIdentifier
    {
      name := None;
      var i := 0;
      while i < |topics|
        invariant 0 <= i <= |topics|
        invariant forall k :: 0 <= k < i ==> topics[k].identifier != topicIdentifier
      {
        if topics[i].identifier == topicIdentifier {
          name := Some(topics[i].name);
          return;
        }
        i := i + 1;
      }
    }

    /** `mqttsn_topic_add`: refuses an invalid id, a NULL name or an id
        already in the list, leaving the list as it was; otherwise appends
        the id with the name's `strncpy` cells and succeeds. */
    method Add(topicIdentifier: uint16, topicName: Option<seq<byte>>) returns (added: bool)
      modifies this
      ensures added <==> ValidIdentifier(topicIdentifier) && topicName.Some? &&
                         topicIdentifier !in old(Identifiers())
      ensures added ==> topics == old(topics) + [TopicEntry(topicIdentifier, StrncpyCells(topicName.value, MaxTopicLength))]
      ensures !added ==> topics == old(topics)
      ensures old(Valid()) ==> Valid()
    {
      if !ValidIdentifier(topicIdentifier) {
        return false;
      }
      if !ValidName(topicName) {
        return false;
      }
      var present := Contains(topicIdentifier);
      if present {
        return false;
      }
      topics := topics + [TopicEntry(topicIdentifier, StrncpyCells(topicName.value, MaxTopicLength))];
      added := true;
    }

    /** `mqttsn_topic_clear`: deletes the entries one by one. */
    method Clear()
      modifies this
      ensures topics == [] && Valid()
      ensures Identifiers() == {}
    {
      while topics != []
        decreases |topics|
      {
        topics := topics[1..];
      }
    }

    /** With unique ids drawn from {0x0000, 0x0004}, the list never holds
        more than two entries. */
    lemma AtMostTwoTopics()
      requires Valid()
      ensures |topics| <= 2
    {
      if |topics| > 2 {
        NoThreeDistinctValidIdentifiers(topics[0].identifier, topics[1].identifier, topics[2].identifier);
      }
    }
  }

  /** Adding an id to an empty registry succeeds; the id is then found and
      its name reads back as the given name; adding it again fails. */
  method AddGetScenario() returns (first: bool, found: bool, again: bool, stored: Option<seq<byte>>)
    ensures first && found && !again
    ensures stored.Some? && |stored.value| >= 4 && stored.value[..4] == [0x54, 0x45, 0x53, 0x54]
  {
    var registry := new TopicRegistry();
    var name: seq<byte> := [0x54, 0x45, 0x53, 0x54];
    first := registry.Add(0x0004, Some(name));
    assert registry.topics[0].identifier == 0x0004;
    found := registry.Contains(0x0004);
    stored := registry.Get(0x0004);
    StrnlenOfPrefix(name, 4, MaxTopicLength);
    StoredNameReadsBack(name);
    again := registry.Add(0x0004, Some(name));
  }

  /** An id outside {0x0000, 0x0004} is refused, and after `clear` no id is
      found. */
  method RefuseAndClearScenario(topicIdentifier: uint16, name: seq<byte>) returns (added: bool, foundAfterClear: bool)
    requires topicIdentifier != 0x0000 && topicIdentifier != 0x0004
    ensures !added && !foundAfterClear
  {
    var registry := new TopicRegistry();
    added := registry.Add(topicIdentifier, Some(name));
    var ok := registry.Add(0x0000, Some(name));
    registry.Clear();
    foundAfterClear := registry.Contains(0x0000);
  }
}
