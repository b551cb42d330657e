# ARA routing decisions and the MQTT-SN client, modelled in Dafny

This project models two sequential parts of the RIOT networking code and
proves properties of them.

**The Ant Routing Algorithm (ARA).**
- The roulette-wheel choice of a next hop in `ara_stochastic_forwarding`. Pheromone values are normalised, the cumulative sums are formed by `ara_cum_sum`, modelled as the `cumsum` of `helper.h`, and the first index whose cumulative sum reaches the random number is chosen.
- Pheromone evaporation, linear and exponential, with its threshold clamp.
- Linear reinforcement.
- The ARA packet types and the construction of ant packets.
- Counting in the packet trap.
- The routing table. This covers the 256-slot array that `routingtable.c` zeroes and its two lookup stubs. It also covers the destination-keyed add, delete, size, lookup and deliverability operations that the unit tests define.

**The MQTT-SN v1.2 client.**
- The messages the client builds: CONNECT, DISCONNECT, PINGREQ, REGISTER, REGACK, SUBSCRIBE by id and by name, and PUBLISH.
- The 16-bit `message_id` counter these messages stamp.
- The handlers for received REGISTER and REGACK messages.
- The topic registry, the gateway list, the WILL buffers, the device identity, and the string tables for return codes and message types.

**Modelling choices.**
- `float` and `double` are exact `real`s.
- C integer widths are subset types (`byte`, `uint16`, `uint32`, `int8`). Every truncation to `uint8_t` and every 16-bit wrap is written out.
- A C string is the sequence of bytes its pointer makes readable. The end of the sequence stands for the terminating NUL. `strnlen` and the cells `strncpy` writes are the functions `CTypes.Strnlen` and `CTypes.StrncpyCells`.
- A nullable pointer argument is an `Option`.
- The outcome of each `malloc` or packet-buffer allocation is a boolean parameter.
- The random draws are parameters: `rand()` in forwarding and the 32-bit random id in `mqttsn_device_create`.
- State that the C code keeps in static variables is a `class`:
  - a mutated list is a `seq` field;
  - a hash table is a `map` field;
  - a fixed buffer is an `array`.
- `mqttsn_send` appends the octets it would send to the client's `sent` log. As in `communication.c`, it sends as many octets as the packet's first octet says.
- The host is little-endian. This matters where the C code stores a 16-bit or 32-bit value without a byte-order conversion: the REGISTER's topic id (`CTypes.HostOrder16`) and the random id in `mqttsn_device_create` (`MqttsnDevice.LittleEndian32`).
- Each message builder is a function giving the octets the packed struct and its payload occupy. `MqttsnMessages.Decode` reads a message the way a receiver following section 5.4 of MQTT-SN v1.2 does. The round-trip lemmas connect the two.

## Model

| member | source | states |
|---|---|---|
| AraHelper.CumulativeSum | sys/net/routing/ara/helper.h:28-35 | writes the cumulative sums of the first `size` inputs into exactly the first `size` output cells; the output cells past `size` and the whole input array keep their values |
| AraHelper.CumSumFirst | sys/net/routing/ara/helper.h:28-35 | the first cumulative sum is the first input |
| AraHelper.CumSumStep | sys/net/routing/ara/helper.h:28-35 | each later cumulative sum is the previous one plus the next input |
| AraHelper.CumSumLast | sys/net/routing/ara/helper.h:28-35 | the last cumulative sum is the total of the inputs |
| AraHelper.CumSumMonotone | sys/net/routing/ara/helper.h:28-35 | for non-negative inputs the cumulative sums never decrease |
| AraHelper.SumNonNegative | sys/net/routing/ara/forwarding.c:45-51 | the total of non-negative pheromone values is non-negative |
| AraHelper.SumScaled | sys/net/routing/ara/forwarding.c:53-55 | dividing every value by `d` divides their total by `d` |
| AraHelper.Scaled | sys/net/routing/ara/forwarding.c:53-55 | every element of the result, multiplied back by `d`, gives the original element |
| AraForwarding.Pheromones | sys/net/routing/ara/forwarding.c:45-51 | the i-th value is the `phi` of the i-th next hop, in list order, one per hop |
| AraForwarding.Probabilities | sys/net/routing/ara/forwarding.c:45-55 | the i-th probability times the pheromone total is the i-th hop's `phi` |
| AraForwarding.ScanIndex | sys/net/routing/ara/forwarding.c:61-68 | the scan stops at the first index from its start whose cumulative value is at least `r`, and at the end of the array only when there is no such index |
| AraForwarding.ProbabilitiesAddUpToOne | sys/net/routing/ara/forwarding.c:53-59 | with a non-zero pheromone total, whatever the signs of the values, the entry has a next hop and the last cumulative probability is exactly 1 |
| AraForwarding.SelectedIndexInRange | sys/net/routing/ara/forwarding.c:61-68 | with a non-zero total and r <= 1, whatever the signs of the `phi` values, the scan stops inside the array, at the smallest index whose cumulative probability reaches `r` |
| AraForwarding.ProbabilitiesNonNegative | sys/net/routing/ara/forwarding.c:53-55 | no normalised probability is negative when no `phi` is |
| AraForwarding.ZeroSelectsFirstHop | sys/net/routing/ara/forwarding.c:61-68 | with r = 0 the first next hop is chosen |
| AraForwarding.RandomNumber | sys/net/routing/ara/forwarding.c:91-95 | the integer division makes the number 0 or 1, and it is 1 exactly when `rand()` returned `RAND_MAX` |
| AraForwarding.Normalise | sys/net/routing/ara/forwarding.c:53-55 | afterwards every cell of the array is the value it held divided by the pheromone total |
| AraForwarding.StochasticForwarding | sys/net/routing/ara/forwarding.c:29-82 | no hop exactly when the entry has at most one next hop or an array cannot be allocated; otherwise the hop at the index the scan of the cumulative probabilities selects, which lies inside the list; the entry is a value and is not changed |
| AraForwarding.ForwardWithRandBelowMax | sys/net/routing/ara/forwarding.c:91-95 | whenever `rand()` returns less than `RAND_MAX`, forwarding takes the first next hop |
| AraEvaporation.DecayedBounds | sys/net/routing/ara/evaporation.c:60-61 | with a factor in [0, 1], each further multiplication keeps a non-negative value non-negative and never increases it |
| AraEvaporation.Evaporation.constructor | sys/net/routing/ara/evaporation.c:22-25 | the four configuration values start at zero |
| AraEvaporation.Evaporation.Init | sys/net/routing/ara/evaporation.c:27-33 | overwrites all four configuration values with the arguments |
| AraEvaporation.Evaporation.Linear | sys/net/routing/ara/evaporation.c:35-53 | no elapsed time returns the input; otherwise old − factor·(elapsed/interval) when that is at least the threshold and exactly 0 when it is below; so the result is 0 or at least the threshold; with a non-negative factor it never exceeds the old value |
| AraEvaporation.Evaporation.Exponential | sys/net/routing/ara/evaporation.c:55-69 | no elapsed time returns the input; otherwise the result is 0 or at least the threshold |
| AraEvaporation.Evaporation.ExponentialOverWholeIntervals | sys/net/routing/ara/evaporation.c:60-65 | over n whole intervals the result is old·factorⁿ, or 0 when that is below the threshold |
| AraEvaporation.Evaporation.ExponentialNeverIncreases | sys/net/routing/ara/evaporation.c:55-69 | with a factor in [0, 1] a non-negative value stays non-negative and never increases |
| AraEvaporation.Evaporation.ExponentialStep | sys/net/routing/ara/evaporation.c:55-69 | decaying one more interval after m intervals equals decaying m + 1 intervals at once, the clamp included |
| AraEvaporation.Evaporation.OneStepEqualsIterated | tests/unittests/tests-ara/tests-ara-evaporation.c:111-128 | with a factor in [0, 1], one call over n intervals equals n successive single-interval calls |
| AraEvaporation.ClampedStep | sys/net/routing/ara/evaporation.c:60-65 | clamping after m multiplications and then multiplying and clamping once more equals clamping after m + 1 multiplications |
| AraEvaporation.LinearScenario | tests/unittests/tests-ara/tests-ara-evaporation.c:16-41 | factor 0.25, threshold 0.75 and interval 2000 give the trace 1.5, 1.5, 1.25, 1.0, 0.75; the value 0.75 is kept because it is not below the threshold |
| AraEvaporation.ExponentialScenario | tests/unittests/tests-ara/tests-ara-evaporation.c:71-81 | factor 0.9 and threshold 0.75 give 1, 0.9, 0.81 and then 0, because 0.729 is below the threshold |
| AraEvaporation.SequentialScenario | tests/unittests/tests-ara/tests-ara-evaporation.c:111-128 | decaying 123 once over ten intervals equals ten single-interval decays |
| AraReinforcement.Reinforcement.constructor | sys/net/routing/ara/reinforcement.c:22 | the increment starts at 0 |
| AraReinforcement.Reinforcement.Init | sys/net/routing/ara/reinforcement.c:24-27 | replaces the stored increment |
| AraReinforcement.Reinforcement.LinearCompute | sys/net/routing/ara/reinforcement.c:29-32 | the result exceeds the old value by exactly the stored increment; no state changes |
| AraReinforcement.Reinforcement.RepeatedAddsMultiple | sys/net/routing/ara/reinforcement.c:29-32 | n reinforcements raise a value by n increments |
| AraReinforcement.ComputeBeforeInit | sys/net/routing/ara/reinforcement.c:22-32 | before any `init`, reinforcement is the identity |
| AraReinforcement.LinearScenario | tests/unittests/tests-ara/tests-ara-reinforcement.c:18-22 | after `init(1.2)`, reinforcing 5.1 gives 6.3 |
| AraReinforcement.ReinitScenario | sys/net/routing/ara/reinforcement.c:24-27 | a later `init` replaces the earlier increment rather than adding to it |
| AraRoutingTable.CompareAddresses | tests/unittests/tests-ara/tests-ara.c:139-142 | the comparison is -1, 0 or 1, and 0 exactly for equal addresses |
| AraRoutingTable.CompareAtFirstDifference | tests/unittests/tests-ara/tests-ara.c:139-142 | two addresses of equal length that agree up to an octet where the first is smaller compare as -1 |
| AraRoutingTable.CompareAntisymmetric | tests/unittests/tests-ara/tests-ara.c:139-142 | swapping the two addresses negates the comparison |
| AraRoutingTable.AddNextHop | tests/unittests/tests-ara/tests-ara.c:73-75 | a hop whose address the entry already has leaves the entry unchanged; any other hop is appended, growing the size by one; the destination is kept |
| AraRoutingTable.DelNextHops | tests/unittests/tests-ara/tests-ara.c:171-176 | the entry keeps its destination and its size becomes 0 |
| AraRoutingTable.AddNextHopKeepsAddressesUnique | tests/unittests/tests-ara/tests-ara.c:73-75 | adding a next hop never gives two hops the same address |
| AraRoutingTable.AddNextHopTwice | tests/unittests/tests-ara/tests-ara.c:73-75 | adding the same hop twice to an empty entry leaves size 1 |
| AraRoutingTable.NextHopScenario | tests/unittests/tests-ara/tests-ara.c:171-176 | one hop added to an empty entry gives size 1, and deleting the hops gives 0 |
| AraRoutingTable.CompareScenario | tests/unittests/tests-ara/tests-ara.c:139-142 | each test address compares as 0 with itself, and the first compares as -1 with the second |
| AraRoutingTable.RoutingTable.constructor | sys/net/routing/ara/routingtable.c:22 | 256 zeroed slots and no entries |
| AraRoutingTable.RoutingTable.Init | sys/net/routing/ara/routingtable.c:24-28 | every one of the 256 slots is zeroed |
| AraRoutingTable.RoutingTable.SlotEntry | sys/net/routing/ara/routingtable.c:41-45 | no destination has an entry |
| AraRoutingTable.RoutingTable.SlotNextHop | sys/net/routing/ara/routingtable.c:30-39 | no destination has a next hop, whatever the entry lookup returns |
| AraRoutingTable.RoutingTable.Size | tests/unittests/tests-ara/tests-ara-routingtable.c:34-46 | the number of destinations is zero exactly when the table holds no entry |
| AraRoutingTable.RoutingTable.EntryExists | tests/unittests/tests-ara/tests-ara-routingtable.c:35-47 | a destination with an entry makes the table non-empty |
| AraRoutingTable.RoutingTable.GetEntry | tests/unittests/tests-ara/tests-ara.c:33-44 | an entry is returned exactly when one exists for the destination; it is the stored entry, and in a table keyed by destination it has that destination |
| AraRoutingTable.RoutingTable.IsDeliverable | tests/unittests/tests-ara/tests-ara.c:104-110 | a destination is deliverable exactly when it has an entry with at least one next hop |
| AraRoutingTable.RoutingTable.AddEntry | tests/unittests/tests-ara/tests-ara-routingtable.c:30-42 | stores the entry under its destination unless that destination is present, never overwriting; the slots are untouched and keying by destination is kept |
| AraRoutingTable.RoutingTable.DelEntry | tests/unittests/tests-ara/tests-ara-routingtable.c:44-47 | removes exactly the entry's destination; keying by destination is kept |
| AraRoutingTable.RoutingTable.Clear | tests/unittests/tests-ara/tests-ara.c:16-19 | leaves no entries |
| AraRoutingTable.AddDeleteScenario | tests/unittests/tests-ara/tests-ara-routingtable.c:30-47 | two distinct destinations give sizes 1 and then 2, each exists, and after deleting the second the size is 1 and it no longer exists |
| AraRoutingTable.GetEntryScenario | tests/unittests/tests-ara/tests-ara.c:33-44 | no entry before `add_entry`, the entry after it, and size 0 after `del_entry` |
| AraRoutingTable.DeliverabilityScenario | tests/unittests/tests-ara/tests-ara.c:104-110 | not deliverable without an entry, and not deliverable for an entry without next hops |
| AraPacketTrap.PacketTrap.constructor | sys/net/routing/ara/packettrap.c:21 | the trap starts empty |
| AraPacketTrap.PacketTrap.Init | sys/net/routing/ara/packettrap.c:23-26 | the trap is unchanged |
| AraPacketTrap.PacketTrap.TrapPacket | sys/net/routing/ara/packettrap.c:28-31 | the trap is unchanged |
| AraPacketTrap.PacketTrap.Contains | sys/net/routing/ara/packettrap.c:33-36 | always false |
| AraPacketTrap.PacketTrap.Count | sys/net/routing/ara/packettrap.c:38-55 | 255 when the destination has no entry or a NULL packet list; otherwise the number of packets in its list, modulo 256; the trap is read and not changed |
| AraPacketTrap.EmptyTrapScenario | sys/net/routing/ara/packettrap.c:21-36 | a trap used through its interface contains nothing and counts 255 for every destination |
| AraPacket.IsAntPacket | sys/net/routing/ara/packet.h:42-51 | true for FANT and BANT; false for DATA, ROUTE_FAILURE and every other value |
| AraPacket.TypeAsString | sys/net/routing/ara/packet.c:21-35 | "DATA", "FANT", "BANT" and "ROUTE FAILURE" for 0 to 3, and "UNKNOWN" for every other value |
| AraPacket.TypeNamesDistinct | sys/net/routing/ara/packet.c:21-35 | the four packet types have four different names, none of them "UNKNOWN" |
| AraPacket.AntPacketNames | sys/net/routing/ara/packet.h:42-51 | a value is an ant packet exactly when its name is "FANT" or "BANT" |
| AraPacket.MakePacket | sys/net/routing/ara/packet.c:64-85 | a packet exactly when both allocations succeed; the payload is released exactly when the payload was allocated and the header was not; the packet is IPv6 from `source` to `destination` over the first `dataSize` data bytes |
| AraPacket.MakeFant | sys/net/routing/ara/packet.c:37-40 | when built, an empty IPv6 packet carrying exactly the given source and destination |
| AraPacket.MakeRouteFailure | sys/net/routing/ara/packet.c:42-45 | when built, an empty IPv6 packet carrying exactly the given source and destination |
| AraPacket.MakeBant | sys/net/routing/ara/packet.c:47-61 | NULL for a packet that is not IPv6; otherwise, when built, an empty packet from the original destination back to the original source |
| AraPacket.FantAndRouteFailureCoincide | sys/net/routing/ara/packet.c:64-85 | a forward ant and a route failure between the same addresses are the same packet, because the type is not used |
| AraPacket.BantOfBantRestoresDirection | sys/net/routing/ara/packet.c:47-61 | the backward ant of a backward ant runs in the original direction |
| AraPacket.BantAnswersFant | sys/net/routing/ara/packet.c:37-61 | the backward ant answering a forward ant runs from its destination to its source |
| AraPacket.PreparePayload | sys/net/routing/ara/packet.c:87-90 | always NULL |
| CTypes.Increment16 | sys/net/application_layer/mqttsn/mqttsn.c:18 | the post-increment of the 16-bit counter adds one and wraps from 0xFFFF to 0 |
| CTypes.HostOrderReadAsNetworkOrder | sys/net/application_layer/mqttsn/mqttsn.c:175 | a 16-bit value stored in host order and read in network order has its octets exchanged, and is unchanged exactly when its two octets are equal |
| CTypes.StrnlenOfPrefix | sys/net/application_layer/mqttsn/mqttsn.c:110 | `strnlen` stops at the first NUL or at its bound |
| MqttsnMessages.QosFlag | sys/net/application_layer/mqttsn/mqttsn.c:21-35 | 0x00, 0x20, 0x40 and 0x60 for QoS 0, 1, 2 and -1, and 0 for every other value; the result only uses bits 6-5 |
| MqttsnMessages.QosFlagRoundTrip | sys/net/application_layer/mqttsn/mqttsn.h:82-85 | bits 6-5 of each QoS flag read back as its QoS level |
| MqttsnMessages.PublishFlagsFields | sys/net/application_layer/mqttsn/mqttsn.c:294-300 | the PUBLISH flags octet fits an octet, and its QoS, RETAIN and TopicIdType fields each read back as given |
| MqttsnMessages.ConnectPacket | sys/net/application_layer/mqttsn/mqttsn.c:91-119 | the packet is 6 + n octets and its Length field says so; its type is CONNECT |
| MqttsnMessages.ConnectRoundTrip | sys/net/application_layer/mqttsn/mqttsn.c:99-119 | a CONNECT reads back with flags 0x04 or 0, protocol id 1, the duration and the client id |
| MqttsnMessages.DisconnectPacket | sys/net/application_layer/mqttsn/mqttsn.c:130-143 | exactly the octets 2, 0x18 |
| MqttsnMessages.DisconnectRoundTrip | sys/net/application_layer/mqttsn/mqttsn.c:130-143 | a DISCONNECT reads back as a DISCONNECT |
| MqttsnMessages.PingRequestPacket | sys/net/application_layer/mqttsn/mqttsn.c:145-154 | exactly the octets 2, 0x16 |
| MqttsnMessages.PingRequestRoundTrip | sys/net/application_layer/mqttsn/mqttsn.c:145-154 | a PINGREQ reads back as a PINGREQ |
| MqttsnMessages.RegisterPacket | sys/net/application_layer/mqttsn/mqttsn.c:166-191 | the packet is 6 + n octets and its Length field says so; its type is REGISTER |
| MqttsnMessages.RegisterRoundTrip | sys/net/application_layer/mqttsn/mqttsn.c:173-191 | a REGISTER reads back with its msg id and name, but with the topic id's octets exchanged, since the id is not converted with `HTONS`; the id survives exactly when its two octets are equal |
| MqttsnMessages.RegackPacket | sys/net/application_layer/mqttsn/mqttsn.c:196-209 | the packet is 7 octets, its Length field says so, its type is REGACK and its return code is "accepted" |
| MqttsnMessages.RegackRoundTrip | sys/net/application_layer/mqttsn/mqttsn.c:196-209 | a REGACK reads back with its topic id, its msg id and return code 0 |
| MqttsnMessages.SubscribeTopicIdPacket | sys/net/application_layer/mqttsn/mqttsn.c:211-233 | the packet is 7 octets and its Length field says so; its type is SUBSCRIBE; its flags carry the QoS bits and TopicIdType 1 |
| MqttsnMessages.SubscribeTopicIdRoundTrip | sys/net/application_layer/mqttsn/mqttsn.c:211-233 | a SUBSCRIBE by id reads back as one by id, with its QoS, msg id and topic id |
| MqttsnMessages.SubscribeTopicNamePacketAsWritten | sys/net/application_layer/mqttsn/mqttsn.c:246-268 | the packet is 5 + n octets and its Length field says so; its type is SUBSCRIBE |
| MqttsnMessages.SubscribeShortNameAsWritten | sys/net/application_layer/mqttsn/mqttsn.c:257-263 | as written, a two-character name gives TopicIdType 0 and sets the RETAIN bit |
| MqttsnMessages.SubscribeTopicNamePacketsAgree | sys/net/application_layer/mqttsn/mqttsn.c:257-263 | the SUBSCRIBE by name as written and the corrected one are the same packet exactly when the name does not have two characters |
| MqttsnMessages.SubscribeTopicNamePacket | sys/net/application_layer/mqttsn/mqttsn.c:246-268 | the packet is 5 + n octets and its Length field says so; its type is SUBSCRIBE |
| MqttsnMessages.SubscribeTopicNameRoundTrip | sys/net/application_layer/mqttsn/mqttsn.c:246-268 | a SUBSCRIBE by name reads back as one by name, with its QoS, msg id and name, RETAIN clear, and TopicIdType 0b10 for a two-character name and 0 otherwise |
| MqttsnMessages.PublishPacket | sys/net/application_layer/mqttsn/mqttsn.c:289-305 | the packet is 7 + n octets and its Length field says so; its type is PUBLISH |
| MqttsnMessages.PublishRoundTrip | sys/net/application_layer/mqttsn/mqttsn.c:289-305 | a PUBLISH reads back with its QoS, RETAIN set exactly for a non-zero `retain`, the low two bits of the topic type, the topic id, the msg id and the data |
| MqttsnMessages.RegisterReplyIdAsWritten | sys/net/application_layer/mqttsn/mqttsn.c:313 | as written, the echoed msg id is the received one modulo 256 |
| MqttsnMessages.RegackEchoesRegisterMsgId | sys/net/application_layer/mqttsn/mqttsn.c:311-333 | the REGACK answering a REGISTER reads back with that REGISTER's whole msg id |
| MqttsnMessages.RegisterReplyIdDropsHighOctet | sys/net/application_layer/mqttsn/mqttsn.c:313 | as written, a REGISTER with msg id 0x0100 is answered with msg id 0x0000 |
| MqttsnMessages.RegisterReplyIdsAgree | sys/net/application_layer/mqttsn/mqttsn.c:313 | the reply id as written and the corrected one agree exactly when the REGISTER's msg id is below 256 |
| MqttsnMessages.HandleRegackMsg | sys/net/application_layer/mqttsn/mqttsn.c:335-353 | for a packet that decodes as a REGACK, the topic id returned is the one the REGACK carries |
| MqttsnMessages.HandleRegackRoundTrip | sys/net/application_layer/mqttsn/mqttsn.c:335-353 | handling a REGACK returns the topic id it carries |
| MqttsnTopic.ValidIdentifier | sys/net/application_layer/mqttsn/topic.c:47-50 | true exactly for 0x0000 and 0x0004 |
| MqttsnTopic.ValidName | sys/net/application_layer/mqttsn/topic.c:52-66 | true exactly for a non-NULL name |
| MqttsnTopic.StoredNameReadsBack | sys/net/application_layer/mqttsn/topic.c:37-44 | the 249 stored cells read back as a C string give the name's first 249 characters |
| MqttsnTopic.NoThreeDistinctValidIdentifiers | sys/net/application_layer/mqttsn/topic.c:47-50 | three valid ids cannot all differ |
| MqttsnTopic.TopicRegistry.constructor | sys/net/application_layer/mqttsn/topic.c:6 | the list starts empty |
| MqttsnTopic.TopicRegistry.Init | sys/net/application_layer/mqttsn/topic.c:8-11 | the list is unchanged |
| MqttsnTopic.TopicRegistry.Contains | sys/net/application_layer/mqttsn/topic.c:68-75 | true exactly when the id is in the list |
| MqttsnTopic.TopicRegistry.Get | sys/net/application_layer/mqttsn/topic.c:77-87 | NULL exactly when the id is not in the list; otherwise the name of the first entry with that id |
| MqttsnTopic.TopicRegistry.Add | sys/net/application_layer/mqttsn/topic.c:13-45 | succeeds exactly for a valid id, a non-NULL name and an id not yet present, and then appends the id with the name's 249 `strncpy` cells; otherwise the list is unchanged; valid, unique ids are kept |
| MqttsnTopic.TopicRegistry.Clear | sys/net/application_layer/mqttsn/topic.c:89-97 | the list is empty and no id is in it |
| MqttsnTopic.TopicRegistry.AtMostTwoTopics | sys/net/application_layer/mqttsn/topic.c:13-50 | a list with valid, unique ids holds at most two entries |
| MqttsnTopic.AddGetScenario | sys/net/application_layer/mqttsn/topic.c:13-87 | adding id 4 succeeds, the id is then found and its name reads back, and adding it again fails |
| MqttsnTopic.RefuseAndClearScenario | sys/net/application_layer/mqttsn/topic.c:16-97 | an id other than 0x0000 and 0x0004 is refused, and after `clear` no id is found |
| MqttsnClient.Client.constructor | sys/net/application_layer/mqttsn/mqttsn.c:18 | the msg-id counter starts at 1 and nothing has been sent |
| MqttsnClient.Client.Send | sys/net/application_layer/mqttsn/communication.c:50-58 | appends as many octets of the packet as its first octet says, and the whole packet when that is its length |
| MqttsnClient.Client.Connect | sys/net/application_layer/mqttsn/mqttsn.c:78-128 | sends the CONNECT with the first `length` id octets exactly when the id is not NULL, at most 23 long and its `strnlen` equals the length; nothing otherwise; no msg id is used |
| MqttsnClient.Client.Disconnect | sys/net/application_layer/mqttsn/mqttsn.c:130-143 | sends the DISCONNECT packet and uses no msg id |
| MqttsnClient.Client.PingRequest | sys/net/application_layer/mqttsn/mqttsn.c:145-154 | sends the PINGREQ packet and uses no msg id |
| MqttsnClient.Client.Register | sys/net/application_layer/mqttsn/mqttsn.c:156-194 | a NULL or too long name uses no msg id and sends nothing; any other name uses one msg id; the REGISTER stamped with the old id is sent exactly when `strnlen` agrees with the length |
| MqttsnClient.Client.RegisterAcknowledgement | sys/net/application_layer/mqttsn/mqttsn.c:196-209 | sends the accepting REGACK and uses no msg id |
| MqttsnClient.Client.SubscribeTopicId | sys/net/application_layer/mqttsn/mqttsn.c:211-233 | always sends the SUBSCRIBE stamped with the current msg id and uses that id |
| MqttsnClient.Client.SubscribeTopicName | sys/net/application_layer/mqttsn/mqttsn.c:235-269 | a `strnlen` mismatch sends nothing and uses no msg id; otherwise the SUBSCRIBE by name, stamped with the current id, is sent and the id is used; the packet is the corrected one of the Findings table, and for a name of other than two characters it is the packet mqttsn.c:257-263 builds |
| MqttsnClient.Client.Publish | sys/net/application_layer/mqttsn/mqttsn.c:271-308 | NULL data, more than 248 octets or a `strnlen` mismatch sends nothing and uses no msg id; otherwise the PUBLISH stamped with the current id is sent and the id is used |
| MqttsnClient.Client.HandleRegisterMsg | sys/net/application_layer/mqttsn/mqttsn.c:311-333 | registers the received topic id under "TODO" when `add` accepts it and leaves the registry as it was otherwise; always answers with a REGACK for that topic id and the REGISTER's whole msg id, the corrected reply of the Findings table; for a msg id below 256 that is the REGACK mqttsn.c:313-331 sends; the counter is unchanged |
| MqttsnClient.Client.HandleDisconnectMsg | sys/net/application_layer/mqttsn/mqttsn.c:362-371 | changes nothing |
| MqttsnClient.MessageIdScenario | sys/net/application_layer/mqttsn/mqttsn.c:177-301 | a fresh client stamps 1 on its first REGISTER; a REGISTER with a mismatched length uses up 2 and sends nothing; a refused PUBLISH uses nothing; the next PUBLISH stamps 3 |
| MqttsnClient.HandleRegisterScenario | sys/net/application_layer/mqttsn/mqttsn.c:311-333 | a REGISTER for topic 4 with msg id 0x0100 registers the topic; the modelled client answers with the corrected REGACK for topic 4 and msg id 0x0100, while the REGACK the C code builds for it carries msg id 0x0000 |
| MqttsnGateway.GatewayList.constructor | sys/net/application_layer/mqttsn/gateway.c:21 | the list starts empty |
| MqttsnGateway.GatewayList.Init | sys/net/application_layer/mqttsn/gateway.c:23-27 | the list is unchanged |
| MqttsnGateway.GatewayList.Contains | sys/net/application_layer/mqttsn/gateway.c:65-74 | always false |
| MqttsnGateway.GatewayList.Add | sys/net/application_layer/mqttsn/gateway.c:29-49 | always succeeds and appends an entry with the given id, a copy of the address and the duration, even for an address already listed |
| MqttsnGateway.GatewayList.MostRecentEntry | sys/net/application_layer/mqttsn/gateway.c:52-55 | always NULL |
| MqttsnGateway.GatewayList.Size | sys/net/application_layer/mqttsn/gateway.c:78-86 | the number of entries modulo 256, without changing the list |
| MqttsnGateway.GatewayList.Clear | sys/net/application_layer/mqttsn/gateway.c:88-95 | the list is empty |
| MqttsnGateway.GatewayScenario | tests/unittests/tests-mqttsn/tests-mqttsn-gateway.c:104-108 | sizes 0, then 1 after an add, 2 after adding the same address again, and 0 after `clear`; both adds succeed |
| MqttsnWill.SetCharArray | sys/net/application_layer/mqttsn/will.c:56-69 | 255 and nothing written when the source length exceeds the destination length; otherwise 0, the first `length - 1` cells hold the `strncpy` copy, cell `length - 1` is NUL and the rest is unchanged |
| MqttsnWill.Will.constructor | sys/net/application_layer/mqttsn/will.c:26-28 | two distinct zeroed buffers of the configured sizes |
| MqttsnWill.Will.Init | sys/net/application_layer/mqttsn/will.c:45-54 | the topic buffer holds the copy of a non-NULL topic that fits and is unchanged otherwise; likewise the message buffer |
| MqttsnWill.Will.MessageSize | sys/net/application_layer/mqttsn/will.c:71-74 | the message buffer's fixed size modulo 256, not a stored length |
| MqttsnWill.Will.TopicSize | sys/net/application_layer/mqttsn/will.c:76-79 | the topic buffer's fixed size modulo 256, not a stored length |
| MqttsnWill.Will.GetMessage | sys/net/application_layer/mqttsn/will.c:81-84 | the message buffer itself |
| MqttsnWill.Will.GetTopic | sys/net/application_layer/mqttsn/will.c:86-90 | the topic buffer itself |
| MqttsnWill.WillScenario | tests/unittests/tests-mqttsn/tests-mqttsn-will.c:33-47 | storing "some topic" with length 10 keeps its first nine characters and a NUL; the sizes stay those of the buffers; a topic too long for its buffer is refused with 255 |
| MqttsnWill.StrncpyCellsOfPrefix | sys/net/application_layer/mqttsn/will.c:59 | copying n cells from a string with at least n characters copies exactly those n characters |
| MqttsnDevice.LittleEndian32RoundTrip | sys/net/application_layer/mqttsn/device.c:64-75 | the four octets `create` writes read back as the drawn random number |
| MqttsnDevice.Validate | sys/net/application_layer/mqttsn/device.c:45-62 | 255 exactly when the length exceeds 252, and 0 otherwise, even for a NULL id or a zero length |
| MqttsnDevice.Device.constructor | sys/net/application_layer/mqttsn/device.c:28-29 | a zeroed 252-octet buffer and length 0 |
| MqttsnDevice.Device.Create | sys/net/application_layer/mqttsn/device.c:64-75 | the buffer holds the random number's four octets followed by 248 zeros, and the length is 4 |
| MqttsnDevice.Device.Init | sys/net/application_layer/mqttsn/device.c:32-43 | a valid length copies exactly `length` octets, stores the length and leaves the other octets; an invalid one creates a random id; the stored length never exceeds 252 |
| MqttsnDevice.Device.NodeLength | sys/net/application_layer/mqttsn/device.c:77-80 | the stored length, never above 252, without changing state |
| MqttsnDevice.Device.Node | sys/net/application_layer/mqttsn/device.c:82-85 | the id buffer itself |
| MqttsnDevice.DeviceScenario | sys/net/application_layer/mqttsn/device.c:32-75 | a too long id is replaced by a four-octet random id that reads back as the drawn number; a valid two-octet id is kept with length 2 |
| MqttsnDebug.ReturnCodeToString | sys/net/application_layer/mqttsn/debug.c:23-32 | the four return codes map to their strings, spelling included, and exactly the other values map to "reserved" |
| MqttsnDebug.ReturnCodeNamesDistinct | sys/net/application_layer/mqttsn/debug.c:23-32 | each of the four return codes has a name of its own |
| MqttsnDebug.MessageTypeToString | sys/net/application_layer/mqttsn/debug.c:34-66 | exactly ENCMSG and the undefined values map to "UNKNOWN MESSSAGE TYPE"; CONNECT, CONNACK and WILLMSGUPD keep the spellings "CONECT", "CONACK" and "WILMSGUPD" |
| MqttsnDebug.MessageTypeNamesDistinct | sys/net/application_layer/mqttsn/debug.c:34-63 | every defined message type other than ENCMSG has a name of its own |

## Left out

- Memory management is not modelled: freeing the two temporary arrays in forwarding, releasing packet buffers beyond the `payloadReleased` flag, and the list nodes. Dafny has no `free`, so the property that every array allocated in forwarding is freed on every path is not stated.
- IEEE floating-point is not modelled: rounding, NaN from a zero pheromone total, division by a zero interval, and `pow` with a fractional exponent. Values are exact reals.
- AraEvaporation.Evaporation.Exponential: stated only for a whole number of intervals, because `pow` with a fractional exponent has no exact real counterpart.
- AraEvaporation.Evaporation.Linear: bounds the result by the old value, but not from below by 0, because the threshold may be negative.
- AraEvaporation.Evaporation.Linear: requires a non-zero interval whenever time has elapsed, because the C code divides by it.
- AraForwarding.StochasticForwarding: requires a non-zero pheromone total, because a zero total is the IEEE NaN case left out above. It also requires a random number of at most 1, because a larger one makes the C scan read past the array.
- AraForwarding.StochasticForwarding: bounds the next-hop count by 255, because the 8-bit `size` and loop index cannot count further.
- AraForwarding.StochasticForwarding: `ara_get_next_hop_entry` (forwarding.c:73) is not defined in this revision; it is modelled as the lookup of the `node_index`-th next hop in list order.
- AraHelper.CumulativeSum: `cumsum` is only declared at helper.h:35 and has no definition in this revision. The loop is modelled from its documented behaviour: output cell i holds the sum of input cells 0 to i.
- AraForwarding.StochasticForwarding: `ara_cum_sum` (forwarding.c:61) is not defined in this revision; it is modelled as the `cumsum` that helper.h:35 declares, `AraHelper.CumulativeSum`.
- AraForwarding.StochasticForwarding: uses the entry's number of next hops as its `size` field, which the C code keeps separately.
- Seeding the random number generators from the clock is not modelled: `srand` with `vtimer` in forwarding, and `random_init` with `xtimer` in device.c. The random values are parameters instead.
- The printf dumps of the routing table are not modelled: they are output only.
- The return type of `routingtable_get_entry` does not match its `NULL` result. The model returns "no entry".
- The test-defined routing-table operations are modelled on a destination-keyed map. Their C definitions are not part of this model.
- The FIFO order documented for trapped packets is not modelled: nothing in the code stores packets.
- The internals of `gnrc_pktbuf` are not modelled. Only whether each allocation succeeds is kept.
- `communication.c` is not modelled: UDP and IPv6 header building and dispatch. `mqttsn_send` is the append to the `sent` log.
- The thread, the event loop, message dispatch on reception and the `data.c` callbacks are not modelled: these are operating-system glue.
- The OpenWSN socket adapter and the demo programs are not part of this model.
- MqttsnClient.Client.Connect: builds and sends the CONNECT the code evidently intends. As written, `memset(&connect_packet, 0, sizeof(connect_packet))` (mqttsn.c:96) sets the pointer itself to NULL. The field writes at mqttsn.c:99-108, the `memcpy` at :119 and `mqttsn_send` at :127 then all go through a NULL pointer, and `data` is never written. That undefined behaviour is not modelled.
- The WILL flag of CONNECT is never set by the code, so it is left out, as are the connect test's expectations of it.
- `mqttsn_topic_add` and `mqttsn_gateway_add` append the address of a stack variable to a static list. The model keeps the lists by value, so the dangling entries are not modelled.
- `mqttsn_handle_register_acknowledgement_msg` applies `NTOHS` to a one-octet return code, but nothing depends on the result. The model keeps only the returned topic id.
- MqttsnClient.Client.SubscribeTopicName: sends the corrected SUBSCRIBE of the Findings table. For a two-character name it carries TopicIdType 0b10, where mqttsn.c:259-260 adds 0x10 and so sends TopicIdType 0 with the RETAIN bit set. For every other name the two packets are equal (`MqttsnMessages.SubscribeTopicNamePacketsAgree`).
- MqttsnClient.Client.HandleRegisterMsg: answers with the REGISTER's whole 16-bit msg id, the corrected reply of the Findings table. mqttsn.c:313 keeps only the low octet, so for a msg id of 256 or more the C code sends a different REGACK. Below 256 the two agree (`MqttsnMessages.RegisterReplyIdsAgree`).
- MqttsnClient.HandleRegisterScenario: its `reply` is the corrected REGACK. The REGACK the C code builds is the separate result `sourceReply`.
- MqttsnClient.Client.SubscribeTopicName: takes a name that is never NULL. The C code passes NULL straight to `strnlen`.
- MqttsnDevice.Device.Init: requires a non-NULL id holding at least `length` octets when 0 < length <= 252. `mqttsn_device_validate` also accepts a NULL id with such a length (device.c:53-61), and the `memcpy` at device.c:36 then reads through NULL. That undefined behaviour is not modelled.
- MqttsnWill.SetCharArray: requires a source length of at least 1, because length 0 passes the check but makes `strncpy` copy `SIZE_MAX` cells.
- `MQTTSN_DEFAULT_WILL_TOPIC_SIZE` and `MQTTSN_DEFAULT_WILL_MESSAGE_SIZE` are not defined in the headers of this revision, so the buffer sizes are constructor parameters.
- In a few cases headers and definitions disagree. The model follows the definitions in the `.c` files: the evaporation and gateway signatures, the WILL flag, and the packet-trap count.
- Some unit tests contradict the code or each other, so they are not made into properties:
  - the first call of the exponential test at tests/unittests/tests-ara/tests-ara-evaporation.c:68-69, which expects no change although it passes a full 2000 ms interval;
  - the deliverability expectations at tests/unittests/tests-ara/tests-ara.c:110 against 116;
  - the gateway tests at tests/unittests/tests-mqttsn/tests-mqttsn-gateway.c:51-53, 71 and 89, which expect `contains` to find an added address although it always returns false;
  - the WILL size test at tests/unittests/tests-mqttsn/tests-mqttsn-will.c:29-30.

## Findings

| source | as written | input that shows it | evidently intended | confidence | as-written member | corrected member |
|---|---|---|---|---|---|---|
| sys/net/application_layer/mqttsn/mqttsn.c:313 | the REGISTER's msg id is stored in a `uint8_t` before it is echoed in the REGACK | a REGISTER with msg id 0x0100 is answered by a REGACK with msg id 0x0000 | the REGACK echoes the whole 16-bit msg id (section 5.4.11 of MQTT-SN v1.2) | high; not executed | MqttsnMessages.RegisterReplyIdDropsHighOctet | MqttsnMessages.RegackEchoesRegisterMsgId |
| sys/net/application_layer/mqttsn/mqttsn.h:95 | a two-character topic name adds `MQTTSN_TOPIC_TYPE_SHORT` = 0x10 to the SUBSCRIBE flags (mqttsn.c:259-260) | a SUBSCRIBE for the name "ab" carries TopicIdType 0 and sets the RETAIN bit | TopicIdType 0b10 in bits 1-0 (section 5.3.4 of MQTT-SN v1.2) | high; not executed | MqttsnMessages.SubscribeShortNameAsWritten | MqttsnMessages.SubscribeTopicNameRoundTrip |

The client uses the corrected definitions, `MqttsnMessages.RegisterReplyId` and `MqttsnMessages.SubscribeTopicNamePacket`. The lines for `MqttsnClient.Client.SubscribeTopicName`, `MqttsnClient.Client.HandleRegisterMsg` and `MqttsnClient.HandleRegisterScenario` under "## Left out" say where this differs from the C code.
