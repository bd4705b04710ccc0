/**
 * The device session `IoTVP` of iotvp.cpp/iotvp.h: a token-prefixed
 * serializer, four topics derived from the device id, and a table of 256
 * callback chains indexed by the first byte of an inbound command.
 */
module IoTVPSession {
  import opened CoreTypes
  import opened Serializator
  import opened Callbacks

  /** Length of the device token that prefixes every outbound message. */
  const TOKEN_SIZE: uint8 := 32
  /** Slots in the callback table; 256 makes every `uint8_t` vector a valid slot. */
  const MAX_VECTOR: nat := 256
  /** Broker port. */
  const PORT: uint16 := 8883

  /** One `publish(topic, payload, length)` seen by the transport. */
  datatype Message = Message(topic: string, payload: seq<uint8>)

  /**
   * The publish-subscribe transport, reduced to what the session asks of it:
   * the port it is pointed at and the messages handed to it, in order.
   */
  class MqttClient {
    var serverPort: uint16
    var published: seq<Message>

    constructor ()
      ensures published == []
    {
      serverPort := 0;
      published := [];
    }

    method SetServer(port: uint16)
      modifies this
      ensures serverPort == port && published == old(published)
    {
      serverPort := port;
    }

    method Publish(topic: string, payload: seq<uint8>)
      modifies this
      ensures published == old(published) + [Message(topic, payload)]
      ensures serverPort == old(serverPort)
    {
      published := published + [Message(topic, payload)];
    }
  }

  /** For each vector, the handlers its chain runs, head first. */
  type Registry = seq<seq<Callback>>

  function EmptyRegistry(): (r: Registry)
    ensures |r| == MAX_VECTOR
    ensures forall v :: 0 <= v < MAX_VECTOR ==> r[v] == []
  {
    seq(MAX_VECTOR, _ => [])
  }

  /** `addCallback(v, h)`: `h` becomes the head of slot `v`, in front of the old chain. */
  function Register(chains: Registry, v: uint8, h: Callback): (r: Registry)
    requires |chains| == MAX_VECTOR
    ensures |r| == MAX_VECTOR
    ensures r[v] == [h] + chains[v]
    ensures forall w :: 0 <= w < MAX_VECTOR && w != v ==> r[w] == chains[w]
  {
    chains[v := [h] + chains[v]]
  }

  /** Registering `hs` for `v`, in order. */
  function RegisterAll(chains: Registry, v: uint8, hs: seq<Callback>): (r: Registry)
    requires |chains| == MAX_VECTOR
    ensures |r| == MAX_VECTOR
    decreases |hs|
  {
    if hs == [] then chains else RegisterAll(Register(chains, v, hs[0]), v, hs[1..])
  }

  function Reverse<T>(s: seq<T>): (r: seq<T>)
    ensures |r| == |s|
    ensures forall i :: 0 <= i < |s| ==> r[i] == s[|s| - 1 - i]
    decreases |s|
  {
    if s == [] then [] else Reverse(s[1..]) + [s[0]]
  }

  /**
   * Handlers registered for one vector in the order `hs` end up in its chain
   * most-recent-first, in front of what was there; other slots are untouched.
   */
  lemma {:induction false} RegisterAllOrder(chains: Registry, v: uint8, hs: seq<Callback>)
    requires |chains| == MAX_VECTOR
    ensures RegisterAll(chains, v, hs)[v] == Reverse(hs) + chains[v]
    ensures forall w :: 0 <= w < MAX_VECTOR && w != v ==> RegisterAll(chains, v, hs)[w] == chains[w]
    decreases |hs|
  {
    if hs != [] {
      var c1 := Register(chains, v, hs[0]);
      RegisterAllOrder(c1, v, hs[1..]);
      assert Reverse(hs) == Reverse(hs[1..]) + [hs[0]];
    }
  }

  /**
   * `receiveCallback` on `payload`: the first byte selects the slot, and its
   * chain runs on the rest of the payload.
   */
  function Dispatch(chains: Registry, payload: seq<uint8>): (r: seq<Entry>)
    requires |chains| == MAX_VECTOR && 1 <= |payload|
    ensures |r| == |chains[payload[0]]|
    ensures forall i :: 0 <= i < |r| ==> r[i].handler == chains[payload[0]][i] && r[i].body == payload[1..]
  {
    var r := Runs(chains[payload[0]], payload[1..]);
    assert forall i :: 0 <= i < |r| ==> r[i] == Entry(chains[payload[0]][i], payload[1..]) by {
      forall i | 0 <= i < |r| {
        RunsAt(chains[payload[0]], payload[1..], i);
      }
    }
    r
  }

  /** A command for a vector that has no chain runs nothing. */
  lemma DispatchUnregistered(chains: Registry, payload: seq<uint8>)
    requires |chains| == MAX_VECTOR && 1 <= |payload|
    requires chains[payload[0]] == []
    ensures Dispatch(chains, payload) == []
  {
  }

  /**
   * Registering `hs` in order on an empty table and then receiving a command
   * for that vector runs every handler exactly once, most recent first, each
   * on the command body.
   */
  lemma DispatchMostRecentFirst(v: uint8, hs: seq<Callback>, body: seq<uint8>)
    ensures Dispatch(RegisterAll(EmptyRegistry(), v, hs), [v] + body) == Runs(Reverse(hs), body)
  {
    RegisterAllOrder(EmptyRegistry(), v, hs);
    assert ([v] + body)[0] == v && ([v] + body)[1..] == body;
    assert Reverse(hs) + [] == Reverse(hs);
  }

  /** The command topic is never one of the device's outbound topics. */
  lemma CommandTopicIsNotOutbound(id: string, suffix: string)
    ensures "cmd/" + id != "data/" + id + "/" + suffix
    ensures "cmd/" + id != "debug/" + id + "/" + suffix
    ensures "cmd/" + id != "status/" + id + "/" + suffix
  {
    assert ("cmd/" + id)[0] == 'c';
    assert ("data/" + id + "/" + suffix)[0] == 'd';
    assert ("debug/" + id + "/" + suffix)[0] == 'd';
    assert ("status/" + id + "/" + suffix)[0] == 's';
  }

  /** `IoTVP`. */
  class IoTVP {
    var topicData: string
    var topicDebug: string
    var topicStatus: string
    var topicCommand: string
    var deviceId: string
    var deviceToken: seq<uint8>
    var callbackList: array<Callback?>
    var data: BinarySerializator
    var mqttClient: MqttClient
    /** The chain each slot of `callbackList` heads. */
    ghost var chains: Registry
    /** Every handler registered in some slot. */
    ghost var registered: set<Callback>

    /**
     * The serializer's floor is the token length, the cursor lies within the
     * buffer, and every non-null slot heads an acyclic chain of registered
     * handlers.
     */
    ghost predicate Valid()
      reads this, data, callbackList, registered
    {
      && data.start == TOKEN_SIZE
      && TOKEN_SIZE as int <= data.buffer.Length
      && data.index <= data.buffer.Length
      && callbackList.Length == MAX_VECTOR
      && |chains| == MAX_VECTOR
      && (forall v, n :: 0 <= v < MAX_VECTOR && n in chains[v] ==> n in registered)
      && (forall v :: 0 <= v < MAX_VECTOR ==> (callbackList[v] == null <==> chains[v] == []))
      && (forall v :: 0 <= v < MAX_VECTOR && chains[v] != [] ==>
            chains[v][0] == callbackList[v] && IsChain(chains[v]))
    }

    /**
     * `IoTVP(client, deviceId, deviceToken, buffer)`: points the transport at
     * the broker port, copies the first 32 token bytes to the buffer, fixes the
     * serializer's floor at `TOKEN_SIZE`, derives the topics and empties every
     * slot. The token is a C string (no zero byte) of at least 32 bytes.
     */
    constructor (client: MqttClient, deviceId: string, deviceToken: seq<uint8>, buffer: array<uint8>)
      requires TOKEN_SIZE as int <= |deviceToken| && 0 !in deviceToken
      requires TOKEN_SIZE as int <= buffer.Length
      modifies client, buffer
      ensures Valid()
      ensures fresh(data) && fresh(callbackList)
      ensures data.buffer == buffer && mqttClient == client
      ensures this.deviceId == deviceId && this.deviceToken == deviceToken
      ensures buffer[..TOKEN_SIZE] == deviceToken[..TOKEN_SIZE]
      ensures buffer[TOKEN_SIZE..] == old(buffer[TOKEN_SIZE..])
      ensures data.start == TOKEN_SIZE && data.index == TOKEN_SIZE
      ensures topicData == "data/" + deviceId + "/"
      ensures topicDebug == "debug/" + deviceId + "/"
      ensures topicStatus == "status/" + deviceId + "/"
      ensures topicCommand == "cmd/" + deviceId
      ensures forall v :: 0 <= v < MAX_VECTOR ==> callbackList[v] == null
      ensures chains == EmptyRegistry() && registered == {}
      ensures client.serverPort == PORT && client.published == old(client.published)
    {
      this.deviceId := deviceId;
      this.deviceToken := deviceToken;
      var serializator := new BinarySerializator(buffer, 0);
      this.data := serializator;
      this.mqttClient := client;
      client.SetServer(PORT);
      serializator.AddData(deviceToken, TOKEN_SIZE);
      serializator.SetStart(TOKEN_SIZE);
      topicData, topicDebug, topicStatus, topicCommand := "", "", "", "";
      callbackList := new Callback?[MAX_VECTOR];
      chains := EmptyRegistry();
      registered := {};
      new;
      ComposeTopic();
      for i := 0 to MAX_VECTOR
        modifies callbackList
        invariant forall j :: 0 <= j < i ==> callbackList[j] == null
      {
        callbackList[i] := null;
      }
    }

    method ComposeTopic()
      modifies this
      ensures topicData == "data/" + deviceId + "/"
      ensures topicDebug == "debug/" + deviceId + "/"
      ensures topicStatus == "status/" + deviceId + "/"
      ensures topicCommand == "cmd/" + deviceId
      ensures deviceId == old(deviceId) && deviceToken == old(deviceToken)
      ensures callbackList == old(callbackList) && data == old(data) && mqttClient == old(mqttClient)
      ensures chains == old(chains) && registered == old(registered)
    {
      topicData := "data/" + deviceId + "/";
      topicDebug := "debug/" + deviceId + "/";
      topicStatus := "status/" + deviceId + "/";
      topicCommand := "cmd/" + deviceId;
    }

    /** Publishes `buffer[0 .. getSize())` to `prefix + topic`, then rewinds to the token. */
    method SendWith(prefix: string, topic: string)
      requires Valid()
      modifies data, mqttClient
      ensures Valid()
      ensures mqttClient.published == old(mqttClient.published) + [Message(prefix + topic, old(data.buffer[..data.index]))]
      ensures data.buffer == old(data.buffer) && data.index == TOKEN_SIZE && data.buffer[..] == old(data.buffer[..])
    {
      var bytes := data.GetData();
      var size := data.GetSize();
      mqttClient.Publish(prefix + topic, bytes[..size]);
      Reset();
    }

    /** `sendData(topic)`, the wait for a connection left out. */
    method SendData(topic: string)
      requires Valid()
      modifies data, mqttClient
      ensures Valid()
      ensures mqttClient.published == old(mqttClient.published) + [Message(topicData + topic, old(data.buffer[..data.index]))]
      ensures data.buffer == old(data.buffer) && data.index == TOKEN_SIZE && data.buffer[..] == old(data.buffer[..])
    {
      SendWith(topicData, topic);
    }

    /** `sendDebug(topic)`, the wait for a connection left out. */
    method SendDebug(topic: string)
      requires Valid()
      modifies data, mqttClient
      ensures Valid()
      ensures mqttClient.published == old(mqttClient.published) + [Message(topicDebug + topic, old(data.buffer[..data.index]))]
      ensures data.buffer == old(data.buffer) && data.index == TOKEN_SIZE && data.buffer[..] == old(data.buffer[..])
    {
      SendWith(topicDebug, topic);
    }

    /** `sendStatus(topic)`, the wait for a connection left out. */
    method SendStatus(topic: string)
      requires Valid()
      modifies data, mqttClient
      ensures Valid()
      ensures mqttClient.published == old(mqttClient.published) + [Message(topicStatus + topic, old(data.buffer[..data.index]))]
      ensures data.buffer == old(data.buffer) && data.index == TOKEN_SIZE && data.buffer[..] == old(data.buffer[..])
    {
      SendWith(topicStatus, topic);
    }

    /** `addData(d, size)`: forwarded to the serializer; the caller keeps it within the buffer. */
    method AddData(d: seq<uint8>, size: uint8)
      requires Valid()
      requires size <= |d|
      requires data.index + size <= data.buffer.Length
      modifies data, data.buffer
      ensures Valid()
      ensures data.buffer == old(data.buffer)
      ensures data.View() == Appended(old(data.View()), d[..size])
    {
      data.AddData(d, size);
    }

    /** `BS_addData(x)` for a one-byte `x`: `sizeof(x)` is 1. */
    method AddValue(x: uint8)
      requires Valid()
      requires data.index + 1 <= data.buffer.Length
      modifies data, data.buffer
      ensures Valid()
      ensures data.buffer == old(data.buffer)
      ensures data.View() == Appended(old(data.View()), [x])
    {
      AddData([x], 1);
    }

    /** `BSA_addData(a)`: `sizeof(a)` bytes, the count cut to `uint8_t` by `addData`'s parameter. */
    method AddArray(a: seq<uint8>)
      requires Valid()
      requires data.index + |a| % 0x100 <= data.buffer.Length
      modifies data, data.buffer
      ensures Valid()
      ensures data.buffer == old(data.buffer)
      ensures data.View() == Appended(old(data.View()), a[..|a| % 0x100])
    {
      AddData(a, |a| % 0x100);
    }

    /**
     * `addCallback(vector, callback)`: links `callback` in front of the slot's
     * chain (its `chain` is set only when the slot was occupied) and makes it
     * the slot's head. The handler must not be registered already, which
     * keeps every chain acyclic.
     */
    method AddCallback(vector: uint8, callback: Callback)
      requires Valid()
      requires callback !in registered
      requires callbackList[vector] == null ==> callback.chain == null
      modifies this, callbackList, callback
      ensures Valid()
      ensures callbackList[vector] == callback
      ensures old(callbackList[vector]) != null ==> callback.chain == old(callbackList[vector])
      ensures forall w :: 0 <= w < MAX_VECTOR && w != vector ==> callbackList[w] == old(callbackList[w])
      ensures chains == Register(old(chains), vector, callback)
      ensures registered == old(registered) + {callback}
      ensures data == old(data) && mqttClient == old(mqttClient) && callbackList == old(callbackList)
      ensures topicData == old(topicData) && topicDebug == old(topicDebug)
      ensures topicStatus == old(topicStatus) && topicCommand == old(topicCommand)
    {
      ghost var old_chain := chains[vector];
      if callbackList[vector] != null {
        callback.SetCallback(callbackList[vector]);
      }
      callbackList[vector] := callback;
      chains := Register(chains, vector, callback);
      registered := registered + {callback};
      ChainPrepend(callback, old_chain);
      forall w | 0 <= w < MAX_VECTOR && w != vector && chains[w] != []
        ensures IsChain(chains[w])
      {
        assert callback !in chains[w];
      }
    }

    /** `reset()`: rewinds the serializer to the token. */
    method Reset()
      requires Valid()
      modifies data
      ensures Valid()
      ensures data.buffer == old(data.buffer) && data.View() == Rewound(old(data.View()))
    {
      data.Reset();
    }

    /**
     * `receiveCallback(topic, payload, length)`: reads the vector with
     * `BS_getData(uint8_t)` and, when its slot is occupied, starts the chain
     * on the bytes after it. The topic is not consulted.
     */
    method ReceiveCallback(topic: string, payload: seq<uint8>, log: Journal)
      requires Valid()
      requires 1 <= |payload|
      modifies log
      ensures log.entries == old(log.entries) + Dispatch(chains, payload)
    {
      var vector, at := GetUint8(payload, 0);
      if callbackList[vector] != null {
        callbackList[vector].Start(payload[at..], log, chains[vector]);
      }
    }
  }

  /** Putting an unlinked handler in front of a chain (or alone) gives a chain. */
  lemma ChainPrepend(h: Callback, rest: seq<Callback>)
    requires rest == [] ==> h.chain == null
    requires rest != [] ==> IsChain(rest) && h.chain == rest[0]
    requires h !in rest
    ensures IsChain([h] + rest)
  {
    var nodes := [h] + rest;
    forall i | 0 <= i < |nodes| - 1
      ensures nodes[i].chain == nodes[i + 1]
    {
      if i > 0 {
        assert nodes[i] == rest[i - 1] && nodes[i + 1] == rest[i];
      }
    }
    forall i, j | 0 <= i < j < |nodes|
      ensures nodes[i] != nodes[j]
    {
      assert nodes[j] == rest[j - 1];
      if i > 0 {
        assert nodes[i] == rest[i - 1];
      }
    }
  }

  /**
   * With the cursor back on the token, appending `x` and sending publishes
   * exactly the token followed by `x`, and leaves the session token-only
   * again for the next message.
   */
  method AppendAndSendData(session: IoTVP, token: seq<uint8>, x: seq<uint8>, topic: string)
    requires session.Valid()
    requires session.data.index == TOKEN_SIZE && session.data.buffer[..TOKEN_SIZE] == token
    requires TOKEN_SIZE as int + |x| <= session.data.buffer.Length && TOKEN_SIZE as int + |x| < 0x100
    modifies session.data, session.data.buffer, session.mqttClient
    ensures session.Valid()
    ensures session.data.buffer == old(session.data.buffer)
    ensures session.data.index == TOKEN_SIZE && session.data.buffer[..TOKEN_SIZE] == token
    ensures session.mqttClient.published == old(session.mqttClient.published) + [Message(session.topicData + topic, token + x)]
  {
    AppendedAfterPrefix(session.data.View(), token, x);
    session.AddData(x, |x|);
    assert x[..|x|] == x;
    assert session.data.buffer[..session.data.index] == token + x;
    session.SendData(topic);
  }

  /**
   * End to end: a session built with a 32-byte token, [1, 2] appended and
   * sent on "temp", then [3] appended and sent again. The first message is
   * the token followed by [1, 2]; the second starts again right after the token.
   */
  method TwoMessages(id: string, token: seq<uint8>) returns (first: Message, second: Message)
    requires |token| == TOKEN_SIZE as int && 0 !in token
    ensures first == Message("data/" + id + "/temp", token + [1, 2])
    ensures second == Message("data/" + id + "/temp", token + [3])
  {
    var client := new MqttClient();
    var buffer := new uint8[64];
    var session := new IoTVP(client, id, token, buffer);
    AppendAndSendData(session, token, [1, 2], "temp");
    AppendAndSendData(session, token, [3], "temp");
    first, second := client.published[0], client.published[1];
  }

  /** A fresh session with H1 and then H2 registered for vector 3. */
  method TwoHandlerSession(id: string, token: seq<uint8>) returns (session: IoTVP, h1: Callback, h2: Callback)
    requires |token| == TOKEN_SIZE as int && 0 !in token
    ensures fresh(session) && session.Valid()
    ensures session.chains[3] == [h2, h1] && session.chains[9] == []
  {
    var client := new MqttClient();
    var buffer := new uint8[64];
    session := new IoTVP(client, id, token, buffer);
    h1 := new Callback();
    h2 := new Callback();
    session.AddCallback(3, h1);
    session.AddCallback(3, h2);
  }

  /**
   * Receiving [3, 0xAA, 0xBB] with H1 then H2 registered for vector 3 runs
   * H2 then H1, each on [0xAA, 0xBB]; receiving a command for vector 9,
   * which has no chain, runs nothing.
   */
  method TwoHandlers(id: string, token: seq<uint8>) returns (h1: Callback, h2: Callback, ran: seq<Entry>, unrouted: seq<Entry>)
    requires |token| == TOKEN_SIZE as int && 0 !in token
    ensures ran == [Entry(h2, [0xAA, 0xBB]), Entry(h1, [0xAA, 0xBB])]
    ensures unrouted == []
  {
    var session;
    session, h1, h2 := TwoHandlerSession(id, token);
    var log := new Journal();
    var command: seq<uint8> := [3, 0xAA, 0xBB];
    assert command[0] == 3 && command[1..] == [0xAA, 0xBB];
    session.ReceiveCallback(session.topicCommand, command, log);
    ran := log.entries;
    assert ran == Runs([h2, h1], [0xAA, 0xBB]);
    var silent := new Journal();
    var stray: seq<uint8> := [9];
    assert stray[0] == 9;
    session.ReceiveCallback(session.topicCommand, stray, silent);
    unrouted := silent.entries;
  }
}
