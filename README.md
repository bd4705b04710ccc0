# IoTVP device library — Dafny model

IoTVP is an Arduino/ESP32 client library for an MQTT-based IoT platform.
A device session (`IoTVP`) does four things:

- It frames outbound messages in a caller-supplied byte buffer. Every message starts with the 32-byte device token.
- It publishes that buffer to topics derived from the device id.
- It dispatches inbound commands through a table of 256 callback chains. The first payload byte selects the chain.
- The repository also carries its own TLS socket client (`iotvp::WiFiClientSecure`). Its state is one socket handle and one "connected" flag.

The model has four modules, one per part of the library, plus shared types:

- `CoreTypes`: the fixed-width integers the code uses (`uint8`, `uint16`) and `Option`.
- `Serializator` (serializator.dfy): class `BinarySerializator`, with its `start` floor and `index` cursor, both `uint8_t`.
  - The buffer is an `array` written in place.
  - Each method is specified against a pure function on the abstract value `Cursor` (all bytes, floor, cursor): `Restarted`, `Rewound`, `Appended`.
  - `index` wraps modulo 256 exactly as the `uint8_t` field does. The address `index + i` is computed in `int` and does not wrap.
  - The one-byte `BS_getData` read is `GetUint8`.
- `Callbacks` (callbacks.dfy): class `Callback`, linked through its `chain` pointer.
  - An application handler's `run` is user code. Each run is recorded in a `Journal` as the handler and the body bytes it was given.
  - `Start` is specified against `Runs`, the list of runs a walk of the chain produces.
- `IoTVPSession` (iotvp.dfy): class `IoTVP`.
  - `MqttClient` stands in for PubSubClient. It keeps the port it was pointed at and every `publish` it received, in order.
  - The ghost `chains` field gives, for every slot, the nodes its chain visits. `Valid()` ties that field to `callbackList` and to the `chain` pointers.
  - `addCallback` is specified by `Register` on that registry, and `receiveCallback` by `Dispatch`.
- `SecureClient` (wifi_client_secure.dfy): class `WiFiClientSecure`.
  - The TLS primitives are foreign. Each method takes the integers they returned as parameters.
  - Each method's new state and result equal a pure transition function (`Stopped`, `AfterConnect`, ...) applied to the old state. The properties are proved about those functions.
  - A `calls` log records which primitives ran, and in what order.

`stop()` clears `_connected` only when it closes a socket. The model follows the code here. `StaleFlagAfterFailedConnect` shows the consequence: a connected client whose reconnect fails with the handle left at -1 keeps its flag set while holding no socket.

## Model

| member | source | states |
|---|---|---|
| Serializator.Restarted | src/iotvp.cpp:27-30 | `setStart(s)` puts floor and cursor on `s` and leaves every buffer byte as it was |
| Serializator.Rewound | src/iotvp.cpp:39-41 | `reset()` puts the cursor back on the floor; floor and buffer bytes unchanged |
| Serializator.Appended | src/iotvp.cpp:32-37 | `addData(d, n)` writes `d` into `[index, index+n)`, leaves every other byte and the floor unchanged, and advances the cursor by `n` modulo 256 |
| Serializator.AppendAll | src/iotvp.cpp:32-37 | a sequence of non-wrapping `addData` calls advances the cursor by the sum of the lengths and keeps the buffer size and floor |
| Serializator.AppendAllWrites | src/iotvp.cpp:32-37 | after such a sequence, the window between the old and new cursor holds the chunks' concatenation, and every byte outside it is unchanged |
| Serializator.AppendsFromStart | src/iotvp.cpp:27-49 | after `setStart(s)` and non-wrapping appends, `getSize()` is `s` plus the total length, and `buffer[s..getSize())` is the chunks in call order |
| Serializator.ResetThenAppend | src/iotvp.cpp:27-41 | `reset` then `addData(x)` gives the same cursor, the same floor and the same bytes in `[start, start+|x|)` as `addData(x)` after a fresh `setStart(start)` |
| Serializator.AppendedAfterPrefix | src/iotvp.cpp:32-37 | appending right after a written prefix makes the written part the prefix followed by the new bytes |
| Serializator.GetUint8 | src/iotvp.h:4 | `BS_getData(uint8_t)` yields the byte at the pointer and advances the pointer by exactly one; the byte followed by the rest is what was there |
| Serializator.BinarySerializator.constructor | src/iotvp.cpp:18-25 | binds the caller's buffer and sets floor and cursor to `start` |
| Serializator.BinarySerializator.FromBuffer | src/iotvp.h:34 | the one-argument constructor is the same as a floor of 0: cursor 0 |
| Serializator.BinarySerializator.Setup | src/iotvp.cpp:22-25 | rebinds the buffer, then behaves as `setStart(start)` |
| Serializator.BinarySerializator.SetStart | src/iotvp.cpp:27-30 | the new abstract value is `Restarted` of the old one, with the same buffer |
| Serializator.BinarySerializator.AddData | src/iotvp.cpp:32-37 | the in-place copy loop leaves the abstract value equal to `Appended(old value, data[..size])` |
| Serializator.BinarySerializator.Reset | src/iotvp.cpp:39-41 | the new abstract value is `Rewound` of the old one |
| Serializator.BinarySerializator.GetData | src/iotvp.cpp:43-45 | returns the buffer itself, not a copy |
| Serializator.BinarySerializator.GetSize | src/iotvp.cpp:47-49 | returns the cursor; the buffer prefix of that length is the written part of the abstract value |
| Callbacks.Runs | src/iotvp.cpp:13-16 | a walk produces one run per node of the chain |
| Callbacks.RunsAt | src/iotvp.cpp:13-16 | the `i`-th run of a walk is node `i` of the chain, on the common body |
| Callbacks.Callback.constructor | src/iotvp.h:29 | a fresh handler has a null `chain` |
| Callbacks.Callback.SetCallback | src/iotvp.cpp:5-7 | `chain` becomes the given handler |
| Callbacks.Callback.ClearCallback | src/iotvp.cpp:9-11 | `chain` becomes null |
| Callbacks.Callback.Run | src/iotvp.h:27 | a handler's `run` appends exactly one entry (this handler, the body it got) to the journal |
| Callbacks.Callback.Start | src/iotvp.cpp:13-16 | `start(data)` on the head of an acyclic chain appends `Runs(chain, data)`: every node once, in chain order, no short-circuit |
| Callbacks.StartFresh | src/iotvp.cpp:13-16 | `start` on a freshly constructed handler runs exactly that handler, once |
| IoTVPSession.EmptyRegistry | src/iotvp.cpp:69-71 | 256 slots, all empty |
| IoTVPSession.Register | src/iotvp.cpp:114-119 | `addCallback(v, h)` puts `h` in front of slot `v`'s chain and leaves every other slot unchanged |
| IoTVPSession.RegisterAllOrder | src/iotvp.cpp:114-119 | handlers registered in order for one vector end up most-recent-first in front of the old chain; other slots untouched |
| IoTVPSession.Dispatch | src/iotvp.cpp:149-155 | a command runs, in order, exactly the handlers of the slot named by its first byte, each on the bytes after it |
| IoTVPSession.DispatchUnregistered | src/iotvp.cpp:152-154 | a command for a slot with no chain runs nothing |
| IoTVPSession.DispatchMostRecentFirst | src/iotvp.cpp:149-155 | after registering `hs` for `v` on an empty table, a command for `v` runs `hs` reversed, each on the command body |
| IoTVPSession.CommandTopicIsNotOutbound | src/iotvp.cpp:74-79 | the command topic differs from every data, debug and status topic |
| IoTVPSession.IoTVP.constructor | src/iotvp.cpp:61-72 | port 8883; `buffer[0..32)` is the first 32 token bytes and the rest of the buffer is unchanged; floor and cursor at 32; the four topics; every slot null; no handler registered |
| IoTVPSession.IoTVP.ComposeTopic | src/iotvp.cpp:74-79 | the topics are `"data/"+id+"/"`, `"debug/"+id+"/"`, `"status/"+id+"/"` and `"cmd/"+id`; nothing else changes |
| IoTVPSession.IoTVP.SendWith | src/iotvp.cpp:81-88 | publishes exactly `buffer[0..getSize())` to prefix + suffix, rewinds the cursor to the token, and leaves the buffer bytes as they were |
| IoTVPSession.IoTVP.SendData | src/iotvp.cpp:81-88 | the same, on the data topic |
| IoTVPSession.IoTVP.SendDebug | src/iotvp.cpp:90-97 | the same, on the debug topic |
| IoTVPSession.IoTVP.SendStatus | src/iotvp.cpp:99-106 | the same, on the status topic |
| IoTVPSession.IoTVP.AddData | src/iotvp.cpp:108-112 | forwards to the serializer: the new abstract value is `Appended(old, d[..size])`, and the session stays valid |
| IoTVPSession.IoTVP.AddValue | src/iotvp.h:5 | `BS_addData` of a one-byte value appends exactly that byte |
| IoTVPSession.IoTVP.AddArray | src/iotvp.h:6 | `BSA_addData(a)` appends `a`'s first `sizeof(a)` bytes, the count truncated to `uint8_t` |
| IoTVPSession.IoTVP.AddCallback | src/iotvp.cpp:114-119 | the handler becomes slot `v`'s head; its `chain` becomes the old head when there was one; other slots unchanged; the registry becomes `Register(old, v, h)` and every chain stays acyclic |
| IoTVPSession.IoTVP.Reset | src/iotvp.cpp:121-123 | the serializer is `Rewound`; the session stays valid |
| IoTVPSession.IoTVP.ReceiveCallback | src/iotvp.cpp:149-155 | appends exactly `Dispatch(chains, payload)` to the journal; nothing else changes |
| IoTVPSession.AppendAndSendData | src/iotvp.cpp:81-88 | from a token-only session, appending `x` and sending publishes the token followed by `x` and leaves the session token-only again |
| IoTVPSession.TwoMessages | src/iotvp.cpp:61-88 | two messages in a row each carry the token followed only by their own bytes, on `"data/"+id+"/temp"` |
| IoTVPSession.TwoHandlerSession | src/iotvp.cpp:114-119 | registering H1 then H2 for vector 3 gives chain [H2, H1] and leaves vector 9 empty |
| IoTVPSession.TwoHandlers | src/iotvp.cpp:149-155 | receiving [3, 0xAA, 0xBB] runs H2 then H1, each on [0xAA, 0xBB]; a command for an empty slot runs nothing |
| SecureClient.Stopped | src/WiFiClientSecure-old.cpp:76-84 | `stop()` leaves a negative handle; an open socket becomes (-1, not connected); a negative handle and its flag are left as they were |
| SecureClient.AfterConnect | src/WiFiClientSecure-old.cpp:96-106 | returns 1 exactly when `start_ssl_client` was non-negative, then connected on the new handle; a negative result stops the client and returns 0 with no socket held |
| SecureClient.AfterWrite | src/WiFiClientSecure-old.cpp:135-147 | 0 and no change when not connected; a negative send stops and gives 0; otherwise the sent count, never negative |
| SecureClient.AfterAvailable | src/WiFiClientSecure-old.cpp:162-172 | 0 when not connected; otherwise the pending count, unchanged, a negative one stopping the client |
| SecureClient.AfterRead | src/WiFiClientSecure-old.cpp:149-160 | -1 when `available()` gave 0; otherwise the receive result, a negative one stopping the client |
| SecureClient.AfterReadByte | src/WiFiClientSecure-old.cpp:125-133 | the one-byte read passes negative results through; otherwise it gives a value in [0, 255], the received byte when one arrived |
| SecureClient.AfterProbe | src/WiFiClientSecure-old.cpp:174-180 | `connected()` returns the flag after the zero-length probe read; a disconnected client is left as it was |
| SecureClient.StopIdempotent | src/WiFiClientSecure-old.cpp:76-84 | stopping twice gives the state of stopping once, and the second stop only releases the TLS context |
| SecureClient.StopDisconnects | src/WiFiClientSecure-old.cpp:76-84 | on a client whose flag implies a socket, `stop()` always clears the flag |
| SecureClient.OperationsKeepCoherence | src/WiFiClientSecure-old.cpp:120-180 | write, available, both reads and `connected()` never set the flag without a socket |
| SecureClient.ConnectCoherence | src/WiFiClientSecure-old.cpp:96-106 | exactly the handle and flag conditions under which `connect` keeps "flag implies socket" |
| SecureClient.StaleFlagAfterFailedConnect | src/WiFiClientSecure-old.cpp:76-106 | a failed reconnect that leaves handle -1 keeps the flag set with no socket held |
| SecureClient.ReadMinusOne | src/WiFiClientSecure-old.cpp:149-160 | `read` gives -1 exactly when `available()` gave 0 or the receive itself gave -1 |
| SecureClient.WiFiClientSecure.constructor | src/WiFiClientSecure-old.cpp:30-42 | handle -1, not connected, after `ssl_init` |
| SecureClient.WiFiClientSecure.FromSocket | src/WiFiClientSecure-old.cpp:45-61 | takes over `sock`, connected exactly when `sock >= 0` |
| SecureClient.WiFiClientSecure.Assign | src/WiFiClientSecure-old.cpp:68-74 | stops, then copies the other client's handle and flag; self-assignment ends stopped |
| SecureClient.WiFiClientSecure.Stop | src/WiFiClientSecure-old.cpp:76-84 | new state is `Stopped(old)`; calls `close` only on an open socket, then always `stop_ssl_socket` |
| SecureClient.WiFiClientSecure.Connect | src/WiFiClientSecure-old.cpp:86-106 | state and result are `AfterConnect(old, ret, handle)`; runs `start_ssl_client`, then `stop` on failure |
| SecureClient.WiFiClientSecure.ConnectHost | src/WiFiClientSecure-old.cpp:108-117 | a failed lookup returns 0 with no state change; otherwise it behaves as the IP overload on the resolved address |
| SecureClient.WiFiClientSecure.Write | src/WiFiClientSecure-old.cpp:135-147 | state and result are `AfterWrite`; no send primitive runs when not connected |
| SecureClient.WiFiClientSecure.WriteByte | src/WiFiClientSecure-old.cpp:120-123 | a one-byte `write` |
| SecureClient.WiFiClientSecure.Available | src/WiFiClientSecure-old.cpp:162-172 | state and result are `AfterAvailable`; `data_to_read` runs only when connected |
| SecureClient.WiFiClientSecure.Read | src/WiFiClientSecure-old.cpp:149-160 | state and result are `AfterRead`; the receive primitive runs only when something was available |
| SecureClient.WiFiClientSecure.ReadByte | src/WiFiClientSecure-old.cpp:125-133 | state and result are `AfterReadByte` |
| SecureClient.WiFiClientSecure.Connected | src/WiFiClientSecure-old.cpp:174-180 | state and result are `AfterProbe` |
| SecureClient.WriteBeforeConnect | src/WiFiClientSecure-old.cpp:135-139 | `write` on a client that never connected returns 0, and no primitive other than `ssl_init` runs |
| SecureClient.StopTwice | src/WiFiClientSecure-old.cpp:76-84 | a second `stop()` changes nothing and only calls `stop_ssl_socket` |

The constants are declared as `TOKEN_SIZE == 32`, `MAX_VECTOR == 256` and `PORT == 8883` (src/iotvp.h:18-20, 65, 68). The vector type is `uint8`, so every vector indexes one of the 256 slots.

## Left out

- `blockUntilConnected` and `loop` (src/iotvp.cpp:125-147): unbounded reconnect loop, serial logging and delays. The sends publish without waiting for a connection.
- PubSubClient itself: `connect`, `subscribe`, `state`, `loop`, and the `setCallback` binding of `receiveCallback`. `MqttClient` keeps only the port and the list of published messages. The `SERVER` address is not recorded.
- The certificate texts `ROOT_CA` and `local_root_ca`, and the `SERVER` literal: constant data with no behaviour.
- The `WiFiClientSecure&` session constructors (src/iotvp.cpp:51-59), which only add `setCACert`; the setters `setCACert`, `setCertificate` and `setPrivateKey`; the `WiFiClientSecure` destructor, which is `stop()`. The certificate pointers are never read by the modelled logic beyond being passed to foreign calls.
- The `ssl_client` primitives, `close` and `gethostbyname`: foreign calls. Their results are method parameters. `calls` records that they ran, without their effect on the TLS context.
- `BS_getData`, `BS_addData` and `BSC_addData` on multi-byte types: they reinterpret memory through raw pointers and depend on byte order and layout. Only one-byte values are modelled.
- `setTopic`: declared in src/iotvp.h:53 but never defined.
- `createFunction` and the bodies of application handlers: user code. Each run is a journal entry.
- Serializator.BinarySerializator.AddData: `data` is a value sequence, so a source pointer that aliases the buffer itself is not modelled.
- Serializator.BinarySerializator.AddData: requires `index + size <= buffer.Length`, because the source writes past the buffer otherwise (undefined behaviour). The same precondition is on IoTVPSession.IoTVP.AddData, AddValue and AddArray.
- IoTVPSession.IoTVP.ReceiveCallback: requires a payload of at least one byte. On an empty payload the source reads the vector from beyond its data. The `length` argument is not consulted by the source, and the model uses the payload's own length.
- IoTVPSession.IoTVP.AddCallback: requires that the handler is not yet registered anywhere, and that it is unlinked when the slot is empty. Registering a handler twice lets the source build a cyclic chain, on which `start` never ends. Sharing a node between two slots is also excluded.
- IoTVPSession.IoTVP.constructor: requires a token of at least 32 bytes with no zero byte, since the source copies 32 bytes out of a C string. `MqttClient` is a transport record passed in, not a PubSubClient built over `client`.
- SecureClient.AfterReadByte: the contents of a multi-byte `read(buf, size)` are not modelled. Only the single byte of `read()` is, as the parameter `b`.
