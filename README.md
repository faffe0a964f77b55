# zc.zrs test transport and reactor

zc.zrs replicates a ZODB FileStorage: a primary streams committed
transactions to secondaries over length-prefixed messages. Its test module
`src/zc/zrs/tests.py` replaces the network with two in-memory pieces, and
those are what this project models and proves properties of:

- `MessageTransport`, with a receive buffer that `write`/`writeSequence`
  append to and that `read` takes one frame at a time off (a 4-byte unsigned
  big-endian length, then that many bytes), and the `closed`/`producer`
  pair that decides when the protocol is told `connectionLost`;
- `TestReactor`, with its table of listening factories keyed by
  `(interface, port)`, its client-port counter that each connection takes
  the next value of, and its per-address lists of client transports.

The Dafny modules:

- `Results` — `Option` and `Result`.
- `Framing` — the frame format as pure functions: `Be32` (`struct.unpack(">I")`),
  an encoder of our own that it decodes (`EncodeBe32`, `Frame`), `ReadFrame`
  (what one `read` returns and leaves behind), `ReadMany` (several reads in a
  row) and `Join` (`''.join`), with the round-trip, FIFO and remainder lemmas.
- `Decimal` — `"%s" % n` for the client port in a peer string, and reading it back.
- `Teardown` — the `closed`/`producer` state machine as a function `Step` over
  `loseConnection`, `registerProducer`, `unregisterProducer` and `close`, with `Run` over any sequence of them.
- `TestTransport` — the two classes, whose methods update the fields in place
  and are specified by the functions above, plus three small client methods
  that exercise them.

Protocols, producers and factories are collaborators whose code is not part
of this model; each call made on them is appended to an event list
(`MessageTransport.events`, `TestReactor.calls`) so the contracts can say
which calls happen and in what order.

`read` removes the 4-byte header before it checks that the payload is
complete, so a short payload leaves the buffer without its header
(`src/zc/zrs/tests.py:264-269`); `ReadFrame` and `TruncatedFrame` model
this.

## Model

| member | source | states |
|---|---|---|
| `Framing.Be32` | src/zc/zrs/tests.py:264 | the header value is an unsigned 32-bit number, below 2^32 |
| `Framing.EncodeBe32` | src/zc/zrs/tests.py:264 | for every length below 2^32 there are four header bytes that the decoder maps back to it |
| `Framing.EncodeOfBe32` | src/zc/zrs/tests.py:264 | decoding a header loses nothing: re-encoding its value gives the same four bytes |
| `Framing.Frame` | src/zc/zrs/tests.py:264-271 | a frame is four header bytes whose big-endian value is the payload length, followed by exactly the payload |
| `Framing.ReadFrame` | src/zc/zrs/tests.py:258-275 | a read succeeds exactly when four header bytes and at least that many further bytes are buffered; then the buffer was that frame followed by the remainder; on failure the buffer is unchanged if the header was short (the first assertion) and has lost its header if the payload was short (the second assertion, reporting the wanted length and the bytes present) |
| `Framing.ReadFrameOfFrame` | src/zc/zrs/tests.py:264-271 | round trip: a frame (the empty payload included) followed by any bytes reads back as its payload and leaves exactly those bytes |
| `Framing.ReadFrameExtend` | src/zc/zrs/tests.py:249-253 | bytes written after a complete frame do not change what the read returns; they end up after the remainder |
| `Framing.TruncatedFrame` | src/zc/zrs/tests.py:261-269 | every strict prefix of a frame fails to read; with four or more bytes the header has been consumed and only the partial payload is left |
| `Framing.Join` | src/zc/zrs/tests.py:256 | `''.join(parts)`: as long as all the parts together, starting with the first part and ending with the last |
| `Framing.JoinAppend` | src/zc/zrs/tests.py:255-256 | joining two batches of parts is the concatenation of their joins, so one `writeSequence` equals successive writes |
| `Framing.ReadManyFrames` | src/zc/zrs/tests.py:258-275 | FIFO: any number of frames written back to back come out of as many reads in the order written, and what followed them is left |
| `Decimal.ToDecimal` | src/zc/zrs/tests.py:212 | the port renders as a non-empty string of decimal digits that starts with `0` only when it is the single digit `0` |
| `Decimal.ValueOfToDecimal` | src/zc/zrs/tests.py:212 | reading the rendered port back gives the port |
| `Decimal.ToDecimalInjective` | src/zc/zrs/tests.py:212 | different ports render differently |
| `TestTransport.PeerName` | src/zc/zrs/tests.py:211-212 | the peer string is the fixed prefix, the client port rendered by `ToDecimal` (all digits, no leading zero) and a closing parenthesis; reading the digits back gives the port |
| `TestTransport.PeerNameInjective` | src/zc/zrs/tests.py:211-213 | different client ports give different peer strings |
| `Teardown.Step` | src/zc/zrs/tests.py:283-300 | only `loseConnection` sets `closed`; register sets the producer, unregister clears it and changes nothing without one; for these three `connectionLost` fires exactly when the operation leaves the transport closed with no producer and either was `loseConnection` or found the transport not already so; `close` changes no state, fires exactly when a producer is registered and fails exactly when none is |
| `Teardown.ClosedOnlyByLose` | src/zc/zrs/tests.py:283-300 | after any sequence of the four operations the transport is closed exactly when it was or a `loseConnection` occurred |
| `Teardown.QuiescenceIsAnnounced` | src/zc/zrs/tests.py:283-300 | in every interleaving of the four operations that starts not closed-and-idle and ends closed with no producer, `connectionLost` was called at least once |
| `Teardown.OpenIsSilent` | src/zc/zrs/tests.py:283-300 | on an open transport, without `loseConnection` or `close`, `connectionLost` is never called |
| `TestTransport.MessageTransport.constructor` | src/zc/zrs/tests.py:239-244 | a new transport has an empty buffer, is open, has no producer and has made no calls |
| `TestTransport.MessageTransport.HaveData` | src/zc/zrs/tests.py:280-281 | true exactly when the buffer is non-empty; when false a read fails on the header |
| `TestTransport.MessageTransport.Write` | src/zc/zrs/tests.py:249-253 | the argument is appended; bytes already buffered are unchanged and stay in front |
| `TestTransport.MessageTransport.WriteSequence` | src/zc/zrs/tests.py:255-256 | the buffer gains the concatenation of the parts, as one `write` of it |
| `TestTransport.MessageTransport.Read` | src/zc/zrs/tests.py:258-275 | returns and leaves behind exactly what `ReadFrame` of the old buffer says |
| `TestTransport.MessageTransport.LoseConnection` | src/zc/zrs/tests.py:283-286 | sets `closed`; calls `connectionLost` at once exactly when no producer is registered |
| `TestTransport.MessageTransport.RegisterProducer` | src/zc/zrs/tests.py:288-290 | records the producer and calls nothing |
| `TestTransport.MessageTransport.UnregisterProducer` | src/zc/zrs/tests.py:292-296 | with a producer: clears it and calls `connectionLost` exactly when already closed; without one: changes nothing |
| `TestTransport.MessageTransport.Close` | src/zc/zrs/tests.py:298-300 | follows `Step` for `close`: with a producer, calls `stopProducing` on it then `connectionLost`, leaving `closed` and the producer as they were; without one, fails having called nothing |
| `TestTransport.TestReactor.constructor` | src/zc/zrs/tests.py:199-202 | no factories, no clients, client port 47245 |
| `TestTransport.TestReactor.ListenTCP` | src/zc/zrs/tests.py:204-207 | the interface defaults to `''`; fails on an address already registered, leaving the table as it was; otherwise adds exactly that key with that factory and keeps every other entry |
| `TestTransport.TestReactor.Connect` | src/zc/zrs/tests.py:209-216 | with no factory at the address fails and changes nothing; otherwise returns a new primary transport for the protocol that factory built, with the peer of the current client port, connected, and the port goes up by exactly one |
| `TestTransport.TestReactor.ConnectTCP` | src/zc/zrs/tests.py:221-232 | the client port goes up by exactly one; `buildProtocol` then `startedConnecting` are called; a new secondary transport is appended to the end of its address's list; every other list is unchanged and no list shrinks |
| `TestTransport.FramesReadInOrder` | src/zc/zrs/tests.py:249-281 | two frames written with one `writeSequence` are returned by two reads in order, after which no data is left |
| `TestTransport.DeferredConnectionLost` | src/zc/zrs/tests.py:283-296 | with a producer registered, `loseConnection` calls nothing and the following `unregisterProducer` calls `connectionLost` once |
| `TestTransport.ConnectionsGetDistinctPeers` | src/zc/zrs/tests.py:209-216 | two successive connections get different peer strings |

## Left out

- The replication engine itself (`zc.zrs.fsiterator`, `zc.zrs.sizedmessage`, `zc.zrs.primary`, `zc.zrs.secondary`) is not part of this model; only the test transport and reactor are.
- `send`: it hands `zc.zrs.sizedmessage.marshal(data)` to the protocol, and that encoder is not part of this model. `EncodeBe32`/`Frame` are our own encoder matching what `read` decodes, and claim nothing about `sizedmessage`.
- Pickling: `PrimaryTransport.read` unpickles the payload and `SecondaryTransport.send` pickles its argument; here payloads are opaque bytes, so the primary flavour's `Read` returns the raw payload.
- Threads: the condition variable's acquire, release, `notifyAll` and the five-second waits in `read` are not modelled. Each read is decided by the buffer at the moment of the call, as if no writer ran during the wait. When an assertion in `read` fails, the source leaves the condition's lock held; the model has no lock.
- `getPeer` is the constant field `peer`; `callFromThread` (calls its argument at once) is not modelled.
- The `backlog` argument of `listenTCP` (default 50) and the `timeout` of `connectTCP` (default 30) are ignored by the source and left out; the `interface` default `''` of `listenTCP` is kept.
- Order across objects: `buildProtocol` and `startedConnecting` are logged on the reactor and `makeConnection` on the transport, so the model records the order within each log but not that `makeConnection` falls between the other two.
- Twisted objects: the `close_reason` failure passed to `connectionLost` and the `None` connector passed to `startedConnecting` carry no information in the model; the events record only which call was made.
- Callbacks do not call back: the model assumes that protocols, factories and producers never call into the transport or reactor while `buildProtocol`, `makeConnection`, `startedConnecting`, `stopProducing` or `connectionLost` runs. A protocol whose `connectionMade` writes or registers a producer would leave the new transport of `Connect`/`ConnectTCP` non-empty or not fresh, and a producer whose `stopProducing` unregisters itself would change the state `Close` leaves.
- Protocols are identified only by the factory that built them and the address; two built by the same factory for the same address are equal values.
- Registering `None` as a producer is not modelled; producers are always handles.
- The Python-level test scaffolding: the `scan_from_back` and `primary_suspend_resume` doctests, `join`, `setUp` (its clock replacement and logging), `Stdout`, `test_suite`, and `setup.py`.
