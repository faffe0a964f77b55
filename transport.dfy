/**
 * The in-memory transport and reactor that stand in for the network in the
 * replication tests: `MessageTransport` (with its two flavours for the
 * primary and the secondary side) and `TestReactor`.
 *
 * Protocols and factories are collaborators whose code is not part of this
 * model. A protocol is an opaque handle naming the factory that built it and
 * the address it was built for; each call the transport makes on its
 * protocol or producer is appended to the transport's `events`, and each call
 * the reactor makes on a factory to the reactor's `calls`.
 */
module TestTransport {
  import opened Results
  import opened Framing
  import opened Teardown
  import opened Decimal

  type FactoryId = nat

  /** A `(host, port)` pair, the key of the reactor's tables. */
  datatype Address = Address(host: string, port: int)

  /** The protocol `factory.buildProtocol(addr)` returned. */
  datatype Proto = Proto(factory: FactoryId, addr: Address)

  /** `PrimaryTransport` or `SecondaryTransport`. */
  datatype Kind = Primary | Secondary

  /** A call the transport made on its protocol or its producer. */
  datatype Callback = MadeConnection | ConnectionLost | StopProducing(producer: ProducerId)

  /** A call the reactor made on a factory. */
  datatype FactoryCall = BuildProtocol(factory: FactoryId, addr: Address) | StartedConnecting(factory: FactoryId)

  /** `close` dereferences the producer, which fails when there is none. */
  datatype CloseError = NoProducer

  datatype ReactorError =
    | AddressInUse(addr: Address)   // the assertion in `listenTCP`
    | NoListener(addr: Address)     // the `KeyError` in `connect`

  /** The callbacks an operation's `connectionLost` decision produces. */
  function Announce(fired: bool): seq<Callback>
  {
    if fired then [ConnectionLost] else []
  }

  /** What the peer string says before the port number. */
  const PeerPrefix: string := "IPv4Address(TCP, '127.0.0.1', "

  /**
   * The peer string of a transport created while the client port was `port`:
   * the port in decimal between a fixed prefix and a closing parenthesis.
   */
  function PeerName(port: nat): (s: string)
    ensures |s| > |PeerPrefix| + 1 && s[..|PeerPrefix|] == PeerPrefix && s[|s| - 1] == ')'
    ensures s[|PeerPrefix|..|s| - 1] == ToDecimal(port)
    ensures Value(s[|PeerPrefix|..|s| - 1]) == port
  {
    var s := PeerPrefix + ToDecimal(port) + ")";
    assert s[|PeerPrefix|..|s| - 1] == ToDecimal(port);
    ValueOfToDecimal(port);
    s
  }

  /** Distinct client ports give distinct peer strings. */
  lemma PeerNameInjective(a: nat, b: nat)
    requires PeerName(a) == PeerName(b)
    ensures a == b
  {
  }

  /** The first client port the reactor hands out. */
  const FirstClientPort: nat := 47245

  class MessageTransport {
    /** Bytes written and not yet read. */
    var data: seq<byte>
    var closed: bool
    var producer: Option<ProducerId>
    /** Calls made on the protocol and the producer, oldest first. */
    var events: seq<Callback>
    /** Attributes the reactor attaches after construction. */
    var reactor: TestReactor?
    var factory: Option<FactoryId>

    const kind: Kind
    const proto: Proto
    /** What `getPeer` returns. */
    const peer: string

    constructor (kind: Kind, proto: Proto, peer: string)
      ensures this.kind == kind && this.proto == proto && this.peer == peer
      ensures data == [] && State() == Fresh && events == []
      ensures reactor == null && factory == None
    {
      this.kind, this.proto, this.peer := kind, proto, peer;
      data, closed, producer, events := [], false, None, [];
      reactor, factory := null, None;
    }

    /** The fields that decide when `connectionLost` fires. */
    function State(): Link
      reads this
    {
      Link(closed, producer)
    }

    /** Whether any written byte is still unread. */
    function HaveData(): (b: bool)
      reads this
      ensures b <==> data != []
      ensures !b ==> ReadFrame(data).payload == Err(ShortHeader(0))
    {
      |data| > 0
    }

    /** Appends to the buffer; what is already buffered stays in front. */
    method Write(bytes: seq<byte>)
      modifies this`data
      ensures data == old(data) + bytes
      ensures old(data) <= data
    {
      data := data + bytes;
    }

    /** Writes the concatenation of `parts` in one go. */
    method WriteSequence(parts: seq<seq<byte>>)
      modifies this`data
      ensures data == old(data) + Join(parts)
    {
      Write(Join(parts));
    }

    /**
     * Takes one frame off the front of the buffer. The model assumes that no
     * write happens during the source's waits, so each wait ends with the
     * buffer as it was, and its two assertions become the two errors.
     */
    method Read() returns (r: Result<seq<byte>, ReadError>)
      modifies this`data
      ensures r == ReadFrame(old(data)).payload
      ensures data == ReadFrame(old(data)).rest
    {
      if |data| < HeaderSize {
        return Err(ShortHeader(|data|));
      }
      var l := Be32(data[..HeaderSize]);
      data := data[HeaderSize..];
      if |data| < l {
        return Err(ShortPayload(l, |data|));
      }
      r := Ok(data[..l]);
      data := data[l..];
    }

    method LoseConnection()
      modifies this`closed, this`events
      ensures State() == Step(old(State()), Op.LoseConnection).next
      ensures events == old(events) + Announce(Step(old(State()), Op.LoseConnection).fired)
    {
      closed := true;
      if producer.None? {
        events := events + [ConnectionLost];
      }
    }

    /** `streaming` is accepted and ignored, as in the source. */
    method RegisterProducer(p: ProducerId, streaming: bool)
      modifies this`producer
      ensures State() == Step(old(State()), Op.RegisterProducer(p)).next
      ensures !Step(old(State()), Op.RegisterProducer(p)).fired
    {
      producer := Some(p);
    }

    method UnregisterProducer()
      modifies this`producer, this`events
      ensures State() == Step(old(State()), Op.UnregisterProducer).next
      ensures events == old(events) + Announce(Step(old(State()), Op.UnregisterProducer).fired)
    {
      if producer.Some? {
        producer := None;
        if closed {
          events := events + [ConnectionLost];
        }
      }
    }

    /**
     * Stops the producer and reports the connection lost, whether or not it
     * was closed; without a producer it fails before calling anything.
     */
    method Close() returns (r: Result<(), CloseError>)
      modifies this`events
      ensures State() == Step(old(State()), Op.Close).next
      ensures r.Err? <==> Step(old(State()), Op.Close).failed
      ensures r.Err? ==> r.error == NoProducer
      ensures events == old(events) +
                if Step(old(State()), Op.Close).fired
                then [StopProducing(producer.value), ConnectionLost] else []
    {
      if producer.None? {
        return Err(NoProducer);
      }
      events := events + [StopProducing(producer.value), ConnectionLost];
      r := Ok(());
    }
  }

  class TestReactor {
    /** Listening factories by `(interface, port)`. */
    var factories: map<Address, FactoryId>
    /** Client transports by `(host, port)`, in the order they connected. */
    var clients: map<Address, seq<MessageTransport>>
    var clientPort: nat
    /** Calls made on factories, oldest first. */
    var calls: seq<FactoryCall>

    ghost predicate Valid()
      reads this
    {
      clientPort >= FirstClientPort &&
      forall a | a in clients ::
        clients[a] != [] &&
        forall t | t in clients[a] :: t.kind == Secondary && t.proto.addr == a
    }

    constructor ()
      ensures Valid()
      ensures factories == map[] && clients == map[] && clientPort == FirstClientPort && calls == []
    {
      factories, clients, clientPort, calls := map[], map[], FirstClientPort, [];
    }

    /** Registers `factory` at `(iface, port)`; an address can be taken once. */
    method ListenTCP(port: int, factory: FactoryId, iface: string := "") returns (r: Result<(), ReactorError>)
      requires Valid()
      modifies this`factories
      ensures Valid()
      ensures Address(iface, port) in old(factories) ==>
                r == Err(AddressInUse(Address(iface, port))) && factories == old(factories)
      ensures Address(iface, port) !in old(factories) ==>
                r == Ok(()) && factories == old(factories)[Address(iface, port) := factory]
      ensures factories.Keys == old(factories).Keys + {Address(iface, port)}
    {
      var addr := Address(iface, port);
      if addr in factories {
        return Err(AddressInUse(addr));
      }
      factories := factories[addr := factory];
      r := Ok(());
    }

    /**
     * Connects a new primary-side transport to the factory listening at
     * `addr`, giving it the next client port.
     */
    method Connect(addr: Address) returns (r: Result<MessageTransport, ReactorError>)
      requires Valid()
      modifies this`clientPort, this`calls
      ensures Valid()
      ensures addr !in factories ==>
                r == Err(NoListener(addr)) && clientPort == old(clientPort) && calls == old(calls)
      ensures addr in factories ==>
                r.Ok? && fresh(r.value) &&
                r.value.kind == Primary &&
                r.value.proto == Proto(factories[addr], addr) &&
                r.value.peer == PeerName(old(clientPort)) &&
                r.value.reactor == this && r.value.factory == None &&
                r.value.data == [] && r.value.State() == Fresh &&
                r.value.events == [MadeConnection] &&
                clientPort == old(clientPort) + 1 &&
                calls == old(calls) + [BuildProtocol(factories[addr], addr)]
    {
      if addr !in factories {
        return Err(NoListener(addr));
      }
      var f := factories[addr];
      calls := calls + [BuildProtocol(f, addr)];
      var t := new MessageTransport(Primary, Proto(f, addr), PeerName(clientPort));
      clientPort := clientPort + 1;
      t.reactor := this;
      t.events := t.events + [MadeConnection];
      r := Ok(t);
    }

    /**
     * Connects a new secondary-side transport for `factory` to
     * `(host, port)` and files it at the end of that address's clients.
     */
    method ConnectTCP(host: string, port: int, factory: FactoryId)
      requires Valid()
      modifies this`clientPort, this`calls, this`clients
      ensures Valid()
      ensures clientPort == old(clientPort) + 1
      ensures calls == old(calls) + [BuildProtocol(factory, Address(host, port)), StartedConnecting(factory)]
      ensures Address(host, port) in clients
      ensures forall a | a in old(clients) && a != Address(host, port) :: a in clients && clients[a] == old(clients)[a]
      ensures forall a | a in clients && a != Address(host, port) :: a in old(clients)
      ensures forall a | a in old(clients) :: old(clients)[a] <= clients[a]
      ensures var addr := Address(host, port);
              var before := if addr in old(clients) then old(clients)[addr] else [];
              var t := clients[addr][|clients[addr]| - 1];
              clients[addr] == before + [t] &&
              fresh(t) && t.kind == Secondary && t.proto == Proto(factory, addr) &&
              t.peer == PeerName(old(clientPort)) &&
              t.reactor == this && t.factory == Some(factory) &&
              t.data == [] && t.State() == Fresh && t.events == [MadeConnection]
    {
      var addr := Address(host, port);
      calls := calls + [BuildProtocol(factory, addr)];
      var t := new MessageTransport(Secondary, Proto(factory, addr), PeerName(clientPort));
      clientPort := clientPort + 1;
      t.reactor := this;
      t.factory := Some(factory);
      t.events := t.events + [MadeConnection];
      calls := calls + [StartedConnecting(factory)];
      var before := if addr in clients then clients[addr] else [];
      clients := clients[addr := before + [t]];
    }
  }

  /**
   * Two frames written in one `writeSequence` come back from two reads in
   * the order written, and the buffer is then empty.
   */
  method FramesReadInOrder(p: seq<byte>, q: seq<byte>) returns (a: Result<seq<byte>, ReadError>, b: Result<seq<byte>, ReadError>, left: bool)
    requires |p| < FrameLimit && |q| < FrameLimit
    ensures a == Ok(p) && b == Ok(q) && !left
  {
    var t := new MessageTransport(Primary, Proto(0, Address("", 0)), PeerName(FirstClientPort));
    var fp, fq := Frame(p), Frame(q);
    JoinPair(fp, fq);
    t.WriteSequence([fp, fq]);
    assert t.data == fp + fq;
    ReadFrameOfFrame(p, fq);
    a := t.Read();
    assert fq + [] == fq;
    ReadFrameOfFrame(q, []);
    b := t.Read();
    left := t.HaveData();
  }

  /**
   * The orderly shutdown: with a producer registered, `loseConnection`
   * defers `connectionLost` until `unregisterProducer`, which calls it once.
   */
  method DeferredConnectionLost(p: ProducerId) returns (afterLose: seq<Callback>, afterUnregister: seq<Callback>)
    ensures afterLose == [] && afterUnregister == [ConnectionLost]
  {
    var t := new MessageTransport(Primary, Proto(0, Address("", 0)), PeerName(FirstClientPort));
    t.RegisterProducer(p, true);
    t.LoseConnection();
    afterLose := t.events;
    t.UnregisterProducer();
    afterUnregister := t.events;
  }

  /** Two connections made one after the other get different peers. */
  method ConnectionsGetDistinctPeers(addr: Address, f: FactoryId) returns (first: string, second: string)
    ensures first != second
  {
    var reactor := new TestReactor();
    var _ := reactor.ListenTCP(addr.port, f, addr.host);
    ghost var port := reactor.clientPort;
    var r1 := reactor.Connect(addr);
    var r2 := reactor.Connect(addr);
    first, second := r1.value.peer, r2.value.peer;
    assert first == PeerName(port) && second == PeerName(port + 1);
    if first == second {
      PeerNameInjective(port, port + 1);
    }
  }
}
