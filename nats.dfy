/** The NATS broker adapter: server-address normalisation, the broker's
    connection state, and the decisions it takes around the NATS client
    (which itself is represented only by the results of its calls). */
module Nats {
  import opened Common

  /** The URL scheme every server address must carry. */
  const Scheme: string := "nats://"

  /** The NATS client library's default server URL (`nats.DefaultURL`). */
  const DefaultURL: string := "nats://localhost:4222"

  predicate HasScheme(addr: string) {
    Scheme <= addr
  }

  /** One address as the normalising loop rewrites it: the scheme is added
      in front when missing, and an address that has it passes unchanged. */
  function WithScheme(addr: string): (r: string)
    ensures HasScheme(r)
    ensures HasScheme(addr) ==> r == addr
    ensures |addr| <= |r| && r[|r| - |addr|..] == addr
  {
    if HasScheme(addr) then addr else Scheme + addr
  }

  /** The addresses the loop of `setAddrs` collects, before the default is
      substituted: blank entries dropped, the others given the scheme. */
  function Kept(addrs: seq<string>): seq<string>
    decreases |addrs|
  {
    if addrs == [] then []
    else (if addrs[0] == "" then [] else [WithScheme(addrs[0])]) + Kept(addrs[1..])
  }

  /** What `setAddrs` returns: the kept addresses, or the default URL alone
      when none is left. */
  function Normalized(addrs: seq<string>): seq<string> {
    var kept := Kept(addrs);
    if kept == [] then [DefaultURL] else kept
  }

  /** Reference definition of "the non-empty inputs, in input order". */
  function NonBlank(addrs: seq<string>): seq<string>
    decreases |addrs|
  {
    if addrs == [] then []
    else (if addrs[0] == "" then [] else [addrs[0]]) + NonBlank(addrs[1..])
  }

  /** `setAddrs`: the loop over the configured addresses that builds the
      normalised list. */
  method SetAddrs(addrs: seq<string>) returns (cAddrs: seq<string>)
    ensures cAddrs == Normalized(addrs)
  {
    cAddrs := [];
    for i := 0 to |addrs|
      invariant cAddrs == Kept(addrs[..i])
    {
      var addr := addrs[i];
      assert addrs[..i + 1] == addrs[..i] + [addr];
      KeptConcat(addrs[..i], [addr]);
      if |addr| == 0 {
        continue;
      }
      if !HasScheme(addr) {
        addr := Scheme + addr;
      }
      cAddrs := cAddrs + [addr];
    }
    assert addrs[..|addrs|] == addrs;
    if |cAddrs| == 0 {
      cAddrs := [DefaultURL];
    }
  }

  /** The list the loop collects from a concatenation is what it collects
      from each part, concatenated: the loop never reorders or merges
      entries. The default substitution that follows the loop does not
      distribute this way, since two blank parts give the default twice. */
  lemma {:induction false} KeptConcat(xs: seq<string>, ys: seq<string>)
    ensures Kept(xs + ys) == Kept(xs) + Kept(ys)
    decreases |xs|
  {
    if xs == [] {
      assert xs + ys == ys;
    } else {
      assert (xs + ys)[0] == xs[0];
      assert (xs + ys)[1..] == xs[1..] + ys;
      KeptConcat(xs[1..], ys);
    }
  }

  /** The kept list is the non-empty inputs, in their input order, each
      given the scheme; so its length is the number of non-empty inputs. */
  lemma {:induction false} KeptIsSchemedNonBlank(xs: seq<string>)
    ensures |Kept(xs)| == |NonBlank(xs)|
    ensures forall k :: 0 <= k < |Kept(xs)| ==> Kept(xs)[k] == WithScheme(NonBlank(xs)[k])
    decreases |xs|
  {
    if xs != [] {
      KeptIsSchemedNonBlank(xs[1..]);
    }
  }

  /** Every entry of the result is non-empty and carries the scheme. */
  lemma {:induction false} NormalizedSchemed(xs: seq<string>)
    ensures forall a :: a in Normalized(xs) ==> HasScheme(a) && a != ""
  {
    KeptSchemed(xs);
  }

  lemma {:induction false} KeptSchemed(xs: seq<string>)
    ensures forall a :: a in Kept(xs) ==> HasScheme(a) && a != ""
    decreases |xs|
  {
    if xs != [] {
      KeptSchemed(xs[1..]);
      var head := if xs[0] == "" then [] else [WithScheme(xs[0])];
      assert Kept(xs) == head + Kept(xs[1..]);
      forall a | a in Kept(xs) ensures HasScheme(a) && a != "" {
        if a in head {
          assert a == WithScheme(xs[0]) && |xs[0]| <= |a|;
        }
      }
    }
  }

  /** Every non-empty input appears in the result, with the scheme added
      when it was missing. */
  lemma {:induction false} KeptContains(xs: seq<string>, i: nat)
    requires i < |xs| && xs[i] != ""
    ensures WithScheme(xs[i]) in Kept(xs) && WithScheme(xs[i]) in Normalized(xs)
    decreases |xs|
  {
    if i > 0 {
      KeptContains(xs[1..], i - 1);
    }
  }

  /** The kept list is empty exactly when every input entry is empty
      (in particular for an empty input). */
  lemma {:induction false} KeptEmptyIff(xs: seq<string>)
    ensures Kept(xs) == [] <==> forall i :: 0 <= i < |xs| ==> xs[i] == ""
    decreases |xs|
  {
    if xs != [] {
      KeptEmptyIff(xs[1..]);
      if xs[0] == "" {
        forall i | 0 < i < |xs| && (forall j :: 0 <= j < |xs[1..]| ==> xs[1..][j] == "")
          ensures xs[i] == ""
        {
          assert xs[1..][i - 1] == xs[i];
        }
      }
    }
  }

  /** The result is never empty; it is the default URL alone when every
      input is empty, and otherwise the kept list, whose length is the
      number of non-empty inputs. */
  lemma NormalizedShape(xs: seq<string>)
    ensures |Normalized(xs)| >= 1
    ensures (forall i :: 0 <= i < |xs| ==> xs[i] == "") ==> Normalized(xs) == [DefaultURL]
    ensures (exists i :: 0 <= i < |xs| && xs[i] != "") ==>
      Normalized(xs) == Kept(xs) && |Normalized(xs)| == |NonBlank(xs)|
  {
    KeptEmptyIff(xs);
    KeptIsSchemedNonBlank(xs);
  }

  /** The converse of "all inputs empty gives the default" does not hold:
      a single non-empty address, the default itself, also yields exactly
      the default list. */
  lemma DefaultFromNonBlankInput()
    ensures Normalized([DefaultURL]) == [DefaultURL]
  {
    NormalizedIdempotent([]);
  }

  /** Entries that are non-empty and already carry the scheme pass through
      unchanged, as a whole list. */
  lemma {:induction false} KeptFixesSchemed(xs: seq<string>)
    requires forall i :: 0 <= i < |xs| ==> xs[i] != "" && HasScheme(xs[i])
    ensures Kept(xs) == xs
    decreases |xs|
  {
    if xs != [] {
      KeptFixesSchemed(xs[1..]);
    }
  }

  /** `setAddrs` is idempotent: a normalised list normalises to itself. */
  lemma NormalizedIdempotent(xs: seq<string>)
    ensures Normalized(Normalized(xs)) == Normalized(xs)
  {
    var n := Normalized(xs);
    NormalizedSchemed(xs);
    forall i | 0 <= i < |n| ensures n[i] != "" && HasScheme(n[i]) {
      assert n[i] in n;
    }
    KeptFixesSchemed(n);
  }

  // ----- Broker values -----

  newtype byte = x: int | 0 <= x < 256

  /** The framework's `broker.Message`. */
  datatype Message = Message(header: map<string, string>, body: seq<byte>)

  /** The pluggable codec, a pair of foreign partial functions. */
  datatype Codec = Codec(marshal: Message -> Result<seq<byte>>, unmarshal: seq<byte> -> Result<Message>)

  /** An opaque `*tls.Config`. */
  datatype TlsConfig = TlsConfig(id: nat)

  /** The parts of `broker.Options` the adapter reads. */
  datatype BrokerOptions = BrokerOptions(addrs: seq<string>, secure: bool, tlsConfig: Option<TlsConfig>, codec: Codec)

  /** `broker.Options` before the caller's options run: the given default
      codec, no addresses, not secure, no TLS config. */
  function DefaultOptions(codec: Codec): BrokerOptions {
    BrokerOptions([], false, None, codec)
  }

  /** A snapshot of the client connection: whether it is connected now and
      the URL it is connected to. */
  datatype Conn = Conn(id: nat, connected: bool, connectedUrl: string)

  /** The connection options handed to the client's dial. */
  datatype DialOptions = DialOptions(servers: seq<string>, secure: bool, tlsConfig: Option<TlsConfig>)

  /** A NATS message as it travels: subject and payload bytes. */
  datatype NatsMsg = NatsMsg(subject: string, data: seq<byte>)

  /** The publication handed to a subscription's handler. */
  datatype Publication = Publication(topic: string, message: Message)

  datatype SubscribeOptions = SubscribeOptions(autoAck: bool, queue: string)

  /** Subscribe options before the caller's options run. */
  const DefaultSubscribeOptions := SubscribeOptions(true, "")

  /** The caller's message handler; the model never looks inside it. */
  datatype Handler = Handler(id: nat)

  /** The callback a subscription registers with the client: decode the
      arriving message with the broker's codec as it is at that moment,
      then hand the publication to `handler` (see `Broker.Deliver`). */
  datatype Callback = DecodeThen(handler: Handler)

  /** A call of a handler with a publication. */
  datatype HandlerCall = HandlerCall(handler: Handler, publication: Publication)

  /** Which client call a subscription uses: a plain fan-out subscription,
      or a queue-group (load-shared) one, each with its callback. */
  datatype Registration =
    | Plain(topic: string, callback: Callback)
    | QueueGroup(topic: string, queue: string, callback: Callback)

  /** With no caller options a subscription auto-acknowledges and uses a
      plain (fan-out) subscription. */
  lemma SubscribeDefaults(topic: string, cb: Callback)
    ensures ApplyAll(DefaultSubscribeOptions, []).autoAck
    ensures RegistrationFor(topic, ApplyAll(DefaultSubscribeOptions, []), cb) == Plain(topic, cb)
  {
  }

  /** An opaque client subscription handle and the subject it is on. */
  datatype SubHandle = SubHandle(id: nat, subject: string)

  datatype Subscriber = Subscriber(sub: SubHandle, opts: SubscribeOptions)

  /** The options the broker's `Connect` dials with. */
  function DialOptionsFor(opts: BrokerOptions, addrs: seq<string>): (d: DialOptions)
    ensures d.servers == addrs && d.tlsConfig == opts.tlsConfig
    ensures opts.tlsConfig.Some? ==> d.secure
    ensures opts.tlsConfig.None? ==> d.secure == opts.secure
  {
    DialOptions(addrs, opts.secure || opts.tlsConfig.Some?, opts.tlsConfig)
  }

  /** The subscription call chosen for the resolved subscribe options. */
  function RegistrationFor(topic: string, opt: SubscribeOptions, cb: Callback): (r: Registration)
    ensures r.topic == topic && r.callback == cb
    ensures r.QueueGroup? <==> |opt.queue| > 0
    ensures r.QueueGroup? ==> r.queue == opt.queue
  {
    if |opt.queue| > 0 then QueueGroup(topic, opt.queue, cb) else Plain(topic, cb)
  }

  /** What `Publish` hands to the connection: the marshalled message on
      the topic, or the codec's error. */
  function Encode(codec: Codec, topic: string, msg: Message): (r: Result<NatsMsg>)
    ensures r.Ok? <==> codec.marshal(msg).Ok?
    ensures r.Ok? ==> r.value.subject == topic && r.value.data == codec.marshal(msg).value
    ensures r.Err? ==> r.error == codec.marshal(msg).error
  {
    match codec.marshal(msg)
    case Err(e) => Err(e)
    case Ok(b) => Ok(NatsMsg(topic, b))
  }

  /** The subscription callback: the publication the handler is called
      with, or None when unmarshalling fails and the message is dropped. */
  function Decode(codec: Codec, msg: NatsMsg): (p: Option<Publication>)
    ensures p.None? <==> codec.unmarshal(msg.data).Err?
    ensures p.Some? ==> p.value.topic == msg.subject && p.value.message == codec.unmarshal(msg.data).value
  {
    match codec.unmarshal(msg.data)
    case Err(_) => None
    case Ok(m) => Some(Publication(msg.subject, m))
  }

  /** A message published with a codec that round-trips it reaches the
      handler with the same topic and the same message. */
  lemma PublishDeliverRoundTrip(codec: Codec, topic: string, msg: Message)
    requires codec.marshal(msg).Ok?
    requires codec.unmarshal(codec.marshal(msg).value) == Ok(msg)
    ensures Encode(codec, topic, msg).Ok?
    ensures Decode(codec, Encode(codec, topic, msg).value) == Some(Publication(topic, msg))
  {
  }

  /** The broker (`nbroker`): normalised addresses, the connection (nil
      until the first successful `Connect`), and the options. */
  class Broker {
    var addrs: seq<string>
    var conn: Option<Conn>
    var opts: BrokerOptions

    /** The address list is always the normalised form of the configured
        addresses. */
    ghost predicate Valid()
      reads this
    {
      addrs == Normalized(opts.addrs)
    }

    /** `NewBroker`: the default options with the given codec, the caller's
        options applied in order, the addresses normalised, no connection. */
    constructor (defaultCodec: Codec, os: seq<BrokerOptions -> BrokerOptions>)
      ensures Valid()
      ensures opts == ApplyAll(DefaultOptions(defaultCodec), os)
      ensures conn == None
    {
      var options := DefaultOptions(defaultCodec);
      for i := 0 to |os|
        invariant options == ApplyAll(DefaultOptions(defaultCodec), os[..i])
      {
        assert os[..i + 1] == os[..i] + [os[i]];
        ApplyAllConcat(DefaultOptions(defaultCodec), os[..i], [os[i]]);
        options := os[i](options);
      }
      assert os[..|os|] == os;
      var normalized := SetAddrs(options.addrs);
      addrs := normalized;
      opts := options;
      conn := None;
    }

    /** `Address`: the connected server's URL while connected, else the
        first configured address, else the empty string. */
    function Address(): (a: string)
      reads this
      ensures conn.Some? && conn.value.connected ==> a == conn.value.connectedUrl
      ensures !(conn.Some? && conn.value.connected) && addrs != [] ==> a == addrs[0]
      ensures !(conn.Some? && conn.value.connected) && addrs == [] ==> a == ""
      ensures Valid() && !(conn.Some? && conn.value.connected) ==> a != "" && HasScheme(a)
    {
      if conn.Some? && conn.value.connected then conn.value.connectedUrl
      else if |addrs| > 0 then NormalizedSchemed(opts.addrs); assert addrs[0] in addrs; addrs[0]
      else ""
    }

    /** `Connect`: nothing happens when a connection exists already;
        otherwise dial once with the derived options and keep the
        connection on success, or return the dial's error. */
    method Connect(dial: DialOptions -> Result<Conn>) returns (err: Option<Error>)
      requires Valid()
      modifies this
      ensures Valid() && opts == old(opts) && addrs == old(addrs)
      ensures old(conn).Some? ==> err == None && conn == old(conn)
      ensures old(conn).None? ==>
        match dial(DialOptionsFor(opts, addrs))
        case Ok(c) => err == None && conn == Some(c)
        case Err(e) => err == Some(e) && conn == None
    {
      if conn.Some? {
        return None;
      }
      var d := DialOptions(addrs, opts.secure, opts.tlsConfig);
      // A TLS configuration implies a secure connection.
      if opts.tlsConfig.Some? {
        d := d.(secure := true);
      }
      var r := dial(d);
      match r
      case Err(e) =>
        return Some(e);
      case Ok(c) =>
        conn := Some(c);
        return None;
    }

    /** `Disconnect`: closes the connection. The handle is kept (closed, no
        longer connected), so a later `Connect` does nothing. */
    method Disconnect() returns (err: Option<Error>)
      requires Valid() && conn.Some?
      modifies this
      ensures Valid() && err == None && opts == old(opts) && addrs == old(addrs)
      ensures conn == Some(old(conn).value.(connected := false))
    {
      conn := Some(conn.value.(connected := false));
      return None;
    }

    /** `Init`: applies the options in order to the current options and
        recomputes the addresses; the connection is left alone. */
    method Init(os: seq<BrokerOptions -> BrokerOptions>) returns (err: Option<Error>)
      modifies this
      ensures Valid() && err == None
      ensures opts == ApplyAll(old(opts), os)
      ensures conn == old(conn)
    {
      ghost var start := opts;
      for i := 0 to |os|
        invariant opts == ApplyAll(start, os[..i])
        invariant conn == old(conn)
      {
        assert os[..i + 1] == os[..i] + [os[i]];
        ApplyAllConcat(start, os[..i], [os[i]]);
        opts := os[i](opts);
      }
      assert os[..|os|] == os;
      addrs := SetAddrs(opts.addrs);
      return None;
    }

    /** What a subscription's callback does when a message arrives: it
        decodes with the codec the broker holds at that moment (so a later
        `Init` that changes the codec changes how existing subscriptions
        decode), drops the message when decoding fails, and otherwise calls
        the handler with the message's subject and the decoded message. */
    function Deliver(cb: Callback, msg: NatsMsg): (c: Option<HandlerCall>)
      reads this
      ensures c.None? <==> opts.codec.unmarshal(msg.data).Err?
      ensures c.Some? ==> c.value.handler == cb.handler
      ensures c.Some? ==> c.value.publication == Publication(msg.subject, opts.codec.unmarshal(msg.data).value)
    {
      match Decode(opts.codec, msg)
      case None => None
      case Some(p) => Some(HandlerCall(cb.handler, p))
    }

    /** `Publish`: marshals the message with the configured codec; on a
        codec error nothing is sent and that error is returned, otherwise
        the bytes go to the topic and the transport's answer is returned. */
    method Publish(topic: string, msg: Message, send: NatsMsg -> Option<Error>)
      returns (sent: Option<NatsMsg>, err: Option<Error>)
      ensures match Encode(opts.codec, topic, msg)
        case Err(e) => sent == None && err == Some(e)
        case Ok(m) => sent == Some(m) && err == send(m)
      ensures forall cb: Callback ::
        sent.Some? && opts.codec.unmarshal(sent.value.data) == Ok(msg) ==>
          Deliver(cb, sent.value) == Some(HandlerCall(cb.handler, Publication(topic, msg)))
    {
      var b := opts.codec.marshal(msg);
      if b.Err? {
        return None, Some(b.error);
      }
      var m := NatsMsg(topic, b.value);
      return Some(m), send(m);
    }

    /** `Subscribe`: the subscribe options start with auto-ack on, the
        caller's options run in order, and the queue-group call is used
        exactly when a queue name was given. */
    method Subscribe(topic: string, handler: Handler, os: seq<SubscribeOptions -> SubscribeOptions>,
                     register: Registration -> Result<SubHandle>)
      returns (r: Result<Subscriber>)
      ensures var opt := ApplyAll(DefaultSubscribeOptions, os);
        match register(RegistrationFor(topic, opt, DecodeThen(handler)))
        case Ok(h) => r == Ok(Subscriber(h, opt))
        case Err(e) => r == Err(e)
    {
      var opt := DefaultSubscribeOptions;
      for i := 0 to |os|
        invariant opt == ApplyAll(DefaultSubscribeOptions, os[..i])
      {
        assert os[..i + 1] == os[..i] + [os[i]];
        ApplyAllConcat(DefaultSubscribeOptions, os[..i], [os[i]]);
        opt := os[i](opt);
      }
      assert os[..|os|] == os;
      var sub: Result<SubHandle>;
      if |opt.queue| > 0 {
        sub := register(QueueGroup(topic, opt.queue, DecodeThen(handler)));
      } else {
        sub := register(Plain(topic, DecodeThen(handler)));
      }
      if sub.Err? {
        return Err(sub.error);
      }
      return Ok(Subscriber(sub.value, opt));
    }
  }
}
