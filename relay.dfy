/**
 * The query handler and the upstream exchange. For a received query the
 * handler applies the admission filter, builds the outbound message and the
 * client, exchanges either the rebuilt message through a SOCKS5 tunnel or the
 * original query directly, and writes the upstream's reply back once on
 * success. A rejected query and a failed exchange both end without a write.
 *
 * The network and the client connection are modelled as two objects that
 * record what the handler did to them: `Upstream` logs dials, exchanges and
 * closes and answers from two fixed functions; `ResponseWriter` logs the
 * messages written back.
 */
module Relay {
  import opened Dns
  import opened Filter

  newtype int64 = x: int | -0x8000_0000_0000_0000 <= x < 0x8000_0000_0000_0000

  /** Nanoseconds per second: a Go `time.Duration` counts nanoseconds. */
  const NanosPerSecond: int := 1_000_000_000

  /** The configured timeout for which the client's timeout is left unset. */
  const DefaultTimeout: int64 := 2

  /** The largest UDP message size the client advertises. */
  const MaxUdpSize: uint16 := 0xffff

  /** The fixed address of the SOCKS5 proxy. */
  const SocksProxy: string := "127.0.0.1:1080"

  /** Two's-complement wrap-around of a product into a signed 64-bit integer. */
  function WrapInt64(x: int): (r: int64)
    ensures (r as int - x) % 0x1_0000_0000_0000_0000 == 0
    ensures -0x8000_0000_0000_0000 <= x < 0x8000_0000_0000_0000 ==> r as int == x
  {
    ((x + 0x8000_0000_0000_0000) % 0x1_0000_0000_0000_0000 - 0x8000_0000_0000_0000) as int64
  }

  /**
   * The process-wide settings the handler reads: the suffix list derived
   * from the domain flag, the upstream address and transport, whether the
   * SOCKS5 tunnel is on, and the timeout in seconds. The logging switches
   * are not part of the model.
   */
  datatype Config = Config(
    suffixes: seq<string>,
    upstream: string,
    upstreamTransport: string,
    socks: bool,
    timeout: int64)

  /**
   * The resolver library's client settings the handler sets: the network,
   * the advertised UDP size and the overall timeout in nanoseconds (zero
   * leaves the library's own dial, read and write timeouts in force).
   */
  datatype Client = Client(net: string, udpSize: uint16, timeout: int64)

  /** `dns.Client{}`: every setting at its zero value. */
  const ZeroClient: Client := Client("", 0, 0)

  /** The connection the SOCKS5 dialer opens: through `proxy` to `address`. */
  datatype Tunnel = Tunnel(proxyNetwork: string, proxy: string, network: string, address: string)

  /** One upstream exchange: the original query sent directly, or a message sent through a tunnel. */
  datatype Exchange =
    | Direct(client: Client, query: Msg, address: string)
    | Tunnelled(client: Client, conn: Tunnel, udpSize: uint16, query: Msg)

  /** What the upstream exchange returned. */
  datatype ExchangeResult = Ok(reply: Msg) | Err

  /** What the handler did to the network, in order. */
  datatype Event = Dialed(tunnel: Tunnel, established: bool) | Exchanged(exchange: Exchange) | Closed(tunnel: Tunnel)

  /**
   * How one invocation of the handler ended. `Panicked`: the tunnel could
   * not be opened, so the connection is nil and deferring its Close panics.
   */
  datatype Outcome = Rejected | ExchangeFailed | Replied | Panicked

  /** Everything one invocation of the handler does. */
  datatype Trace = Trace(outcome: Outcome, events: seq<Event>, writes: seq<Msg>)

  // ---------------------------------------------------------------------
  // Outbound message and client

  /**
   * The message relayed through the tunnel: a freshly allocated message that
   * carries the query's questions, with compression off and the
   * authoritative bit set. Everything else (the ID, the recursion-desired
   * bit, the other sections) keeps its zero value.
   */
  function Outbound(r: Msg): (m: Msg)
    ensures m.question == r.question
    ensures !m.compress && m.authoritative
    ensures m.(question := [], authoritative := false) == EmptyMsg
  {
    EmptyMsg.(question := r.question, compress := false, authoritative := true)
  }

  /** The message build of the handler, one field at a time. */
  method BuildOutbound(r: Msg) returns (m: Msg)
    ensures m == Outbound(r)
  {
    m := EmptyMsg;
    m := m.(question := r.question);
    m := m.(compress := false);
    m := m.(authoritative := true);
  }

  /**
   * The client the handler exchanges with: the upstream transport, the
   * maximal UDP size, and the configured timeout in seconds converted to a
   * 64-bit nanosecond duration unless the configured value is 2.
   */
  function ClientFor(cfg: Config): (c: Client)
    ensures c.net == cfg.upstreamTransport
    ensures c.udpSize == MaxUdpSize
    ensures cfg.timeout == DefaultTimeout ==> c.timeout == 0
    ensures cfg.timeout != DefaultTimeout ==>
      c.timeout == WrapInt64(NanosPerSecond * cfg.timeout as int)
  {
    var c := if cfg.timeout != DefaultTimeout
      then ZeroClient.(timeout := WrapInt64(NanosPerSecond * cfg.timeout as int))
      else ZeroClient;
    c.(net := cfg.upstreamTransport, udpSize := MaxUdpSize)
  }

  /** The client configuration of the handler, one field at a time. */
  method ConfigureClient(cfg: Config) returns (c: Client)
    ensures c == ClientFor(cfg)
  {
    c := ZeroClient;
    if cfg.timeout != DefaultTimeout {
      c := c.(timeout := WrapInt64(NanosPerSecond * cfg.timeout as int));
    }
    c := c.(net := cfg.upstreamTransport);
    c := c.(udpSize := MaxUdpSize);
  }

  /** The tunnel of SOCKS mode: TCP to the fixed proxy, then TCP to the upstream. */
  function TunnelFor(cfg: Config): Tunnel {
    Tunnel("tcp", SocksProxy, "tcp", cfg.upstream)
  }

  /**
   * The exchange an admitted query leads to when `m` is the message sent
   * through the tunnel: `m` in SOCKS mode, the query itself otherwise.
   */
  function ExchangeOf(cfg: Config, r: Msg, m: Msg): Exchange {
    var c := ClientFor(cfg);
    if cfg.socks then Tunnelled(c, TunnelFor(cfg), c.udpSize, m)
    else Direct(c, r, cfg.upstream)
  }

  /** The exchange of the handler, which sends the rebuilt message through the tunnel. */
  function ExchangeFor(cfg: Config, r: Msg): Exchange {
    ExchangeOf(cfg, r, Outbound(r))
  }

  /** Writes the reply of a successful exchange; nothing on error. */
  function Deliver(res: ExchangeResult): seq<Msg> {
    if res.Ok? then [res.reply] else []
  }

  /** How the handler ends once the exchange has returned. */
  function OutcomeOf(res: ExchangeResult): Outcome {
    if res.Ok? then Replied else ExchangeFailed
  }

  /**
   * One invocation of a handler on query `r` that sends `m` through the
   * tunnel, given which tunnels can be opened and how the upstream answers
   * each exchange.
   */
  function HandleSending(cfg: Config, r: Msg, m: Msg, opens: Tunnel -> bool, answer: Exchange -> ExchangeResult): Trace {
    if !Admits(r.question, cfg.suffixes) then
      Trace(Rejected, [], [])
    else
      var x := ExchangeOf(cfg, r, m);
      var res := answer(x);
      if cfg.socks then
        var t := TunnelFor(cfg);
        if !opens(t) then Trace(Panicked, [Dialed(t, false)], [])
        else Trace(OutcomeOf(res), [Dialed(t, true), Exchanged(x), Closed(t)], Deliver(res))
      else
        Trace(OutcomeOf(res), [Exchanged(x)], Deliver(res))
  }

  /** One invocation of the handler as written: the tunnel carries `Outbound(r)`. */
  function Handle(cfg: Config, r: Msg, opens: Tunnel -> bool, answer: Exchange -> ExchangeResult): Trace {
    HandleSending(cfg, r, Outbound(r), opens, answer)
  }

  // ---------------------------------------------------------------------
  // The outside world

  /** The client connection a query arrived on; it records every message written to it. */
  class ResponseWriter {
    var written: seq<Msg>

    constructor ()
      ensures written == []
    {
      written := [];
    }

    method WriteMsg(m: Msg)
      modifies this
      ensures written == old(written) + [m]
    {
      written := written + [m];
    }
  }

  /**
   * The proxy and the upstream resolver. `opens` says which tunnels can be
   * established and `answer` how each exchange turns out; `events` records
   * every dial, exchange and close.
   */
  class Upstream {
    const opens: Tunnel -> bool
    const answer: Exchange -> ExchangeResult
    var events: seq<Event>

    constructor (opens: Tunnel -> bool, answer: Exchange -> ExchangeResult)
      ensures this.opens == opens && this.answer == answer && events == []
    {
      this.opens := opens;
      this.answer := answer;
      events := [];
    }

    /** Dial `t.address` through the proxy. */
    method Dial(t: Tunnel) returns (ok: bool)
      modifies this
      ensures ok == opens(t)
      ensures events == old(events) + [Dialed(t, ok)]
    {
      ok := opens(t);
      events := events + [Dialed(t, ok)];
    }

    /** Send one query and wait for the reply or an error. */
    method Exchange(x: Exchange) returns (res: ExchangeResult)
      modifies this
      ensures res == answer(x)
      ensures events == old(events) + [Exchanged(x)]
    {
      res := answer(x);
      events := events + [Exchanged(x)];
    }

    /** Close an open tunnel. */
    method Close(t: Tunnel)
      modifies this
      ensures events == old(events) + [Closed(t)]
    {
      events := events + [Closed(t)];
    }
  }

  /**
   * The handler for one query `r`: admission, message build, client
   * configuration, the SOCKS or direct exchange, and the write on success.
   * The tunnel's deferred Close runs after the write, as the deferred call
   * does when the handler returns.
   */
  method CheckQuery(w: ResponseWriter, up: Upstream, cfg: Config, r: Msg) returns (outcome: Outcome)
    modifies w, up
    ensures outcome == Handle(cfg, r, up.opens, up.answer).outcome
    ensures up.events == old(up.events) + Handle(cfg, r, up.opens, up.answer).events
    ensures w.written == old(w.written) + Handle(cfg, r, up.opens, up.answer).writes
  {
    var admitted := CheckAdmission(r.question, cfg.suffixes);
    if !admitted {
      return Rejected;
    }
    var m := BuildOutbound(r);
    var c := ConfigureClient(cfg);
    var res: ExchangeResult;
    var tunnelled := false;
    var t := TunnelFor(cfg);
    if cfg.socks {
      var ok := up.Dial(t);
      if !ok {
        return Panicked;
      }
      tunnelled := true;
      res := up.Exchange(Tunnelled(c, t, c.udpSize, m));
    } else {
      res := up.Exchange(Direct(c, r, cfg.upstream));
    }
    if res.Err? {
      outcome := ExchangeFailed;
    } else {
      w.WriteMsg(res.reply);
      outcome := Replied;
    }
    if tunnelled {
      up.Close(t);
    }
  }

  // ---------------------------------------------------------------------
  // Properties of the handler

  /**
   * A query is rejected exactly when the filter does not admit it, and a
   * rejected query causes no dial, no exchange and no write.
   */
  lemma RejectionHasNoEffect(cfg: Config, r: Msg, opens: Tunnel -> bool, answer: Exchange -> ExchangeResult)
    ensures Handle(cfg, r, opens, answer).outcome == Rejected <==> !Admits(r.question, cfg.suffixes)
    ensures !Admits(r.question, cfg.suffixes) ==>
      Handle(cfg, r, opens, answer).events == [] && Handle(cfg, r, opens, answer).writes == []
  {
  }

  /** A query without questions is always forwarded upstream. */
  lemma NoQuestionsForwarded(cfg: Config, r: Msg, opens: Tunnel -> bool, answer: Exchange -> ExchangeResult)
    requires r.question == []
    ensures Handle(cfg, r, opens, answer).outcome != Rejected
    ensures !cfg.socks || opens(TunnelFor(cfg)) ==>
      Exchanged(ExchangeFor(cfg, r)) in Handle(cfg, r, opens, answer).events
  {
    NoQuestionsAdmitted(cfg.suffixes);
  }

  /** The direct path exchanges the original query, not the rebuilt message. */
  lemma DirectPathSendsOriginal(cfg: Config, r: Msg, opens: Tunnel -> bool, answer: Exchange -> ExchangeResult)
    requires Admits(r.question, cfg.suffixes) && !cfg.socks
    ensures Handle(cfg, r, opens, answer).events == [Exchanged(Direct(ClientFor(cfg), r, cfg.upstream))]
  {
  }

  /**
   * The SOCKS path dials the upstream over TCP through the fixed proxy,
   * exchanges the rebuilt message on a connection whose UDP size is the
   * client's, and closes the tunnel afterwards; if the tunnel cannot be
   * opened the handler panics before any exchange.
   */
  lemma SocksPathSendsOutbound(cfg: Config, r: Msg, opens: Tunnel -> bool, answer: Exchange -> ExchangeResult)
    requires Admits(r.question, cfg.suffixes) && cfg.socks
    ensures var t := Tunnel("tcp", SocksProxy, "tcp", cfg.upstream);
      var c := ClientFor(cfg);
      Handle(cfg, r, opens, answer).events ==
        if opens(t) then [Dialed(t, true), Exchanged(Tunnelled(c, t, c.udpSize, Outbound(r))), Closed(t)]
        else [Dialed(t, false)]
    ensures !opens(TunnelFor(cfg)) ==>
      Handle(cfg, r, opens, answer).outcome == Panicked && Handle(cfg, r, opens, answer).writes == []
  {
  }

  /** Every tunnel that was opened is closed, and closing is the last thing done. */
  lemma TunnelAlwaysReleased(cfg: Config, r: Msg, opens: Tunnel -> bool, answer: Exchange -> ExchangeResult, k: nat)
    requires k < |Handle(cfg, r, opens, answer).events|
    requires Handle(cfg, r, opens, answer).events[k].Dialed?
    requires Handle(cfg, r, opens, answer).events[k].established
    ensures var events := Handle(cfg, r, opens, answer).events;
      events[|events| - 1] == Closed(events[k].tunnel)
  {
  }

  /** One query leads to at most one exchange: the relay never retries. */
  lemma AtMostOneExchange(cfg: Config, r: Msg, opens: Tunnel -> bool, answer: Exchange -> ExchangeResult, i: nat, j: nat)
    requires i < j < |Handle(cfg, r, opens, answer).events|
    ensures !(Handle(cfg, r, opens, answer).events[i].Exchanged? && Handle(cfg, r, opens, answer).events[j].Exchanged?)
  {
  }

  /**
   * The result handling: the handler writes exactly when the query is
   * admitted, the tunnel (if any) opens and the exchange succeeds; it then
   * writes once, and what it writes is the upstream's reply unchanged.
   */
  lemma WriteOnlyOnSuccess(cfg: Config, r: Msg, opens: Tunnel -> bool, answer: Exchange -> ExchangeResult)
    ensures var tr := Handle(cfg, r, opens, answer);
      tr.writes != [] <==>
        Admits(r.question, cfg.suffixes) && (cfg.socks ==> opens(TunnelFor(cfg))) &&
        answer(ExchangeFor(cfg, r)).Ok?
    ensures var tr := Handle(cfg, r, opens, answer);
      tr.writes != [] ==> tr.outcome == Replied && tr.writes == [answer(ExchangeFor(cfg, r)).reply]
    ensures var tr := Handle(cfg, r, opens, answer);
      tr.outcome == Replied <==> |tr.writes| == 1
  {
  }

  /**
   * The two paths send different headers: the direct path sends the query
   * as received, while the message rebuilt for the tunnel has ID 0, opcode
   * QUERY, and neither the recursion-desired nor the checking-disabled bit,
   * whatever the query carried.
   */
  lemma ExchangedQueryHeader(cfg: Config, r: Msg)
    ensures cfg.socks ==> ExchangeFor(cfg, r).query.id == 0 && !ExchangeFor(cfg, r).query.recursionDesired
    ensures cfg.socks ==> ExchangeFor(cfg, r).query.opcode == 0 && !ExchangeFor(cfg, r).query.checkingDisabled
    ensures !cfg.socks ==> ExchangeFor(cfg, r).query == r
    ensures ExchangeFor(cfg, r).query.question == r.question
  {
  }

  /**
   * The timeout quirk: a configured timeout of 2 leaves the client's timeout
   * unset, which is the same client as a configured timeout of 0.
   */
  lemma TimeoutTwoIsUnset(cfg: Config)
    ensures ClientFor(cfg.(timeout := 2)) == ClientFor(cfg.(timeout := 0))
  {
  }

  /**
   * Any other timeout from -9223372036 to 9223372036 seconds (about 292
   * years either way) is that many seconds exactly.
   */
  lemma TimeoutInSeconds(cfg: Config)
    requires cfg.timeout != DefaultTimeout
    requires -9_223_372_036 <= cfg.timeout <= 9_223_372_036
    ensures ClientFor(cfg).timeout as int == cfg.timeout as int * NanosPerSecond
  {
  }

  /** Above that range the nanosecond duration wraps around, here to a negative timeout. */
  lemma TimeoutOverflowWraps(cfg: Config)
    requires cfg.timeout == 9_223_372_037
    ensures ClientFor(cfg).timeout == -9_223_372_036_709_551_616
  {
  }

  /** Below that range it wraps the other way, here to a positive timeout of about 292 years. */
  lemma TimeoutUnderflowWraps(cfg: Config)
    requires cfg.timeout == -9_223_372_037
    ensures ClientFor(cfg).timeout == 9_223_372_036_709_551_616
  {
  }

  // ---------------------------------------------------------------------
  // The reply ID on the SOCKS path

  /**
   * An upstream that follows section 4.1.1 of RFC 1035: the ID of every reply
   * is the ID of the query it answers.
   */
  ghost predicate EchoesId(answer: Exchange -> ExchangeResult) {
    forall x :: answer(x).Ok? ==> answer(x).reply.id == x.query.id
  }

  /**
   * As written, the SOCKS path hands the client a reply with ID 0: the
   * rebuilt message has ID 0, the upstream echoes it, and the reply is
   * written unchanged. A client whose query had another ID cannot match it.
   */
  lemma SocksReplyHasIdZero(cfg: Config, r: Msg, opens: Tunnel -> bool, answer: Exchange -> ExchangeResult)
    requires EchoesId(answer) && cfg.socks
    ensures forall k :: 0 <= k < |Handle(cfg, r, opens, answer).writes| ==>
      Handle(cfg, r, opens, answer).writes[k].id == 0
    ensures r.id != 0 ==> forall k :: 0 <= k < |Handle(cfg, r, opens, answer).writes| ==>
      Handle(cfg, r, opens, answer).writes[k].id != r.id
  {
  }

  /** The direct path sends the query itself, so the client gets its own ID back. */
  lemma DirectReplyHasQueryId(cfg: Config, r: Msg, opens: Tunnel -> bool, answer: Exchange -> ExchangeResult)
    requires EchoesId(answer) && !cfg.socks
    ensures forall k :: 0 <= k < |Handle(cfg, r, opens, answer).writes| ==>
      Handle(cfg, r, opens, answer).writes[k].id == r.id
  {
  }

  /** The rebuilt message carrying the query's ID, as the reply must. */
  function IntendedOutbound(r: Msg): (m: Msg)
    ensures m.id == r.id
    ensures m.(id := 0) == Outbound(r)
  {
    Outbound(r).(id := r.id)
  }

  /** The handler with the ID carried over into the rebuilt message. */
  function IntendedHandle(cfg: Config, r: Msg, opens: Tunnel -> bool, answer: Exchange -> ExchangeResult): Trace {
    HandleSending(cfg, r, IntendedOutbound(r), opens, answer)
  }

  /**
   * With the ID carried over, every reply the client receives carries the
   * ID of its query, on both paths. The direct path is unchanged, and the
   * filter rejects the same queries.
   */
  lemma IntendedReplyMatchesQuery(cfg: Config, r: Msg, opens: Tunnel -> bool, answer: Exchange -> ExchangeResult)
    requires EchoesId(answer)
    ensures forall k :: 0 <= k < |IntendedHandle(cfg, r, opens, answer).writes| ==>
      IntendedHandle(cfg, r, opens, answer).writes[k].id == r.id
    ensures !cfg.socks ==> IntendedHandle(cfg, r, opens, answer) == Handle(cfg, r, opens, answer)
    ensures IntendedHandle(cfg, r, opens, answer).outcome == Rejected <==>
      Handle(cfg, r, opens, answer).outcome == Rejected
  {
  }
}
