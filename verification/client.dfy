/** The client session object of client.go:17-28 and the operations that
    change it: `NewClient`, `connect`, `disconnect`, the read loop `listen`
    and the write loop of `Run`. Each is specified by the value-level
    functions of module `Session`. */
module Prisclient {
  import opened Envelope
  import opened Codec
  import opened Validator
  import opened Session

  datatype Result<T> = Ok(value: T) | Err(error: string)

  predicate IsClientType(t: string) {
    t == "adapter" || t == "responder"
  }

  /** `NewClient` (client.go:83-101): refuses any client type other than
      `adapter` and `responder`; otherwise stores the settings as given. */
  method NewClient(host: string, port: string, clientType: string, sourceId: string, secret: string, autoRetry: bool)
    returns (r: Result<Client>)
    ensures r.Ok? <==> IsClientType(clientType)
    ensures r.Err? ==> r.error == "client type has to be adapter or responder"
    ensures r.Ok? ==> fresh(r.value) && r.value.Valid()
    ensures r.Ok? ==> r.value.Configuration() == Config(host, port, clientType, secret, autoRetry)
    ensures r.Ok? ==> r.value.Snapshot() == State(sourceId, None, [])
  {
    if clientType != "adapter" && clientType != "responder" {
      return Err("client type has to be adapter or responder");
    }
    var pris := new Client(host, port, clientType, sourceId, secret, autoRetry);
    return Ok(pris);
  }

  class Client {
    // Set by NewClient and never changed afterwards.
    const host: string
    const port: string
    const clientType: string
    const secret: string
    const autoRetry: bool

    var sourceId: string
    // The connection the raw socket, the decoder and the encoder use; None
    // stands for nil, before the first successful handshake.
    var raw: Option<Conn>
    var decoder: Option<Conn>
    var encoder: Option<Conn>
    // The connections `disconnect` has closed so far.
    ghost var closed: seq<Conn>

    ghost predicate Valid()
      reads this
    {
      IsClientType(clientType) && decoder == raw && encoder == raw
    }

    function Configuration(): Config {
      Config(host, port, clientType, secret, autoRetry)
    }

    ghost function Snapshot(): State
      reads this
    {
      State(sourceId, raw, closed)
    }

    constructor (host: string, port: string, clientType: string, sourceId: string, secret: string, autoRetry: bool)
      requires IsClientType(clientType)
      ensures Valid()
      ensures Configuration() == Config(host, port, clientType, secret, autoRetry)
      ensures Snapshot() == State(sourceId, None, [])
    {
      this.host := host;
      this.port := port;
      this.clientType := clientType;
      this.secret := secret;
      this.autoRetry := autoRetry;
      this.sourceId := sourceId;
      raw, decoder, encoder := None, None, None;
      closed := [];
    }

    /** `connect` against attempt `a`. `engage` is the query it encodes,
        if the dial succeeded. The new source id and connection are
        published only after the hub answers `proceed`. */
    method Connect(p: Primitives, a: Attempt) returns (outcome: ConnectOutcome, engage: Option<Query>)
      requires Valid()
      modifies this
      ensures Valid()
      ensures Step(outcome, Snapshot()) == ConnectStep(old(Snapshot()), a)
      ensures engage == if a.Refused? then None else Some(EngageQuery(Configuration(), p, old(sourceId), a.now))
    {
      engage := None;
      if a.Refused? {
        return Failed(DialError), engage;
      }
      var conn, timestamp := a.conn, a.now;
      var authMsg := AuthMessage(timestamp, sourceId, secret);
      var mac := p.hmacSha256(secret, authMsg);
      engage := Some(Query("command", sourceId, "server",
        Some(BlankCommand.(action := "engage", kind := clientType, time := timestamp, data := p.base64(mac))),
        None));
      if !a.sendOk {
        return Failed(SendError), engage;
      }
      if a.reply.ReplyFailed? {
        return Failed(ReplyError), engage;
      }
      var ack := a.reply.ack;
      if ack.kind != "command" {
        return Halted(Fatal), engage;
      }
      if ack.command.None? {
        // `ack.Command.Action` dereferences a nil pointer.
        return Halted(NilDereference), engage;
      }
      if ack.command.value.action != "proceed" {
        return Halted(Fatal), engage;
      }
      sourceId := ack.command.value.data;
      encoder, decoder, raw := Some(conn), Some(conn), Some(conn);
      // The error test of client.go:157-160 sees the nil error of the decode
      // above and never fires.
      outcome := Engaged;
    }

    /** `disconnect`: closes the raw connection, if there is one. */
    method Disconnect()
      requires Valid()
      modifies this`closed
      ensures Valid()
      ensures Snapshot() == Disconnected(old(Snapshot()))
    {
      if raw.Some? {
        closed := closed + [raw.value];
      }
    }

    /** `listen`, with `out` collected into `delivered`. The 5-second sleeps
        before each retry are steps that do nothing. */
    method Listen(attempts: seq<Attempt>, stream: seq<Read>, p: Primitives) returns (delivered: seq<Query>, end: ListenEnd)
      requires Valid()
      modifies this
      ensures Valid()
      ensures Listened(delivered, end, Snapshot()) == Establish(Configuration(), old(Snapshot()), attempts, stream)
    {
      var ai, stop := ConnectLoop(attempts, stream, p);
      if stop.Some? {
        return [], stop.value;
      }
      delivered, end := RelayLoop(attempts, ai, stream, p);
    }

    /** The first loop of `listen` (client.go:174-189): connect until it
        succeeds. On success it reports how many attempts it used; otherwise
        how `listen` ends. */
    method ConnectLoop(attempts: seq<Attempt>, stream: seq<Read>, p: Primitives) returns (ai: nat, stop: Option<ListenEnd>)
      requires Valid()
      modifies this
      ensures Valid()
      ensures ai <= |attempts|
      ensures stop.Some? ==> Listened([], stop.value, Snapshot()) == Establish(Configuration(), old(Snapshot()), attempts, stream)
      ensures stop.None? ==> Relay(Configuration(), Snapshot(), attempts[ai..], stream) == Establish(Configuration(), old(Snapshot()), attempts, stream)
    {
      ghost var cfg := Configuration();
      ghost var spec := Establish(cfg, Snapshot(), attempts, stream);
      ai := 0;
      while true
        invariant Valid()
        invariant 0 <= ai <= |attempts|
        invariant spec == Establish(cfg, Snapshot(), attempts[ai..], stream)
        decreases |attempts| - ai
      {
        if ai == |attempts| {
          return ai, Some(InputExhausted);
        }
        // The `err == nil` test of client.go:175-177 never fires: the loop
        // condition has already seen a non-nil error.
        assert attempts[ai..][0] == attempts[ai] && attempts[ai..][1..] == attempts[ai + 1..];
        var outcome, engage := Connect(p, attempts[ai]);
        ai := ai + 1;
        if outcome == Engaged {
          return ai, None;
        }
        if outcome.Halted? {
          return ai, Some(Stopped(outcome.halt));
        }
        if autoRetry {
          Disconnect();
          // The 5-second back-off before the next attempt: no step.
        } else {
          // Error.Fatal: the process stops
          return ai, Some(Stopped(Fatal));
        }
      }
    }

    /** The second loop of `listen` (client.go:192-236), entered with the
        first `ai` attempts used up. */
    method RelayLoop(attempts: seq<Attempt>, ai0: nat, stream: seq<Read>, p: Primitives) returns (delivered: seq<Query>, end: ListenEnd)
      requires Valid() && ai0 <= |attempts|
      modifies this
      ensures Valid()
      ensures Listened(delivered, end, Snapshot()) == Relay(Configuration(), old(Snapshot()), attempts[ai0..], stream)
    {
      ghost var cfg := Configuration();
      ghost var spec := Relay(cfg, Snapshot(), attempts[ai0..], stream);
      delivered := [];
      var ai, ri := ai0, 0;
      while ri < |stream|
        invariant Valid()
        invariant 0 <= ai <= |attempts| && 0 <= ri <= |stream|
        invariant spec == Prepend(delivered, Relay(cfg, Snapshot(), attempts[ai..], stream[ri..]))
        decreases |stream| - ri
      {
        var got, stop;
        got, ai, stop := RelayStep(attempts, ai, stream, ri, p);
        if stop.Some? {
          return delivered + got, stop.value;
        }
        PrependPrepend(delivered, got, Relay(cfg, Snapshot(), attempts[ai..], stream[ri + 1..]));
        delivered := delivered + got;
        ri := ri + 1;
      }
      end := InputExhausted;
    }

    /** One turn of the second loop of `listen` (client.go:193-235): decode
        one query, recover from a failed decode, and pass the query through
        the validator. `got` is what the turn hands to the caller. */
    method RelayStep(attempts: seq<Attempt>, ai: nat, stream: seq<Read>, ri: nat, p: Primitives)
      returns (got: seq<Query>, ai': nat, stop: Option<ListenEnd>)
      requires Valid() && ai <= |attempts| && ri < |stream|
      modifies this
      ensures Valid()
      ensures ai <= ai' <= |attempts|
      ensures stop.Some? ==>
        (Listened(got, stop.value, Snapshot()) == Relay(Configuration(), old(Snapshot()), attempts[ai..], stream[ri..]))
      ensures stop.None? ==>
        (Prepend(got, Relay(Configuration(), Snapshot(), attempts[ai'..], stream[ri + 1..]))
         == Relay(Configuration(), old(Snapshot()), attempts[ai..], stream[ri..]))
    {
      var q;
      ai' := ai;
      if stream[ri].Decoded? {
        q := stream[ri].item;
        RelayOnDecodedAt(Configuration(), Snapshot(), attempts[ai..], stream, ri);
      } else {
        var notice;
        q, ai', notice, stop := Recover(attempts, ai, stream, ri, p);
        if stop.Some? {
          return notice, ai', stop;
        }
      }
      var ok, stamped := ValidateQuery(q.q, q.mint);
      got := if ok then [stamped] else [];
      stop := None;
    }

    /** What `listen` does after a failed decode (client.go:196-223): an
        error other than end of stream closes the connection; then either one
        reconnect is tried (auto-retry) and the query that the decode left
        behind is handed on for validation, or the loop ends. */
    method Recover(attempts: seq<Attempt>, ai: nat, stream: seq<Read>, ri: nat, p: Primitives)
      returns (q: Pending, ai': nat, notice: seq<Query>, stop: Option<ListenEnd>)
      requires Valid() && ai <= |attempts| && ri < |stream| && !stream[ri].Decoded?
      modifies this
      ensures Valid()
      ensures ai <= ai' <= |attempts|
      ensures stop.Some? ==>
        (Listened(notice, stop.value, Snapshot()) == Relay(Configuration(), old(Snapshot()), attempts[ai..], stream[ri..]))
      ensures stop.None? ==>
        (Prepend(Forward(q), Relay(Configuration(), Snapshot(), attempts[ai'..], stream[ri + 1..]))
         == Relay(Configuration(), old(Snapshot()), attempts[ai..], stream[ri..]))
    {
      var read := stream[ri];
      assert stream[ri..][0] == read && stream[ri..][1..] == stream[ri + 1..];
      q, ai', notice, stop := Pending(EmptyQuery, ZeroBytes8), ai, [], None;
      if read.Broken? {
        q := read.partial;
        Disconnect();
      }
      if autoRetry {
        // The 5-second back-off before the reconnect: no step.
        if ai == |attempts| {
          return q, ai', notice, Some(InputExhausted);
        }
        assert attempts[ai..][0] == attempts[ai] && attempts[ai..][1..] == attempts[ai + 1..];
        var outcome, engage := Connect(p, attempts[ai]);
        ai' := ai + 1;
        if outcome.Halted? {
          stop := Some(Stopped(outcome.halt));
        }
      } else {
        notice, stop := [DisengageNotice], Some(Disengaged);
      }
    }

    /** The write loop of `Run` (client.go:242-252) over the queries the
        caller sends. `handled` is each query as validation leaves it (the
        caller's own copy, since the id is written in place); `sent` is what
        is encoded: the valid ones, and only while an encoder exists. */
    method Run(outbound: seq<Pending>) returns (handled: seq<Query>, sent: seq<Query>)
      requires Valid()
      ensures |handled| == |outbound|
      ensures forall i :: 0 <= i < |outbound| ==> handled[i] == Stamp(outbound[i].q, RandomId(outbound[i].mint))
      ensures sent == if encoder.Some? then Forwarded(outbound) else []
    {
      handled, sent := [], [];
      var i := 0;
      while i < |outbound|
        invariant 0 <= i <= |outbound|
        invariant handled == Validated(outbound[..i])
        invariant sent == if encoder.Some? then Forwarded(outbound[..i]) else []
      {
        var ok, q := ValidateQuery(outbound[i].q, outbound[i].mint);
        ValidatedStep(outbound, i);
        handled := handled + [q];
        if ok {
          if encoder.Some? {
            sent := sent + [q];
          }
        }
        ForwardedStep(outbound, i);
        i := i + 1;
      }
      assert outbound[..i] == outbound;
    }
  }
}
