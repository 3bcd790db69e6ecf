/** The connection lifecycle as a specification over values: what one call of
    `connect` (client.go:103-165) and of `disconnect` (client.go:167-171) does
    to the client's session state, and what the read loop `listen`
    (client.go:173-237) delivers when the transport behaves as given.

    The transport is abstract. Every call of `connect` takes the next
    `Attempt` (the outcome of dialling, sending the engage query and decoding
    the reply); every `Decode` in the read loop takes the next `Read`. When
    either runs out, the loop is left with `InputExhausted`: in the program
    it would block or keep going, and the model has nothing more to say. */
module Session {
  import opened Envelope
  import opened Codec
  import opened Validator

  /** One TCP connection; `serial` tells the connections of a run apart. */
  datatype Conn = Conn(serial: nat)

  /** The client's settings, fixed by `NewClient` for the client's lifetime. */
  datatype Config = Config(host: string, port: string, clientType: string, secret: string, autoRetry: bool)

  /** What `connect` and `disconnect` change: the source id, the connection
      that `raw`, `encoder` and `decoder` use (they are always published
      together), and the connections closed so far. */
  datatype State = State(sourceId: string, raw: Option<Conn>, closed: seq<Conn>)

  datatype Reply = Acked(ack: Query) | ReplyFailed

  /** The transport's side of one `connect` call: the dial is refused, or it
      yields `conn`, the clock reads `now`, the engage query is or is not
      sent, and the reply is decoded or fails to decode. */
  datatype Attempt = Refused | Dialed(conn: Conn, now: int64, sendOk: bool, reply: Reply)

  /** The errors `connect` returns to its caller. */
  datatype ConnectError = DialError | SendError | ReplyError

  /** Ways the process stops: `Error.Fatal`, or the nil dereference of
      `ack.Command` at client.go:145. */
  datatype Halt = Fatal | NilDereference

  datatype ConnectOutcome = Engaged | Failed(error: ConnectError) | Halted(halt: Halt)

  datatype Step = Step(outcome: ConnectOutcome, state: State)

  /** The engage query `connect` sends (client.go:121-131). Its command id
      is left empty: the query is encoded without validation, and the
      validator would in fact refuse it, `engage` not being an action it
      supports. */
  function EngageQuery(cfg: Config, p: Primitives, sourceId: string, now: int64): (q: Query)
    ensures q.kind == "command" && q.source == sourceId && q.to == "server" && q.message.None?
    ensures q.command.Some? && q.command.value.action == "engage" && q.command.value.kind == cfg.clientType
    ensures q.command.value.time == now && q.command.value.id == ""
    ensures q.command.value.data == Credential(p, cfg.secret, sourceId, now)
    ensures !IsValid(q)
  {
    Query("command", sourceId, "server",
      Some(BlankCommand.(action := "engage", kind := cfg.clientType, time := now,
                         data := Credential(p, cfg.secret, sourceId, now))),
      None)
  }

  /** The reply the hub must give for the handshake to succeed. */
  predicate Proceeds(ack: Query) {
    ack.kind == "command" && ack.command.Some? && ack.command.value.action == "proceed"
  }

  /** The transport let the handshake through and the hub answered. */
  predicate Answered(a: Attempt) {
    a.Dialed? && a.sendOk && a.reply.Acked?
  }

  /** An attempt that makes `connect` return an error (as opposed to
      engaging or stopping the process). */
  predicate SoftFailure(a: Attempt) {
    !Answered(a)
  }

  /** One call of `connect` against attempt `a`. */
  function ConnectStep(s: State, a: Attempt): (st: Step)
    ensures st.outcome == Engaged <==> Answered(a) && Proceeds(a.reply.ack)
    ensures st.outcome == Engaged ==> st.state == s.(sourceId := a.reply.ack.command.value.data, raw := Some(a.conn))
    ensures st.outcome != Engaged ==> st.state == s
    ensures st.outcome.Failed? <==> SoftFailure(a)
    ensures st.outcome == Halted(NilDereference) <==>
      Answered(a) && a.reply.ack.kind == "command" && a.reply.ack.command.None?
  {
    match a
    case Refused => Step(Failed(DialError), s)
    case Dialed(conn, now, sendOk, reply) =>
      if !sendOk then Step(Failed(SendError), s)
      else if reply.ReplyFailed? then Step(Failed(ReplyError), s)
      else if reply.ack.kind != "command" then Step(Halted(Fatal), s)
      else if reply.ack.command.None? then Step(Halted(NilDereference), s)
      else if reply.ack.command.value.action != "proceed" then Step(Halted(Fatal), s)
      else Step(Engaged, s.(sourceId := reply.ack.command.value.data, raw := Some(conn)))
  }

  /** `disconnect`: the current raw connection, if any, is closed. Nothing
      is unpublished: `raw`, and the encoder and decoder with it, still point
      at the closed connection. */
  function Disconnected(s: State): (r: State)
    ensures r.sourceId == s.sourceId && r.raw == s.raw
    ensures s.closed <= r.closed && |r.closed| == |s.closed| + (if s.raw.Some? then 1 else 0)
    ensures s.raw.Some? ==> r.closed[|s.closed|] == s.raw.value
  {
    if s.raw.Some? then s.(closed := s.closed + [s.raw.value]) else s
  }

  /** The transport's side of one `Decode` in the read loop: a query, a clean
      end of stream, or another error, which may leave the query partly
      filled (a JSON type mismatch does). */
  datatype Read = Decoded(item: Pending) | Eof | Broken(partial: Pending)

  datatype ListenEnd = InputExhausted | Disengaged | Stopped(halt: Halt)

  /** What the read loop hands to its caller, how it ends, and the state it
      leaves behind. */
  datatype Listened = Listened(delivered: seq<Query>, end: ListenEnd, state: State)

  /** `d` delivered ahead of what `r` delivers; the end and state are `r`'s. */
  function Prepend(d: seq<Query>, r: Listened): Listened {
    r.(delivered := d + r.delivered)
  }

  /** `listen`, first loop (client.go:174-189): connect until it succeeds,
      backing off after each error when auto-retry is on, and then relay. */
  function Establish(cfg: Config, s: State, attempts: seq<Attempt>, stream: seq<Read>): (r: Listened)
    ensures forall i :: 0 <= i < |r.delivered| ==> IsValid(r.delivered[i])
    ensures |r.delivered| <= |stream|
    ensures r.end == Disengaged ==> !cfg.autoRetry && r.delivered != [] && r.delivered[|r.delivered| - 1] == DisengageNotice
    decreases |attempts|
  {
    if attempts == [] then Listened([], InputExhausted, s)
    else
      var st := ConnectStep(s, attempts[0]);
      match st.outcome
      case Engaged => Relay(cfg, st.state, attempts[1..], stream)
      case Halted(h) => Listened([], Stopped(h), st.state)
      case Failed(_) =>
        if cfg.autoRetry then Establish(cfg, Disconnected(st.state), attempts[1..], stream)
        else Listened([], Stopped(Fatal), st.state)
  }

  /** `listen`, second loop (client.go:192-236): decode, validate, forward.
      After a failed decode without auto-retry, the disengage notice is the
      last thing delivered. With auto-retry, one reconnect is tried and
      whatever the failed decode left in the query is then validated like a
      decoded one: after an end of stream that is the empty query. */
  function Relay(cfg: Config, s: State, attempts: seq<Attempt>, stream: seq<Read>): (r: Listened)
    ensures forall i :: 0 <= i < |r.delivered| ==> IsValid(r.delivered[i])
    ensures |r.delivered| <= |stream|
    ensures r.end == Disengaged ==> !cfg.autoRetry && r.delivered != [] && r.delivered[|r.delivered| - 1] == DisengageNotice
    decreases |stream|
  {
    if stream == [] then Listened([], InputExhausted, s)
    else if stream[0].Decoded? then
      var rest := Relay(cfg, s, attempts, stream[1..]);
      PrependKeepsSound(Forward(stream[0].item), rest);
      Prepend(Forward(stream[0].item), rest)
    else
      var q := if stream[0].Broken? then stream[0].partial else Pending(EmptyQuery, ZeroBytes8);
      var s1 := if stream[0].Broken? then Disconnected(s) else s;
      if !cfg.autoRetry then Listened([DisengageNotice], Disengaged, s1)
      else if attempts == [] then Listened([], InputExhausted, s1)
      else
        var st := ConnectStep(s1, attempts[0]);
        if st.outcome.Halted? then Listened([], Stopped(st.outcome.halt), st.state)
        else
          var rest := Relay(cfg, st.state, attempts[1..], stream[1..]);
          PrependKeepsSound(Forward(q), rest);
          Prepend(Forward(q), rest)
  }

  /** Prepending a gate pass keeps what `Relay` promises of its result. */
  lemma PrependKeepsSound(f: seq<Query>, r: Listened)
    requires forall i :: 0 <= i < |f| ==> IsValid(f[i])
    requires forall i :: 0 <= i < |r.delivered| ==> IsValid(r.delivered[i])
    ensures var p := Prepend(f, r);
      (forall i :: 0 <= i < |p.delivered| ==> IsValid(p.delivered[i]))
      && p.end == r.end && |p.delivered| == |f| + |r.delivered|
      && (r.delivered != [] ==> p.delivered[|p.delivered| - 1] == r.delivered[|r.delivered| - 1])
  {
  }

  lemma PrependPrepend(d: seq<Query>, f: seq<Query>, r: Listened)
    ensures Prepend(d, Prepend(f, r)) == Prepend(d + f, r)
  {
    assert d + (f + r.delivered) == (d + f) + r.delivered;
  }

  /** One successful decode: its query, if valid, comes first. */
  lemma RelayOnDecoded(cfg: Config, s: State, attempts: seq<Attempt>, stream: seq<Read>)
    requires stream != [] && stream[0].Decoded?
    ensures Relay(cfg, s, attempts, stream) == Prepend(Forward(stream[0].item), Relay(cfg, s, attempts, stream[1..]))
  {
  }

  /** The same step, for the reads from index `ri` on. */
  lemma RelayOnDecodedAt(cfg: Config, s: State, attempts: seq<Attempt>, stream: seq<Read>, ri: nat)
    requires ri < |stream| && stream[ri].Decoded?
    ensures Relay(cfg, s, attempts, stream[ri..]) == Prepend(Forward(stream[ri].item), Relay(cfg, s, attempts, stream[ri + 1..]))
  {
    assert stream[ri..][0] == stream[ri] && stream[ri..][1..] == stream[ri + 1..];
    RelayOnDecoded(cfg, s, attempts, stream[ri..]);
  }

  /** The queries the decoded reads carry, in order. */
  function Payloads(rs: seq<Read>): seq<Pending> {
    if rs == [] then []
    else (if rs[0].Decoded? then [rs[0].item] else []) + Payloads(rs[1..])
  }

  // ---------------------------------------------------------------------
  // Properties of the read loop
  // ---------------------------------------------------------------------

  /** While every decode succeeds, the relay forwards exactly the valid
      queries, in order, makes no connection attempt and changes no state. */
  lemma {:induction false} RelayWithoutErrors(cfg: Config, s: State, attempts: seq<Attempt>, stream: seq<Read>)
    requires forall i :: 0 <= i < |stream| ==> stream[i].Decoded?
    ensures Relay(cfg, s, attempts, stream) == Listened(Forwarded(Payloads(stream)), InputExhausted, s)
    decreases |stream|
  {
    if stream != [] {
      RelayWithoutErrors(cfg, s, attempts, stream[1..]);
    }
  }

  /** Without auto-retry, the first failed decode ends the relay: the valid
      queries decoded before it are forwarded, then exactly one disengage
      notice, and nothing more. A clean end of stream leaves the connection
      open; any other error closes it. */
  lemma {:induction false} NoRetryDisengagesOnFirstError(cfg: Config, s: State, attempts: seq<Attempt>, stream: seq<Read>, k: nat)
    requires !cfg.autoRetry
    requires k < |stream| && !stream[k].Decoded?
    requires forall i :: 0 <= i < k ==> stream[i].Decoded?
    ensures Relay(cfg, s, attempts, stream) ==
      Listened(Forwarded(Payloads(stream[..k])) + [DisengageNotice], Disengaged,
               if stream[k].Eof? then s else Disconnected(s))
    decreases k
  {
    if k == 0 {
      assert stream[..k] == [];
    } else {
      var rest := stream[1..];
      assert rest[k - 1] == stream[k];
      assert forall i :: 0 <= i < k - 1 ==> rest[i] == stream[i + 1];
      NoRetryDisengagesOnFirstError(cfg, s, attempts, rest, k - 1);
      RelayOnDecoded(cfg, s, attempts, stream);
      ForwardedPrefix(stream, k);
      var f, g := Forward(stream[0].item), Forwarded(Payloads(rest[..k - 1]));
      PrependPrepend(f, g, Listened([DisengageNotice], Disengaged, if stream[k].Eof? then s else Disconnected(s)));
    }
  }

  /** Each `disconnect` closes the published connection again: since it is
      never unpublished, two disconnects in a row record it closed twice. */
  lemma DisconnectTwiceClosesTwice(s: State)
    requires s.raw.Some?
    ensures Disconnected(Disconnected(s)).closed == s.closed + [s.raw.value, s.raw.value]
  {
  }

  /** The valid queries of a run of reads that starts with a decode. */
  lemma ForwardedPrefix(stream: seq<Read>, k: nat)
    requires 0 < k <= |stream| && stream[0].Decoded?
    ensures Forwarded(Payloads(stream[..k])) == Forward(stream[0].item) + Forwarded(Payloads(stream[1..][..k - 1]))
  {
    var pre := stream[..k];
    assert pre[0] == stream[0] && pre[1..] == stream[1..][..k - 1];
    assert Payloads(pre) == [stream[0].item] + Payloads(stream[1..][..k - 1]);
  }

  /** The disengage notice is delivered exactly once when the relay ends
      with `Disengaged`, and never otherwise. "The notice" means the query
      equal to `DisengageNotice`, whose command id is empty; a `disengage`
      the hub itself sends, even one from source `pris`, is also delivered,
      but carrying a minted id, so it is never equal to the notice. */
  lemma {:induction false} NoticeDeliveredOnce(cfg: Config, s: State, attempts: seq<Attempt>, stream: seq<Read>)
    ensures multiset(Relay(cfg, s, attempts, stream).delivered)[DisengageNotice] ==
      if Relay(cfg, s, attempts, stream).end == Disengaged then 1 else 0
    decreases |stream|
  {
    if stream != [] {
      var first := if stream[0].Decoded? then stream[0].item else if stream[0].Broken? then stream[0].partial else Pending(EmptyQuery, ZeroBytes8);
      NoticeNeverForwarded([first]);
      assert Forwarded([first]) == Forward(first);
      if stream[0].Decoded? {
        NoticeDeliveredOnce(cfg, s, attempts, stream[1..]);
      } else if cfg.autoRetry && attempts != [] {
        var s1 := if stream[0].Broken? then Disconnected(s) else s;
        NoticeDeliveredOnce(cfg, ConnectStep(s1, attempts[0]).state, attempts[1..], stream[1..]);
      }
    }
  }

  /** With auto-retry, `listen` keeps connecting through any number of
      attempts that fail, and relays from the first that engages, with the
      source id the hub assigned and that attempt's connection published. */
  lemma {:induction false} RetryUntilConnected(cfg: Config, s: State, attempts: seq<Attempt>, stream: seq<Read>, k: nat)
    requires cfg.autoRetry
    requires k < |attempts| && Answered(attempts[k]) && Proceeds(attempts[k].reply.ack)
    requires forall i :: 0 <= i < k ==> SoftFailure(attempts[i])
    decreases k
    ensures exists s': State ::
      (s'.sourceId == attempts[k].reply.ack.command.value.data
       && s'.raw == Some(attempts[k].conn)
       && Establish(cfg, s, attempts, stream) == Relay(cfg, s', attempts[k + 1..], stream))
  {
    if k == 0 {
      var s' := ConnectStep(s, attempts[0]).state;
      assert Establish(cfg, s, attempts, stream) == Relay(cfg, s', attempts[1..], stream);
    } else {
      RetryUntilConnected(cfg, Disconnected(s), attempts[1..], stream, k - 1);
      assert attempts[1..][k - 1 + 1..] == attempts[k + 1..];
    }
  }

  /** Without auto-retry, a failed first connection stops the process and
      nothing is delivered. */
  lemma NoRetryFirstFailureIsFatal(cfg: Config, s: State, attempts: seq<Attempt>, stream: seq<Read>)
    requires !cfg.autoRetry && attempts != [] && SoftFailure(attempts[0])
    ensures Establish(cfg, s, attempts, stream) == Listened([], Stopped(Fatal), s)
  {
  }

  /** A hub that answers an engage with anything but `proceed` stops the
      process on the spot, whether or not auto-retry is on: nothing is
      delivered and the state is unchanged. A reply of type `command` without
      a command block stops it through the nil dereference; any other
      rejection through `Error.Fatal`. */
  lemma RejectionStopsListen(cfg: Config, s: State, attempts: seq<Attempt>, stream: seq<Read>)
    requires attempts != [] && Answered(attempts[0]) && !Proceeds(attempts[0].reply.ack)
    ensures var ack := attempts[0].reply.ack;
      Establish(cfg, s, attempts, stream)
      == Listened([], Stopped(if ack.kind == "command" && ack.command.None? then NilDereference else Fatal), s)
  {
  }

  /** The same holds for the reconnect after a failed decode: a rejection
      there stops the process, keeping what the reconnect found. */
  lemma RejectionStopsRelay(cfg: Config, s: State, attempts: seq<Attempt>, stream: seq<Read>)
    requires cfg.autoRetry && stream != [] && !stream[0].Decoded?
    requires attempts != [] && Answered(attempts[0]) && !Proceeds(attempts[0].reply.ack)
    ensures var ack := attempts[0].reply.ack;
      Relay(cfg, s, attempts, stream)
      == Listened([], Stopped(if ack.kind == "command" && ack.command.None? then NilDereference else Fatal),
                  if stream[0].Broken? then Disconnected(s) else s)
  {
  }

  /** With auto-retry, no path to a stop exists other than a hub that
      answers an engage with something other than `proceed`. */
  lemma {:induction false} RetryStopsOnlyOnRejection(cfg: Config, s: State, attempts: seq<Attempt>, stream: seq<Read>)
    requires cfg.autoRetry
    requires forall i :: 0 <= i < |attempts| ==> Answered(attempts[i]) ==> Proceeds(attempts[i].reply.ack)
    ensures !Establish(cfg, s, attempts, stream).end.Stopped?
    decreases |attempts|
  {
    if attempts != [] {
      var st := ConnectStep(s, attempts[0]);
      if st.outcome == Engaged {
        RelayStopsOnlyOnRejection(cfg, st.state, attempts[1..], stream);
      } else {
        RetryStopsOnlyOnRejection(cfg, Disconnected(st.state), attempts[1..], stream);
      }
    }
  }

  lemma {:induction false} RelayStopsOnlyOnRejection(cfg: Config, s: State, attempts: seq<Attempt>, stream: seq<Read>)
    requires cfg.autoRetry
    requires forall i :: 0 <= i < |attempts| ==> Answered(attempts[i]) ==> Proceeds(attempts[i].reply.ack)
    ensures !Relay(cfg, s, attempts, stream).end.Stopped?
    decreases |stream|
  {
    if stream != [] {
      if stream[0].Decoded? {
        RelayStopsOnlyOnRejection(cfg, s, attempts, stream[1..]);
      } else if attempts != [] {
        var s1 := if stream[0].Broken? then Disconnected(s) else s;
        RelayStopsOnlyOnRejection(cfg, ConnectStep(s1, attempts[0]).state, attempts[1..], stream[1..]);
      }
    }
  }

  /** With auto-retry, a clean end of stream forwards nothing, does not close
      the old connection, and the relay goes on from the reconnect's state. */
  lemma EofReconnectForwardsNothing(cfg: Config, s: State, attempts: seq<Attempt>, stream: seq<Read>)
    requires cfg.autoRetry && stream != [] && stream[0].Eof? && attempts != []
    requires !ConnectStep(s, attempts[0]).outcome.Halted?
    ensures Relay(cfg, s, attempts, stream) == Relay(cfg, ConnectStep(s, attempts[0]).state, attempts[1..], stream[1..])
  {
  }
}
