/** The envelope validator, `ValidateQuery` (client.go:255-306), which gates
    every query in both directions: queries read from the hub before they
    reach the caller, and queries from the caller before they are encoded.

    The decision is the pure predicate `IsValid`. The one side effect, the
    in-place write of a minted id into a command whose id is empty
    (client.go:263-266), is `Stamp`; `ValidateQuery` performs both. */
module Validator {
  import opened Envelope
  import opened Codec

  /** The action table of client.go:268-301. Every action not listed,
      `engage` and `proceed` among them, is unsupported. */
  predicate CommandAccepted(c: CommandBlock) {
    if c.action == "user_request" then
      (c.kind == "user" || c.kind == "mention" || c.kind == "email" || c.kind == "id") && c.data != ""
    else if c.action == "room_request" then
      (c.kind == "name" || c.kind == "id") && c.data != ""
    else if c.action == "info" then
      c.kind == "user" || c.kind == "room"
    else
      c.action == "disengage"
  }

  /** The verdict of `ValidateQuery`: only command queries with one of the
      four supported actions, and message queries with a room, pass. */
  predicate IsValid(q: Query): (valid: bool)
    ensures valid ==> q.kind == "command" || q.kind == "message"
    ensures valid && q.kind == "command" ==>
      q.command.Some? && q.command.value.action in {"user_request", "room_request", "info", "disengage"}
    ensures valid && q.kind == "message" ==> q.message.Some? && q.message.value.room != ""
  {
    if q.kind == "command" then
      q.command.Some? && CommandAccepted(q.command.value)
    else
      q.kind == "message" && q.message.Some? && q.message.value.room != ""
  }

  /** Whether validation writes a minted id: the query is a command query,
      its command is present and its id is empty. */
  predicate NeedsId(q: Query) {
    q.kind == "command" && q.command.Some? && q.command.value.id == ""
  }

  /** The query after validation's side effect: `id` written into the
      command's empty id, and nothing else touched. */
  function Stamp(q: Query, id: string): (r: Query)
    ensures r.kind == q.kind && r.source == q.source && r.to == q.to && r.message == q.message
    ensures r.command.Some? == q.command.Some?
    ensures q.command.Some? ==> r.command.value.(id := q.command.value.id) == q.command.value
    ensures r.command.Some? ==> r.command.value.id == if NeedsId(q) then id else q.command.value.id
  {
    if NeedsId(q) then q.(command := Some(q.command.value.(id := id))) else q
  }

  /** `ValidateQuery(q)` with the random source's 8 bytes `mint` passed in:
      `r` is the query as validation leaves it. */
  method ValidateQuery(q: Query, mint: Bytes8) returns (ok: bool, r: Query)
    ensures ok == IsValid(q) && ok == IsValid(r)
    ensures r == Stamp(q, RandomId(mint))
    ensures NeedsId(q) ==> |r.command.value.id| == 16 && IsHexText(r.command.value.id)
  {
    r := q;
    if q.kind == "command" {
      if q.command.None? {
        return false, r;
      }
      var cmd := q.command.value;
      if cmd.id == "" {
        cmd := cmd.(id := RandomId(mint));
        r := q.(command := Some(cmd));
      }
      if cmd.action == "user_request" {
        if cmd.kind != "user" && cmd.kind != "mention" && cmd.kind != "email" && cmd.kind != "id" {
          return false, r;
        }
        if cmd.data == "" {
          return false, r;
        }
        return true, r;
      } else if cmd.action == "room_request" {
        if cmd.kind != "name" && cmd.kind != "id" {
          return false, r;
        }
        if cmd.data == "" {
          return false, r;
        }
        return true, r;
      } else if cmd.action == "info" {
        if cmd.kind != "user" && cmd.kind != "room" {
          return false, r;
        }
        return true, r;
      } else if cmd.action == "disengage" {
        return true, r;
      }
      return false, r;
    } else if q.kind == "message" && q.message.Some? && q.message.value.room != "" {
      return true, r;
    }
    return false, r;
  }

  // ---------------------------------------------------------------------
  // The rule table, one rule per lemma
  // ---------------------------------------------------------------------

  lemma UserRequestRule(q: Query)
    requires q.kind == "command" && q.command.Some? && q.command.value.action == "user_request"
    ensures IsValid(q) <==>
      q.command.value.kind in {"user", "mention", "email", "id"} && q.command.value.data != ""
  {
  }

  lemma RoomRequestRule(q: Query)
    requires q.kind == "command" && q.command.Some? && q.command.value.action == "room_request"
    ensures IsValid(q) <==> q.command.value.kind in {"name", "id"} && q.command.value.data != ""
  {
  }

  lemma InfoAndDisengageRules(q: Query)
    requires q.kind == "command" && q.command.Some?
    ensures q.command.value.action == "info" ==> (IsValid(q) <==> q.command.value.kind in {"user", "room"})
    ensures q.command.value.action == "disengage" ==> IsValid(q)
  {
  }

  /** Only the four listed actions are ever accepted; a command query
      without a command block is rejected. */
  lemma UnsupportedActionsRejected(q: Query)
    requires q.kind == "command"
    requires q.command.Some? ==> q.command.value.action !in {"user_request", "room_request", "info", "disengage"}
    ensures !IsValid(q)
  {
  }

  /** A message query is valid exactly when it has a message block with a
      room; a query of any other kind, the empty kind included, is not. */
  lemma MessageAndOtherKindsRule(q: Query)
    requires q.kind != "command"
    ensures IsValid(q) <==> q.kind == "message" && q.message.Some? && q.message.value.room != ""
  {
  }

  /** Worked verdicts: a user request with and without data, room requests
      by id and by an unknown type, a disengage, messages with and without a
      room, the disengage notice and the empty query. */
  lemma SampleVerdicts(id: string)
    ensures IsValid(Query("command", "", "", Some(BlankCommand.(id := id, action := "user_request", kind := "user", data := "alice")), None))
    ensures !IsValid(Query("command", "", "", Some(BlankCommand.(id := id, action := "user_request", kind := "user")), None))
    ensures IsValid(Query("command", "", "", Some(BlankCommand.(id := id, action := "room_request", kind := "id", data := "r1")), None))
    ensures !IsValid(Query("command", "", "", Some(BlankCommand.(id := id, action := "room_request", kind := "bogus", data := "r1")), None))
    ensures IsValid(Query("command", "", "", Some(BlankCommand.(id := id, action := "disengage")), None))
    ensures IsValid(Query("message", "", "", None, Some(MessageBlock("hi", "", "lobby", false, "", [], None, ""))))
    ensures !IsValid(Query("message", "", "", None, Some(MessageBlock("hi", "", "", false, "", [], None, ""))))
    ensures IsValid(DisengageNotice) && !IsValid(EmptyQuery)
  {
  }

  // ---------------------------------------------------------------------
  // Relaying: what passes the gate
  // ---------------------------------------------------------------------

  /** A query as it arrives at a validation gate, with the 8 bytes the random
      source would yield if validation mints an id for it. */
  datatype Pending = Pending(q: Query, mint: Bytes8)

  /** What one pass through the gate lets on: the validated query, or nothing. */
  function Forward(p: Pending): (out: seq<Query>)
    ensures out != [] <==> IsValid(p.q)
    ensures |out| <= 1
    ensures forall i :: 0 <= i < |out| ==> IsValid(out[i])
    ensures forall i :: 0 <= i < |out| ==> out[i].kind == "command" ==> out[i].command.Some? && out[i].command.value.id != ""
  {
    if IsValid(p.q) then [Stamp(p.q, RandomId(p.mint))] else []
  }

  /** What a sequence of gate passes lets on, in order. */
  function Forwarded(ps: seq<Pending>): (out: seq<Query>)
    ensures |out| <= |ps|
    ensures forall i :: 0 <= i < |out| ==> IsValid(out[i])
    ensures forall i :: 0 <= i < |out| ==> out[i].kind == "command" ==> out[i].command.Some? && out[i].command.value.id != ""
  {
    if ps == [] then [] else Forward(ps[0]) + Forwarded(ps[1..])
  }

  /** Gate passes compose: the queries let on from two runs of arrivals are
      those of the first followed by those of the second. */
  lemma {:induction false} ForwardedAppend(a: seq<Pending>, b: seq<Pending>)
    ensures Forwarded(a + b) == Forwarded(a) + Forwarded(b)
  {
    if a == [] {
      assert a + b == b;
    } else {
      assert (a + b)[0] == a[0] && (a + b)[1..] == a[1..] + b;
      ForwardedAppend(a[1..], b);
    }
  }

  /** One more arrival at the gate adds what that pass lets on. */
  lemma ForwardedStep(ps: seq<Pending>, i: nat)
    requires i < |ps|
    ensures Forwarded(ps[..i + 1]) == Forwarded(ps[..i]) + Forward(ps[i])
  {
    ForwardedAppend(ps[..i], [ps[i]]);
    assert ps[..i + 1] == ps[..i] + [ps[i]];
    assert Forwarded([ps[i]]) == Forward(ps[i]) + Forwarded([]);
  }

  /** Every arrival as the gate leaves it, whether or not it passes. */
  function Validated(ps: seq<Pending>): (out: seq<Query>)
    ensures |out| == |ps|
    ensures forall i :: 0 <= i < |ps| ==> out[i] == Stamp(ps[i].q, RandomId(ps[i].mint))
  {
    if ps == [] then [] else [Stamp(ps[0].q, RandomId(ps[0].mint))] + Validated(ps[1..])
  }

  lemma ValidatedStep(ps: seq<Pending>, i: nat)
    requires i < |ps|
    ensures Validated(ps[..i + 1]) == Validated(ps[..i]) + [Stamp(ps[i].q, RandomId(ps[i].mint))]
  {
    var a, b := Validated(ps[..i + 1]), Validated(ps[..i]);
    forall k | 0 <= k < i ensures a[k] == b[k] {
      assert ps[..i + 1][k] == ps[..i][k];
    }
    assert a == b + [a[i]];
  }

  /** The queries of `qs` that pass validation, in order. */
  function Passing(qs: seq<Query>): seq<Query> {
    if qs == [] then [] else (if IsValid(qs[0]) then [qs[0]] else []) + Passing(qs[1..])
  }

  /** What the gate lets on is exactly what validation leaves behind,
      filtered by the verdict: writing an id never changes a verdict. */
  lemma {:induction false} ForwardedIsPassingValidated(ps: seq<Pending>)
    ensures Forwarded(ps) == Passing(Validated(ps))
  {
    if ps != [] {
      var v := Validated(ps);
      assert v[0] == Stamp(ps[0].q, RandomId(ps[0].mint));
      assert IsValid(v[0]) == IsValid(ps[0].q);
      assert v[1..] == Validated(ps[1..]);
      ForwardedIsPassingValidated(ps[1..]);
    }
  }

  /** A forwarded query is never mistaken for the locally made disengage
      notice: forwarded command queries always carry an id. */
  lemma NoticeNeverForwarded(ps: seq<Pending>)
    ensures DisengageNotice !in Forwarded(ps)
  {
  }
}
