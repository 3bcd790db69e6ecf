# prisclient in Dafny

A model of `prisclient`, the Go client library that adapters and responders use
to talk to a Priscilla chat hub. A client opens a TCP session to the hub. It
engages with a timestamped HMAC credential and then relays JSON queries both
ways:
- the read loop `listen` passes queries from the hub to the caller;
- the write loop of `Run` encodes the caller's queries to the hub.

Every query crosses the validator `ValidateQuery` in both directions. The
validator writes a fresh random id into any command that lacks one.

The project has five modules:

- `Envelope` (envelope.dfy): the wire envelope `Query` with its optional
  `CommandBlock` and `MessageBlock`. Go's nil pointers are `None`.
- `Codec` (codec.dfy) covers the text the client renders itself:
  - the 16-digit lowercase hex id of `RandomId`, with its inverse;
  - the `%d` rendering of the timestamp, with its inverse;
  - the handshake's auth message. HMAC-SHA256 and base64 are the
    uninterpreted fields of `Primitives`.
- `Validator` (validator.dfy) holds:
  - the verdict `IsValid`, one lemma per rule of the action table;
  - the id write `Stamp`, and the method `ValidateQuery` that does both;
  - what a run of gate passes lets through: `Forward`, `Forwarded`,
    `Validated` and `Passing`.
- `Session` (session.dfy) specifies the connection lifecycle as functions
  over a `State` value: the client's source id, its published connection and
  the connections closed so far.
  - `ConnectStep` is one `connect`; `Disconnected` is one `disconnect`.
  - `Establish` and `Relay` are the two loops of `listen`.
  - The transport is an input: `connect` consumes one `Attempt` per call and
    the decoder one `Read` per call. When either runs out, the read loop ends
    with `InputExhausted`.
- `Prisclient` (client.dfy) holds `NewClient` and the class `Client`:
  - its fixed settings are `const` fields;
  - `sourceId`, `raw`, `decoder` and `encoder` are updated in place by
    `Connect`, `Disconnect`, `Listen` and its loops;
  - each method is proved equal to its `Session` specification, and `Run`
    is proved against `Validated` and `Forwarded`.

Behaviour kept exactly as `client.go` has it:
- A hub reply of type `command` with no command block dereferences a nil
  pointer (client.go:145). The model has a separate stop,
  `Halted(NilDereference)`.
- Any reply other than `command`/`proceed` stops the process through
  `Error.Fatal`, even with auto-retry on (client.go:145-149).
- A clean end of stream does not close the connection; any other decode
  error does (client.go:198-203).
- After an auto-retry reconnect, control falls through to validate `q`,
  whether or not the reconnect succeeded (client.go:205-225):
  - after an end of stream `q` is the empty query, which is rejected;
  - after a type-mismatch decode error, it is whatever the decoder filled
    in, which can pass.
- A failed `connect` returns with its new connection unclosed. The
  `disconnect` that follows under auto-retry closes `raw` if a connection
  is published, and never the connection just dialled
  (client.go:139-143, 181-182). On a fresh client nothing is published yet,
  so it closes nothing.
- `disconnect` never clears `raw`, `encoder` or `decoder`
  (client.go:167-171). Each later `disconnect` closes the same connection
  again, and the write loop of `Run` keeps encoding onto the closed
  connection (client.go:246-247). In the model, `Disconnected` keeps `raw`,
  and `Run` still sends `Forwarded` of its arrivals.
- The tests at client.go:157-160 and client.go:175-177 can never fire and
  have no counterpart in the model.
- The handshake always computes the HMAC, even with an empty secret. An
  empty secret is an empty HMAC key over the timestamp and source id, not a
  missing credential (client.go:116-129).

## Model

| member | source | states |
|---|---|---|
| Codec.RandomId | client.go:77-81 | the id minted from 8 bytes is 16 characters of lowercase hex, two per byte |
| Codec.RandomIdIsBijective | client.go:77-81 | distinct byte draws give distinct ids, and every 16-character lowercase hex string is the id of exactly one draw |
| Codec.Hex | client.go:80 | `%x` of a byte string has twice its length and only lowercase hex digits |
| Codec.UnhexHex | client.go:80 | reading the hex rendering back gives the original bytes |
| Codec.HexUnhex | client.go:80 | every lowercase hex text of whole byte pairs is the rendering of the bytes read from it |
| Codec.Digits | client.go:116 | `%d` digits are non-empty decimal digits with a leading zero only for zero |
| Codec.DigitsRoundTrip | client.go:116 | reading the decimal digits of a natural number back gives that number |
| Codec.Decimal | client.go:116 | `%d` of any integer is decimal text with a minus sign exactly for negative values and no leading zero (a lone `0` only for zero), and reads back to the integer |
| Codec.AuthMessage | client.go:115-116 | the HMAC input begins with exactly the `%d` text of the timestamp, which reads back to the timestamp, and ends with the source id followed by the secret, with no separators |
| Codec.Credential | client.go:118-129 | with an empty secret the credential is still computed: base64 of the HMAC with an empty key over the timestamp's decimal text followed by the source id |
| Codec.AuthMessageSeparatesInputs | client.go:116 | two handshakes that differ only in timestamp, only in source id or only in secret sign different messages |
| Validator.IsValid | client.go:255-306 | a valid query is a command query with a command block whose action is one of the four supported ones, or a message query with a message block and a non-empty room; the rule lemmas below give each case in both directions |
| Validator.Stamp | client.go:263-266 | the minted id is written only into a command query's empty command id; every other field, and a non-empty id, is unchanged |
| Validator.ValidateQuery | client.go:255-306 | returns the verdict `IsValid` of the query; leaves the query as `Stamp` with `RandomId` of the drawn bytes, which is 16 hex characters whenever an id was missing, even for a rejected command; stamping never changes the verdict |
| Validator.UserRequestRule | client.go:269-279 | a `user_request` is valid iff its type is user, mention, email or id and its data is non-empty |
| Validator.RoomRequestRule | client.go:280-289 | a `room_request` is valid iff its type is name or id and its data is non-empty |
| Validator.InfoAndDisengageRules | client.go:290-297 | `info` is valid iff its type is user or room; `disengage` is always valid |
| Validator.UnsupportedActionsRejected | client.go:257-301 | a command query without a command block, or with any action outside the four supported ones (engage and proceed included), is invalid |
| Validator.MessageAndOtherKindsRule | client.go:302-305 | a non-command query is valid iff it is a message query with a message block whose room is non-empty |
| Validator.SampleVerdicts | client.go:255-306 | worked verdicts: a user request with and without data, room requests by id and by an unknown type, disengage, message queries with room `lobby` and with an empty room, the disengage notice and the empty query |
| Validator.Forward | client.go:225-235 | one gate pass lets on one query iff it is valid, and what it lets on is valid and, if a command, carries an id |
| Validator.Forwarded | client.go:244-251 | a run of gate passes lets on at most one query per arrival, all valid, command queries always with an id |
| Validator.ForwardedAppend | client.go:243-252 | gate passes compose: two runs of arrivals let on the first run's queries followed by the second's |
| Validator.ForwardedStep | client.go:243-252 | one more arrival adds exactly what its own pass lets on |
| Validator.Validated | client.go:244-245 | each arrival as validation leaves it, one per arrival, stamped with its own drawn id |
| Validator.ValidatedStep | client.go:243-245 | one more arrival appends exactly that arrival as validation leaves it |
| Validator.ForwardedIsPassingValidated | client.go:244-248 | what is let on equals what validation leaves behind, filtered by the verdict, in order |
| Validator.NoticeNeverForwarded | client.go:213-219 | no query that passes the gate equals the locally made disengage notice |
| Session.EngageQuery | client.go:121-131 | the engage query is a `command` from the source id to `server` with action `engage`, the client type, the timestamp, an empty id and the credential as data; the validator would refuse it |
| Session.ConnectStep | client.go:103-165 | engages iff the dial, the send and the reply decode succeed and the reply is `command`/`proceed`; only then are the hub's data adopted as source id and the connection published; any transport failure is a returned error leaving the state unchanged; a command reply without a command block is the nil dereference |
| Session.Disconnected | client.go:167-171 | closing records the published connection, if any, as closed once more, and leaves the source id and the published connection in place |
| Session.DisconnectTwiceClosesTwice | client.go:167-171 | since nothing is unpublished, two disconnects in a row close the same connection twice |
| Session.Establish | client.go:173-237 | everything `listen` delivers passes validation; it delivers at most one query per read; it ends disengaged only without auto-retry, and then the last query delivered is the disengage notice |
| Session.Relay | client.go:191-236 | everything the relay delivers passes validation; it delivers at most one query per read; it ends disengaged only without auto-retry, with the disengage notice last |
| Session.RelayWithoutErrors | client.go:192-236 | while every decode succeeds, exactly the valid queries are forwarded in order and the session state is untouched |
| Session.NoRetryDisengagesOnFirstError | client.go:196-221 | without auto-retry, the first failed decode ends the relay with the valid queries before it followed by one disengage notice; end of stream leaves the connection open, other errors close it |
| Session.NoticeDeliveredOnce | client.go:212-221 | the disengage notice is delivered exactly once if the relay ends disengaged, and never otherwise; a hub-sent `disengage` is delivered too but carries a minted id, so it never equals the notice |
| Session.RetryUntilConnected | client.go:174-189 | with auto-retry, any number of failing connects are retried, and the relay starts from the first engaging attempt with the hub-assigned source id and that attempt's connection |
| Session.NoRetryFirstFailureIsFatal | client.go:185-188 | without auto-retry, a first connect that fails stops the process with nothing delivered and the state unchanged |
| Session.RejectionStopsListen | client.go:145-149 | an engage answered with anything but `proceed` stops the process whether or not auto-retry is on, delivering nothing and changing no state; through the nil dereference for a command reply without a command block, through `Error.Fatal` otherwise |
| Session.RejectionStopsRelay | client.go:205-211 | a rejection at the reconnect after a failed decode stops the process the same way, with nothing more delivered |
| Session.RetryStopsOnlyOnRejection | client.go:145-149 | with auto-retry, `listen` can stop the process only through a hub reply that is not `proceed` |
| Session.RelayStopsOnlyOnRejection | client.go:205-211 | with auto-retry, the relay's reconnects can stop the process only through a hub reply that is not `proceed` |
| Session.EofReconnectForwardsNothing | client.go:198-211 | with auto-retry, an end of stream closes nothing, forwards nothing (the empty query is rejected) and relaying resumes from the reconnect's state |
| Prisclient.NewClient | client.go:83-101 | fails iff the client type is neither adapter nor responder, with the source's error text; otherwise all settings are stored unchanged, with no connection |
| Prisclient.Client.constructor | client.go:90-98 | the new client holds the given settings and source id and no connection |
| Prisclient.Client.Connect | client.go:103-165 | the outcome and new client state are `ConnectStep` of the old state; the query sent is the engage query built from the old source id and the attempt's timestamp |
| Prisclient.Client.Disconnect | client.go:167-171 | closes the published connection if there is one, and changes nothing else |
| Prisclient.Client.Listen | client.go:173-237 | the queries delivered, how the loop ends and the final state are `Establish` of the initial state and the inputs |
| Prisclient.Client.ConnectLoop | client.go:174-189 | the first loop ends as `Establish` says, or hands the relay exactly the attempts `Establish` leaves it |
| Prisclient.Client.RelayLoop | client.go:191-236 | the second loop delivers, ends and leaves the state as `Relay` says |
| Prisclient.Client.RelayStep | client.go:193-235 | one turn of the relay: what it hands on, how the relay ends if it does, and the new state agree with one step of `Relay` |
| Prisclient.Client.Recover | client.go:196-223 | after a failed decode, the close, the one reconnect and the query handed on for validation agree with `Relay` |
| Prisclient.Client.Run | client.go:239-252 | every outgoing query is left as validation leaves it, and the encoded ones are exactly `Forwarded` of the arrivals while an encoder exists, none otherwise |

## Left out

- The network is not modelled: `net.Dial` with its address, the TCP close
  behind `disconnect` and the JSON encoder/decoder. Dial, send, decode and
  close are inputs (`Attempt`, `Read`) or a record of closed connections.
- The JSON decoder's sticky error after a failed reconnect is left out. The
  next `Read` is any input the caller chooses.
- HMAC-SHA256 and base64 are not computed. They are uninterpreted functions
  supplied in `Primitives`; only their input text and where their output
  goes are modelled.
- `crypto/rand` is not modelled. Its 8 bytes are an input (`Bytes8`), and the
  ignored read error of client.go:79 leaves nothing to model.
- `time.Now` becomes the attempt's `now` field. The 5-second sleeps are
  steps that do nothing.
- Prisclient.Client.Run: the model checks `encoder` once for the whole run.
  In the program, `Run` runs concurrently with `listen` (the goroutine at
  client.go:241), so a reconnect can set the encoder partway through.
- Prisclient.Client.Run: the loop is modelled over a finite sequence.
  Nothing is said about the errors `Encode` returns, which are ignored, or
  about a nil query received from the channel.
- Prisclient.Client.Listen: the channel `out` is the returned sequence. The
  infinite loop and a blocking read end as `InputExhausted` when the inputs
  run out.
- The logger and all log output are left out. `Error.Fatal` is the stop
  `Halted(Fatal)`.
- `ResponderCommand` carries no logic and is left out.
- Validator.ValidateQuery: the id written through the shared `*CommandBlock`
  pointer appears as the returned query, not as an update of memory. Other
  holders of the same block are not modelled.
- Strings are sequences of characters, not the UTF-8 bytes Go uses. The
  model performs no operation where the difference shows.
