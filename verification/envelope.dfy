/** The wire envelope of the hub protocol (client.go:17-66): a query and
    its optional command and message blocks, with the machine types they use.

    Go's `*CommandBlock`, `*MessageBlock` and `*UserInfo` pointers become
    `Option`s; a nil pointer is `None`. Field names follow the JSON tags,
    with these exceptions: where the tag is a Dafny keyword, `type` is
    `kind`, `array` is `items` and `map` is `entries`; `mentionNotify`
    camel-cases the tag `mentionnotify`; and `displayName` follows the Go
    field `DisplayName`, whose tag is `username`. */
module Envelope {

  datatype Option<T> = None | Some(value: T)

  /** Go's `byte`. */
  newtype byte = x: int | 0 <= x < 256

  /** Go's `int64`: the type of `CommandBlock.Time` and of Unix timestamps. */
  newtype int64 = x: int | -0x8000_0000_0000_0000 <= x < 0x8000_0000_0000_0000

  /** The 8 bytes that `RandomId` reads from the system's random source. */
  type Bytes8 = s: seq<byte> | |s| == 8 witness [0, 0, 0, 0, 0, 0, 0, 0]

  const ZeroBytes8: Bytes8 := [0, 0, 0, 0, 0, 0, 0, 0]

  datatype UserInfo = UserInfo(id: string, name: string, mention: string, email: string)

  datatype CommandBlock = CommandBlock(
    id: string,
    action: string,
    kind: string,
    time: int64,
    data: string,
    error: string,
    items: seq<string>,
    options: seq<string>,
    entries: map<string, string>)

  datatype MessageBlock = MessageBlock(
    message: string,
    from: string,
    room: string,
    mentioned: bool,
    stripped: string,
    mentionNotify: seq<string>,
    user: Option<UserInfo>,
    displayName: string)

  datatype Query = Query(
    kind: string,
    source: string,
    to: string,
    command: Option<CommandBlock>,
    message: Option<MessageBlock>)

  /** A `CommandBlock{}` literal: every field at its zero value. */
  const BlankCommand := CommandBlock("", "", "", 0, "", "", [], [], map[])

  /** What `new(Query)` holds before anything is decoded into it. */
  const EmptyQuery := Query("", "", "", None, None)

  /** The envelope the read loop hands to its caller when the session ends
      without auto-retry (client.go:213-219). Its command id stays empty:
      the notice is delivered without going through validation. */
  const DisengageNotice := Query("command", "pris", "", Some(BlankCommand.(action := "disengage")), None)
}
