/**
 * The vocabulary shared by every behaviour of the chat mesh: cell identifiers,
 * topics, payloads, and the outcome of handling one event.
 *
 * A behaviour's ProcessEvent is modelled as a step that takes the event (topic and
 * payload) together with the answers of any synchronous calls it makes into the
 * environment (Request, HasCell), and yields an Outcome: the response it gives,
 * the events it emits, the calls it makes and whether it failed.
 */
module Mesh {

  datatype Option<T> = None | Some(value: T)

  /** Cell identifiers. identifier.Identifier is foreign; each shape of identifier the
      program builds is one constructor, so distinct arguments give distinct ids. */
  datatype CellId =
    | UserId(name: string)                       // makeUserID(name)
    | RoomId(building: string, room: string)     // makeRoomID(room, building)
    | CensorId(building: string, room: string)   // the room's private censor
    | BuildingId(building: string)               // makeBuildingID(building)
    | PaId(building: string)                     // the building's public-address cell

  /** The reserved sender of system notices: makeUserID("public address"). */
  const PublicAddressUserId: CellId := UserId("public address")

  /** The text form of an identifier, as used when one is formatted into a message. */
  function Render(id: CellId): string
  {
    match id
    case UserId(n) => "user:" + n
    case RoomId(b, r) => "room:" + b + ":" + r
    case CensorId(b, r) => "room:" + b + ":" + r + ":censor"
    case BuildingId(b) => "building:" + b
    case PaId(b) => "building:" + b + ":pa"
  }

  /** The topic constants, plus any other topic name (which every behaviour ignores). */
  datatype RawTopic =
    | SaysAll | SaysTo | Say | Censor | UserAdded | UserDisconnected
    | RoomAdded | InRoom | UserCount | ListRooms
    | Other(name: string)

  function TopicName(t: RawTopic): string
  {
    match t
    case SaysAll => "says-all"
    case SaysTo => "says-to"
    case Say => "say!"
    case Censor => "censor!"
    case UserAdded => "user-added"
    case UserDisconnected => "user-disconnected"
    case RoomAdded => "room-added"
    case InRoom => "in-room?"
    case UserCount => "user-count!"
    case ListRooms => "list-rooms!"
    case Other(n) => n
  }

  /** The names of the topic constants (topics.go). */
  const ReservedNames: set<string> :=
    {"says-all", "says-to", "say!", "censor!", "user-added", "user-disconnected",
     "room-added", "in-room?", "user-count!", "list-rooms!"}

  /** Reads a topic name back; a name that is not one of the constants is Other. */
  function ParseTopic(name: string): (t: Topic)
    ensures TopicName(t) == name
    ensures t.Other? <==> name !in ReservedNames
  {
    if name == "says-all" then SaysAll
    else if name == "says-to" then SaysTo
    else if name == "say!" then Say
    else if name == "censor!" then Censor
    else if name == "user-added" then UserAdded
    else if name == "user-disconnected" then UserDisconnected
    else if name == "room-added" then RoomAdded
    else if name == "in-room?" then InRoom
    else if name == "user-count!" then UserCount
    else if name == "list-rooms!" then ListRooms
    else Other(name)
  }

  /** A topic is well formed when an Other does not carry one of the reserved names. */
  predicate WellFormed(t: RawTopic)
  {
    t.Other? ==> t.name !in ReservedNames
  }

  /** A topic as the program sees it: a string that is one of the constants is that
      constant, never an Other with the same name. */
  type Topic = t: RawTopic | WellFormed(t) witness SaysAll

  /** The topic constants are pairwise distinct: names and topics correspond one to one. */
  lemma ParseTopicName(t: Topic)
    ensures ParseTopic(TopicName(t)) == t
  {
  }

  /** A payload value. Go payloads hold interface{} values; a Go string is either
      free text (Text) or an identifier (Ref), according to the key it sits under. */
  datatype Value =
    | Text(text: string)
    | Ref(id: CellId)
    | Flag(flag: bool)
    | Number(number: int)
    | Refs(ids: seq<CellId>)

  type Payload = map<string, Value>

  /** `v, _ := payload.Get(key); v.(string)` for an identifier key: None is the panic of
      a missing key or a value of another kind. */
  function IdAt(p: Payload, key: string): (r: Option<CellId>)
    ensures r.Some? <==> key in p && p[key].Ref?
    ensures r.Some? ==> p[key] == Ref(r.value)
  {
    if key in p && p[key].Ref? then Some(p[key].id) else None
  }

  /** The same for a free-text key such as "message". */
  function TextAt(p: Payload, key: string): (r: Option<string>)
    ensures r.Some? <==> key in p && p[key].Text?
    ensures r.Some? ==> p[key] == Text(r.value)
  {
    if key in p && p[key].Text? then Some(p[key].text) else None
  }

  /** An event as a behaviour receives it. */
  datatype Event = Event(topic: Topic, payload: Payload)

  /** The answer of a synchronous environment call (Request): a value or an error
      (no such cell, timeout). */
  datatype Reply = Ok(value: Value) | Err

  /** Where an emitted event goes. */
  datatype Emission =
    | ToSubscribers(topic: Topic, payload: Payload)            // ctx.Emit / ctx.EmitNew
    | ToCell(target: CellId, topic: Topic, payload: Payload)   // env.EmitNew(target, ...)

  /** A synchronous call a behaviour makes into the environment while handling an event. */
  datatype Call =
    | HasCell(id: CellId)
    | Request(target: CellId, topic: Topic, payload: Payload)

  /** Why handling an event failed. A failed type assertion and log.Panic are panics
      that the cell's Recover hook absorbs; the others are returned errors. */
  datatype Fault =
    | BadPayload(key: string)   // a missing key or a value of the wrong kind
    | RequestFailed             // Request answered with an error
    | BadReply                  // the answer of a Request is not a bool
    | NotPublicAddress          // "invalid public address request"
    | RoomNotFound              // "room %s not found"
    | NotInRoom                 // "%s is not in %s"

  datatype Outcome = Outcome(
    response: Option<Value>,
    emitted: seq<Emission>,
    calls: seq<Call>,
    fault: Option<Fault>)

  /** Nothing happens: the topic is not handled, or the event is ignored. */
  const Quiet: Outcome := Outcome(None, [], [], None)

  function Failure(f: Fault): Outcome
  {
    Outcome(None, [], [], Some(f))
  }

  /** The outcome of a step together with the behaviour's state after it. */
  datatype Step<S> = Step(out: Outcome, next: S)

  /** The behaviours a cell can be started with, as the wiring functions configure them. */
  datatype Behavior =
    | BuildingCell(name: string)
    | PublicAddressCell(intervalSeconds: nat)
    | RoomCell(name: string, buildingName: string, censoredWords: seq<string>)
    | UserCell(name: string)
    | LogUserCell(name: string)

  /** One call the wiring code makes on the environment. */
  datatype EnvOp =
    | StartCell(id: CellId, behavior: Behavior)
    | Subscribe(source: CellId, destination: CellId)
    | EmitNew(target: CellId, topic: Topic, payload: Payload)

  /** The character of one decimal digit. */
  function Digit(d: nat): (c: char)
    requires d < 10
    ensures '0' <= c <= '9' && c as int - '0' as int == d
  {
    ('0' as int + d) as char
  }

  predicate AllDigits(s: string)
  {
    forall i :: 0 <= i < |s| ==> '0' <= s[i] <= '9'
  }

  /** The number a string of decimal digits denotes, most significant digit first. */
  function DigitsValue(s: string): nat
    requires AllDigits(s)
    decreases |s|
  {
    if s == [] then 0
    else DigitsValue(s[..|s| - 1]) * 10 + (s[|s| - 1] as int - '0' as int)
  }

  /** The decimal digits of a count, as fmt's %d prints it. */
  function Decimal(n: nat): (s: string)
    ensures |s| >= 1 && AllDigits(s)
    ensures |s| > 1 ==> s[0] != '0'
    decreases n
  {
    if n < 10 then [Digit(n)] else Decimal(n / 10) + [Digit(n % 10)]
  }

  /** %d prints the count itself: reading the digits back gives n. */
  lemma {:induction false} DecimalValue(n: nat)
    ensures DigitsValue(Decimal(n)) == n
    decreases n
  {
    var s := Decimal(n);
    if n < 10 {
      assert s[..|s| - 1] == [];
    } else {
      DecimalValue(n / 10);
      assert s[..|s| - 1] == Decimal(n / 10);
    }
  }
}
