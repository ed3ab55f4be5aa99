/**
 * The room: a cell that tracks its members and puts every message through its
 * censor before re-broadcasting it to its subscribers.
 *
 * RoomStep is the specification of one event, given the answer the censor
 * request got (the request is synchronous; its answer is an input here). The
 * class Room is the behaviour, updating its users set in place, proved against
 * RoomStep.
 */
module Rooms {
  import opened Mesh
  import Services

  datatype RoomState = RoomState(name: string, buildingName: string, users: set<CellId>)

  /** The id the room cell runs under (ctx.ID(), as addRoom starts it). */
  function RoomOf(s: RoomState): CellId
  {
    RoomId(s.buildingName, s.name)
  }

  /** The id of the room's private censor, as Init names it. */
  function CensorOf(s: RoomState): CellId
  {
    CensorId(s.buildingName, s.name)
  }

  /** Senders whose messages bypass the censor: the public address and the room's own censor. */
  predicate Trusted(s: RoomState, u: CellId)
  {
    u == PublicAddressUserId || u == CensorOf(s)
  }

  /** The system notice that announces a new member. */
  function JoinNotice(u: CellId): Payload
  {
    map["message" := Text(Render(u) + " has entered the room"), "from" := Ref(PublicAddressUserId)]
  }

  predicate IsSpeech(topic: Topic)
  {
    topic.SaysAll? || topic.SaysTo?
  }

  /** SAYS_ALL and SAYS_TO: a trusted sender's event is re-emitted as it is; any
      other sender's event is put to the censor and re-emitted only if the censor
      answers true. */
  function Speech(s: RoomState, topic: Topic, p: Payload, reply: Reply): Outcome
  {
    match IdAt(p, "from")
    case None => Failure(BadPayload("from"))
    case Some(u) =>
      if Trusted(s, u) then Outcome(None, [ToSubscribers(topic, p)], [], None)
      else
        var calls := [Request(CensorOf(s), Censor, p)];
        match reply
        case Err => Outcome(None, [], calls, Some(RequestFailed))
        case Ok(v) =>
          if !v.Flag? then Outcome(None, [], calls, Some(BadReply))
          else if v.flag then Outcome(None, [ToSubscribers(topic, p)], calls, None)
          else Outcome(None, [], calls, None)
  }

  /** One event handled by the room. `reply` is what the censor request answers;
      it is only consulted for a speech event from an untrusted sender. */
  function RoomStep(s: RoomState, topic: Topic, p: Payload, reply: Reply): (r: Step<RoomState>)
    ensures r.next.name == s.name && r.next.buildingName == s.buildingName
  {
    if IsSpeech(topic) then Step(Speech(s, topic, p, reply), s)
    else if topic.InRoom? then
      match IdAt(p, "user")
      case None => Step(Failure(BadPayload("user")), s)
      case Some(u) => Step(Outcome(Some(Flag(u in s.users)), [], [], None), s)
    else if topic.UserAdded? then
      match IdAt(p, "user")
      case None => Step(Failure(BadPayload("user")), s)
      case Some(u) =>
        if u in s.users then Step(Quiet, s)
        else Step(Outcome(None, [ToCell(RoomOf(s), SaysAll, JoinNotice(u))], [], None),
                  s.(users := s.users + {u}))
    else if topic.UserCount? then Step(Outcome(Some(Number(|s.users|)), [], [], None), s)
    else Step(Quiet, s)
  }

  /** A new member is added and announced exactly once: one SAYS_ALL notice, sent to
      the room's own id in the public address's name. */
  lemma UserAddedAnnouncesOnce(s: RoomState, u: CellId, reply: Reply)
    requires u !in s.users
    ensures var r := RoomStep(s, UserAdded, map["user" := Ref(u)], reply);
      && r.next.users == s.users + {u}
      && |r.next.users| == |s.users| + 1
      && r.out == Outcome(None, [ToCell(RoomOf(s), SaysAll, JoinNotice(u))], [], None)
  {
  }

  /** USER_ADDED is idempotent: for a member it changes nothing and sends nothing. */
  lemma UserAddedIdempotent(s: RoomState, u: CellId, reply: Reply)
    requires u in s.users
    ensures RoomStep(s, UserAdded, map["user" := Ref(u)], reply) == Step(Quiet, s)
  {
  }

  /** Adding the same user twice to an empty room: one member, one notice in all. */
  lemma AddTwice(s: RoomState, u: CellId, reply1: Reply, reply2: Reply)
    requires s.users == {}
    ensures var p := map["user" := Ref(u)];
      var first := RoomStep(s, UserAdded, p, reply1);
      var second := RoomStep(first.next, UserAdded, p, reply2);
      && |second.next.users| == 1
      && |first.out.emitted + second.out.emitted| == 1
  {
    UserAddedAnnouncesOnce(s, u, reply1);
  }

  /** IN_ROOM answers whether the user is a member and leaves the room unchanged. */
  lemma InRoomReadOnly(s: RoomState, u: CellId, p: Payload, reply: Reply)
    requires IdAt(p, "user") == Some(u)
    ensures RoomStep(s, InRoom, p, reply) == Step(Outcome(Some(Flag(u in s.users)), [], [], None), s)
  {
  }

  /** USER_COUNT answers the number of members, whatever the payload, and leaves the
      room unchanged. */
  lemma UserCountReadOnly(s: RoomState, p: Payload, reply: Reply)
    ensures RoomStep(s, UserCount, p, reply) == Step(Outcome(Some(Number(|s.users|)), [], [], None), s)
  {
  }

  /** A trusted sender's event is re-emitted unchanged, whatever the censor would say,
      and the censor is not asked. */
  lemma TrustedBypassesCensor(s: RoomState, topic: Topic, p: Payload, reply: Reply)
    requires IsSpeech(topic)
    requires IdAt(p, "from") == Some(PublicAddressUserId) || IdAt(p, "from") == Some(CensorOf(s))
    ensures RoomStep(s, topic, p, reply).out == Outcome(None, [ToSubscribers(topic, p)], [], None)
  {
  }

  /** Any other sender: the censor is asked with the event's own payload; the event is
      re-emitted if and only if the censor answers true; a failed request is an error
      and nothing is emitted. */
  lemma UntrustedIsGated(s: RoomState, topic: Topic, p: Payload, reply: Reply, u: CellId)
    requires IsSpeech(topic) && IdAt(p, "from") == Some(u) && !Trusted(s, u)
    ensures var out := RoomStep(s, topic, p, reply).out;
      && out.calls == [Request(CensorOf(s), Censor, p)]
      && (out.emitted != [] <==> reply == Ok(Flag(true)))
      && (out.emitted != [] ==> out.emitted == [ToSubscribers(topic, p)])
      && (reply == Err ==> out.fault == Some(RequestFailed))
  {
  }

  /** Speech never changes membership. */
  lemma SpeechKeepsMembers(s: RoomState, topic: Topic, p: Payload, reply: Reply)
    requires IsSpeech(topic)
    ensures RoomStep(s, topic, p, reply).next == s
  {
  }

  /** Membership only grows, by at most the one user an event names. */
  lemma MembersOnlyGrow(s: RoomState, topic: Topic, p: Payload, reply: Reply)
    ensures var next := RoomStep(s, topic, p, reply).next;
      && s.users <= next.users
      && |next.users| <= |s.users| + 1
  {
  }

  class Room {
    const name: string
    const buildingName: string
    const censoredWords: seq<string>
    var users: set<CellId>
    var censor: Services.Censor?

    function State(): RoomState
      reads this
    {
      RoomState(name, buildingName, users)
    }

    /** newRoom: no members yet; the censor is made by Init. */
    constructor (name: string, buildingName: string, censoredWords: seq<string>)
      ensures this.name == name && this.buildingName == buildingName
      ensures this.censoredWords == censoredWords
      ensures users == {} && censor == null
    {
      this.name := name;
      this.buildingName := buildingName;
      this.censoredWords := censoredWords;
      users := {};
      censor := null;
    }

    /** Init: makes the room's private censor, under the room's censor id, with the
        room's censored words. */
    method Init()
      modifies this`censor
      ensures censor != null && fresh(censor)
      ensures censor.id == CensorOf(State())
      ensures forall w :: w in censor.words <==> w in censoredWords
      ensures censor.warnings == map[]
    {
      censor := new Services.Censor(CensorId(buildingName, name), censoredWords);
    }

    /** ProcessEvent: handles an event as RoomStep says, updating the users set in place. */
    method ProcessEvent(topic: Topic, p: Payload, reply: Reply) returns (out: Outcome)
      modifies this`users
      ensures Step(out, State()) == RoomStep(old(State()), topic, p, reply)
    {
      if topic.SaysAll? || topic.SaysTo? {
        out := Speech(State(), topic, p, reply);
      } else if topic.InRoom? {
        var u := IdAt(p, "user");
        if u.None? {
          return Failure(BadPayload("user"));
        }
        out := Outcome(Some(Flag(u.value in users)), [], [], None);
      } else if topic.UserAdded? {
        var u := IdAt(p, "user");
        if u.None? {
          return Failure(BadPayload("user"));
        }
        if u.value !in users {
          users := users + {u.value};
          out := Outcome(None, [ToCell(RoomId(buildingName, name), SaysAll, JoinNotice(u.value))], [], None);
        } else {
          out := Quiet;
        }
      } else if topic.UserCount? {
        out := Outcome(Some(Number(|users|)), [], [], None);
      } else {
        out := Quiet;
      }
    }
  }

  /** addUser: starts the user's cell, subscribes it to the room and tells the room
      the user was added. Returns the operations in order and the user's id. */
  function AddUser(buildingName: string, roomName: string, userName: string): (seq<EnvOp>, CellId)
  {
    var roomId := RoomId(buildingName, roomName);
    var userId := UserId(userName);
    ([StartCell(userId, UserCell(userName)),
      Subscribe(roomId, userId),
      EmitNew(roomId, UserAdded, map["user" := Ref(userId)])], userId)
  }

  /** addLogUser: the same for the listening "logger" user, whose behaviour only logs.
      The topic is written there as the literal "user-added", which is USER_ADDED. */
  function AddLogUser(buildingName: string, roomName: string): seq<EnvOp>
  {
    var roomId := RoomId(buildingName, roomName);
    var userId := UserId("logger");
    [StartCell(userId, LogUserCell("logger")),
     Subscribe(roomId, userId),
     EmitNew(roomId, ParseTopic("user-added"), map["user" := Ref(userId)])]
  }
}
