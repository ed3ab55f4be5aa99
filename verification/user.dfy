/**
 * The user: a stateless cell standing for one chat participant. It turns a SAY
 * into a SAYS_ALL to the named room, after checking that the room exists and that
 * the user is a member; the answers of those two synchronous calls are inputs.
 * The log user only listens.
 */
module Users {
  import opened Mesh

  datatype User = User(name: string)

  /** The id the user's cell runs under. */
  function SelfId(u: User): CellId
  {
    UserId(u.name)
  }

  /** The SAYS_ALL payload a SAY becomes: the same payload with the sender set to the user. */
  function Said(u: User, p: Payload): Payload
  {
    p["from" := Ref(SelfId(u))]
  }

  /** One event handled by a user. `roomExists` is what HasCell answers for the room
      named by a SAY and `membership` what the IN_ROOM request answers.
      SAYS_TO is only logged, when addressed to this user, so whichever its recipient it
      has no effect; USER_DISCONNECTED is only logged. */
  function UserStep(u: User, topic: Topic, p: Payload, roomExists: bool, membership: Reply): (out: Outcome)
    ensures out.response == None
    ensures out.emitted != [] <==>
      topic.Say? && IdAt(p, "room").Some? && roomExists && membership == Ok(Flag(true))
    ensures out.emitted != [] ==>
      out.emitted == [ToCell(IdAt(p, "room").value, SaysAll, Said(u, p))] && out.fault == None
    ensures topic.Say? && IdAt(p, "room").Some? && !roomExists ==> out.fault == Some(RoomNotFound)
    ensures topic.Say? && IdAt(p, "room").Some? && roomExists && membership == Err ==>
      out.fault == Some(RequestFailed)
    ensures topic.Say? && IdAt(p, "room").Some? && roomExists && membership == Ok(Flag(false)) ==>
      out.fault == Some(NotInRoom)
    ensures topic.SaysTo? ==>
      && out.emitted == [] && out.calls == []
      && (out.fault.Some? <==> "to" in p && !p["to"].Ref?)
  {
    if topic.SaysTo? then
      if "to" !in p then Quiet
      else if IdAt(p, "to").None? then Failure(BadPayload("to"))
      else Quiet
    else if topic.Say? then
      match IdAt(p, "room")
      case None => Failure(BadPayload("room"))
      case Some(room) =>
        if !roomExists then Outcome(None, [], [HasCell(room)], Some(RoomNotFound))
        else
          var calls := [HasCell(room), Request(room, InRoom, map["user" := Ref(SelfId(u))])];
          match membership
          case Err => Outcome(None, [], calls, Some(RequestFailed))
          case Ok(v) =>
            if !v.Flag? then Outcome(None, [], calls, Some(BadReply))
            else if !v.flag then Outcome(None, [], calls, Some(NotInRoom))
            else Outcome(None, [ToCell(room, SaysAll, Said(u, p))], calls, None)
    else Quiet
  }

  /** What a member says reaches the room unchanged but for the sender, which is the
      user's own id whatever "from" the SAY carried; and the membership question asks
      about the user itself. */
  lemma SayKeepsPayload(u: User, p: Payload, room: CellId, k: string)
    requires IdAt(p, "room") == Some(room)
    ensures var out := UserStep(u, Say, p, true, Ok(Flag(true)));
      && out.calls == [HasCell(room), Request(room, InRoom, map["user" := Ref(UserId(u.name))])]
      && |out.emitted| == 1
      && out.emitted[0].payload["from"] == Ref(UserId(u.name))
      && out.emitted[0].payload.Keys == p.Keys + {"from"}
      && (k in p && k != "from" ==> out.emitted[0].payload[k] == p[k])
  {
  }

  /** logUser: only SAYS_ALL is heard, and only logged: never an answer, an emission or an error. */
  function LogUserStep(topic: Topic, p: Payload): (out: Outcome)
    ensures out.response == None && out.emitted == [] && out.calls == [] && out.fault == None
  {
    Quiet
  }
}
