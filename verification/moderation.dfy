/**
 * A room and its private censor together. The room's CENSOR request is
 * synchronous: the censor handles it before the room goes on, and the room acts
 * on the censor's answer. Composing RoomStep with CensorStep states the
 * moderation property end to end.
 */
module Moderation {
  import opened Mesh
  import opened Tokens
  import opened Services
  import opened Rooms
  import Buildings

  /** What the room's request gets back from the censor's outcome: its answer, or an
      error when the censor panicked before answering (the request then times out). */
  function ReplyOf(out: Outcome): Reply
  {
    match out.response
    case Some(v) => Ok(v)
    case None => Err
  }

  /** The room asks its censor exactly for speech from an untrusted identifier. */
  predicate AsksCensor(room: RoomState, topic: Topic, p: Payload)
  {
    IsSpeech(topic) && IdAt(p, "from").Some? && !Trusted(room, IdAt(p, "from").value)
  }

  datatype Moderated = Moderated(room: Step<RoomState>, censor: Step<CensorState>)

  /** One event delivered to the room, with the censor answering the room's request. */
  function Moderate(room: RoomState, censor: CensorState, topic: Topic, p: Payload): Moderated
  {
    if AsksCensor(room, topic, p) then
      var c := CensorStep(censor, RawTopic.Censor, p);
      Moderated(RoomStep(room, topic, p, ReplyOf(c.out)), c)
    else Moderated(RoomStep(room, topic, p, Err), Step(Quiet, censor))
  }

  /** For untrusted speech with a text message, the room re-broadcasts the event, with
      its payload unchanged, if and only if the censor accepts the message; a refused
      message is dropped without error, charged to its sender, and answered by the
      censor's private notice. Membership is unchanged either way. */
  lemma ModerationGate(room: RoomState, censor: CensorState, topic: Topic, p: Payload, u: CellId, m: string)
    requires IsSpeech(topic) && IdAt(p, "from") == Some(u) && !Trusted(room, u)
    requires TextAt(p, "message") == Some(m)
    ensures var x := Moderate(room, censor, topic, p);
      && x.room.next == room
      && x.room.out.fault == None
      && (Accepts(censor.words, m) ==> x.room.out.emitted == [ToSubscribers(topic, p)])
      && (!Accepts(censor.words, m) ==> x.room.out.emitted == [])
      && (Accepts(censor.words, m) ==> Warnings(x.censor.next.warnings, u) == Warnings(censor.warnings, u))
      && (!Accepts(censor.words, m) ==> Warnings(x.censor.next.warnings, u) == Warnings(censor.warnings, u) + 1)
      && (!Accepts(censor.words, m) ==>
            x.censor.out.emitted == [ToSubscribers(SaysTo, Notice(censor.id, u, Warnings(censor.warnings, u) + 1))])
  {
    var c := CensorStep(censor, RawTopic.Censor, p);
    CensorAnswer(censor, p);
    assert ReplyOf(c.out) == Ok(Flag(Accepts(censor.words, m)));
    UntrustedIsGated(room, topic, p, ReplyOf(c.out), u);
  }

  /** A room made by addRoom never re-broadcasts untrusted speech holding the piece
      "hell", and the sender's warning count rises by one. */
  lemma HellIsNeverRebroadcast(room: RoomState, censor: CensorState, topic: Topic, p: Payload, u: CellId, m: string)
    requires forall w :: w in censor.words <==> w in Buildings.CensoredWords
    requires IsSpeech(topic) && IdAt(p, "from") == Some(u) && !Trusted(room, u)
    requires TextAt(p, "message") == Some(m) && "hell" in Split(m)
    ensures var x := Moderate(room, censor, topic, p);
      && x.room.out.emitted == []
      && x.room.out.fault == None
      && Warnings(x.censor.next.warnings, u) == Warnings(censor.warnings, u) + 1
  {
    assert "hell" in censor.words;
    ModerationGate(room, censor, topic, p, u, m);
  }

  /** The same two cells as objects: the room's Init-made censor answers the request in
      place, then the room handles the event with that answer. */
  method Deliver(room: Room, topic: Topic, p: Payload) returns (roomOut: Outcome, censorOut: Outcome)
    requires room.censor != null
    modifies room`users, room.censor`warnings
    ensures Moderated(Step(roomOut, room.State()), Step(censorOut, room.censor.State()))
         == Moderate(old(room.State()), old(room.censor.State()), topic, p)
  {
    var censor := room.censor;
    var reply := Err;
    censorOut := Quiet;
    if AsksCensor(room.State(), topic, p) {
      censorOut := censor.ProcessEvent(RawTopic.Censor, p);
      reply := ReplyOf(censorOut);
    }
    roomOut := room.ProcessEvent(topic, p, reply);
  }
}
