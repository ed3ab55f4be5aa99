/**
 * The building: a cell that keeps the set of its rooms' ids, lists them on
 * request, and re-broadcasts public-address announcements. addBuilding and
 * addRoom are the wiring that creates buildings and rooms in the environment.
 */
module Buildings {
  import opened Mesh

  /** A listing of a set: each element exactly once and nothing else, in some order. */
  ghost predicate Enumerates(list: seq<CellId>, s: set<CellId>)
  {
    && (forall r :: r in list <==> r in s)
    && (forall i, j :: 0 <= i < j < |list| ==> list[i] != list[j])
  }

  /** SAYS_ALL: only the public address may speak through the building. A missing
      sender or another sender is refused with an error; a sender of the wrong kind
      panics. */
  function Announce(p: Payload): (out: Outcome)
    ensures out.response == None && out.calls == []
    ensures out.emitted != [] <==> IdAt(p, "from") == Some(PublicAddressUserId)
    ensures out.emitted != [] ==> out.emitted == [ToSubscribers(SaysAll, p)] && out.fault == None
    ensures out.emitted == [] ==> out.fault.Some?
  {
    if "from" !in p then Failure(NotPublicAddress)
    else match IdAt(p, "from")
      case None => Failure(BadPayload("from"))
      case Some(u) =>
        if u != PublicAddressUserId then Failure(NotPublicAddress)
        else Outcome(None, [ToSubscribers(SaysAll, p)], [], None)
  }

  /** One event handled by the building. `listing` is the order in which a LIST_ROOMS
      answer enumerates the rooms (Go leaves map iteration order unspecified). */
  function BuildingStep(rooms: set<CellId>, topic: Topic, p: Payload, listing: seq<CellId>): Step<set<CellId>>
  {
    if topic.RoomAdded? then
      match IdAt(p, "room")
      case None => Step(Failure(BadPayload("room")), rooms)
      case Some(r) => Step(Quiet, rooms + {r})
    else if topic.ListRooms? then Step(Outcome(Some(Refs(listing)), [], [], None), rooms)
    else if topic.SaysAll? then Step(Announce(p), rooms)
    else Step(Quiet, rooms)
  }

  /** ROOM_ADDED records the room; recording it again changes nothing. */
  lemma RoomAddedIdempotent(rooms: set<CellId>, r: CellId, listing: seq<CellId>)
    ensures var p := map["room" := Ref(r)];
      var once := BuildingStep(rooms, RoomAdded, p, listing).next;
      && once == rooms + {r}
      && BuildingStep(once, RoomAdded, p, listing).next == once
  {
  }

  /** LIST_ROOMS answers with the listing and leaves the rooms unchanged. */
  lemma ListRoomsReadOnly(rooms: set<CellId>, p: Payload, listing: seq<CellId>)
    ensures BuildingStep(rooms, ListRooms, p, listing) == Step(Outcome(Some(Refs(listing)), [], [], None), rooms)
  {
  }

  class Building {
    const name: string
    var rooms: set<CellId>

    /** The building addBuilding makes: no rooms yet. */
    constructor (name: string)
      ensures this.name == name && rooms == {}
    {
      this.name := name;
      rooms := {};
    }

    /** The LIST_ROOMS loop: appends every room once, in whatever order the set yields them. */
    method ListRooms() returns (list: seq<CellId>)
      ensures Enumerates(list, rooms)
    {
      list := [];
      var left := rooms;
      while left != {}
        invariant left <= rooms
        invariant forall r :: r in list <==> r in rooms && r !in left
        invariant forall i, j :: 0 <= i < j < |list| ==> list[i] != list[j]
        decreases |left|
      {
        var r :| r in left;
        list := list + [r];
        left := left - {r};
      }
    }

    /** ProcessEvent: handles an event as BuildingStep says, answering LIST_ROOMS with a
        listing of the rooms. */
    method ProcessEvent(topic: Topic, p: Payload) returns (out: Outcome)
      modifies this`rooms
      ensures topic.ListRooms? ==>
        && out.response.Some? && out.response.value.Refs?
        && Enumerates(out.response.value.ids, old(rooms))
        && Step(out, rooms) == BuildingStep(old(rooms), topic, p, out.response.value.ids)
      ensures !topic.ListRooms? ==> Step(out, rooms) == BuildingStep(old(rooms), topic, p, [])
    {
      if topic.RoomAdded? {
        var r := IdAt(p, "room");
        if r.None? {
          return Failure(BadPayload("room"));
        }
        rooms := rooms + {r.value};
        out := Quiet;
      } else if topic.ListRooms? {
        var list := ListRooms();
        out := Outcome(Some(Refs(list)), [], [], None);
      } else if topic.SaysAll? {
        out := Announce(p);
      } else {
        out := Quiet;
      }
    }
  }

  /** The words every room's censor is given. */
  const CensoredWords: seq<string> := ["hell"]

  /** The interval of the public-address timer, in seconds. */
  const AnnouncementInterval: nat := 10

  /** addBuilding: starts the building and its public-address cell and subscribes the
      building to the public address. Returns the operations and the building's id. */
  function AddBuilding(buildingName: string): (seq<EnvOp>, CellId)
  {
    var buildingId := BuildingId(buildingName);
    var paId := PaId(buildingName);
    ([StartCell(buildingId, BuildingCell(buildingName)),
      StartCell(paId, PublicAddressCell(AnnouncementInterval)),
      Subscribe(paId, buildingId)], buildingId)
  }

  /** addRoom: starts the room with the censored words, subscribes it to the building's
      public address and tells the building the room was added. */
  function AddRoom(buildingName: string, roomName: string): seq<EnvOp>
  {
    var roomId := RoomId(buildingName, roomName);
    [StartCell(roomId, RoomCell(roomName, buildingName, CensoredWords)),
     Subscribe(PaId(buildingName), roomId),
     EmitNew(BuildingId(buildingName), RoomAdded, map["room" := Ref(roomId)])]
  }
}
