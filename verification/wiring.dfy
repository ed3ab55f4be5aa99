/**
 * The wiring functions (addBuilding, addRoom, addUser, addLogUser) produce
 * sequences of environment operations. This module gives those operations the
 * meaning the wiring relies on, over an abstract environment: a registry of
 * live cells, the subscription edges, and the events delivered to cells, in order.
 *
 *  - StartCell registers a new id; an id that is already live is refused.
 *  - Subscribe(source, destination) adds the edge only when both cells are live;
 *    otherwise it fails and the caller (subscribe in main.go) only logs the error.
 *  - EmitNew(target, ...) delivers the event to the live cell target; for an
 *    unknown target it fails.
 */
module Wiring {
  import opened Mesh
  import Rooms
  import Buildings

  datatype Env = Env(cells: map<CellId, Behavior>, edges: set<(CellId, CellId)>, delivered: seq<(CellId, Event)>)

  const Empty: Env := Env(map[], {}, [])

  function Apply(e: Env, op: EnvOp): (r: Env)
    ensures e.cells.Keys <= r.cells.Keys && e.edges <= r.edges
  {
    match op
    case StartCell(id, b) =>
      if id in e.cells then e else e.(cells := e.cells[id := b])
    case Subscribe(src, dst) =>
      if src in e.cells && dst in e.cells then e.(edges := e.edges + {(src, dst)}) else e
    case EmitNew(target, topic, p) =>
      if target in e.cells then e.(delivered := e.delivered + [(target, Event(topic, p))]) else e
  }

  function Run(e: Env, ops: seq<EnvOp>): (r: Env)
    decreases |ops|
  {
    if ops == [] then e else Run(Apply(e, ops[0]), ops[1..])
  }

  /** Running two lists of operations is running the first, then the second. */
  lemma {:induction false} RunAppend(e: Env, a: seq<EnvOp>, b: seq<EnvOp>)
    ensures Run(e, a + b) == Run(Run(e, a), b)
    decreases |a|
  {
    if a != [] {
      assert (a + b)[0] == a[0];
      assert (a + b)[1..] == a[1..] + b;
      RunAppend(Apply(e, a[0]), a[1..], b);
    } else {
      assert a + b == b;
    }
  }

  /** Live cells and edges are never lost by running operations. */
  lemma {:induction false} RunGrows(e: Env, ops: seq<EnvOp>)
    ensures e.cells.Keys <= Run(e, ops).cells.Keys && e.edges <= Run(e, ops).edges
    decreases |ops|
  {
    if ops != [] {
      RunGrows(Apply(e, ops[0]), ops[1..]);
    }
  }

  /** addBuilding on a fresh environment: the building and its public address are live
      and the building listens to the public address. */
  lemma BuildingSetUp(b: string)
    ensures var (ops, id) := Buildings.AddBuilding(b);
      var e := Run(Empty, ops);
      && id == BuildingId(b)
      && e.cells == map[BuildingId(b) := BuildingCell(b), PaId(b) := PublicAddressCell(Buildings.AnnouncementInterval)]
      && e.edges == {(PaId(b), BuildingId(b))}
      && e.delivered == []
  {
    var ops := Buildings.AddBuilding(b).0;
    var e1 := Apply(Empty, ops[0]);
    var e2 := Apply(e1, ops[1]);
    var e3 := Apply(e2, ops[2]);
    assert Run(Empty, ops) == Run(e1, ops[1..]);
    assert Run(e1, ops[1..]) == Run(e2, ops[2..]);
    assert Run(e2, ops[2..]) == Run(e3, ops[3..]);
  }

  /** addRoom after addBuilding: the room is live with the censored words ["hell"], it
      listens to the building's public address, and the building is told ROOM_ADDED
      with the room's id. */
  lemma RoomSetUp(e: Env, b: string, r: string)
    requires BuildingId(b) in e.cells && PaId(b) in e.cells && RoomId(b, r) !in e.cells
    ensures var e' := Run(e, Buildings.AddRoom(b, r));
      && e'.cells == e.cells[RoomId(b, r) := RoomCell(r, b, ["hell"])]
      && e'.edges == e.edges + {(PaId(b), RoomId(b, r))}
      && e'.delivered == e.delivered + [(BuildingId(b), Event(RoomAdded, map["room" := Ref(RoomId(b, r))]))]
  {
    var ops := Buildings.AddRoom(b, r);
    var e1 := Apply(e, ops[0]);
    var e2 := Apply(e1, ops[1]);
    var e3 := Apply(e2, ops[2]);
    assert Run(e, ops) == Run(e1, ops[1..]);
    assert Run(e1, ops[1..]) == Run(e2, ops[2..]);
    assert Run(e2, ops[2..]) == Run(e3, ops[3..]);
  }

  /** addRoom before its building exists: the room starts, but its subscription to the
      public address and the ROOM_ADDED notice both fail, so the building never lists it. */
  lemma RoomBeforeBuilding(e: Env, b: string, r: string)
    requires BuildingId(b) !in e.cells && PaId(b) !in e.cells && RoomId(b, r) !in e.cells
    ensures var e' := Run(e, Buildings.AddRoom(b, r));
      && e'.cells == e.cells[RoomId(b, r) := RoomCell(r, b, ["hell"])]
      && e'.edges == e.edges
      && e'.delivered == e.delivered
  {
    var ops := Buildings.AddRoom(b, r);
    var e1 := Apply(e, ops[0]);
    var e2 := Apply(e1, ops[1]);
    var e3 := Apply(e2, ops[2]);
    assert Run(e, ops) == Run(e1, ops[1..]);
    assert Run(e1, ops[1..]) == Run(e2, ops[2..]);
    assert Run(e2, ops[2..]) == Run(e3, ops[3..]);
  }

  /** addUser for a live room: the user's cell is live (if it was not already), it
      listens to the room, and the room is told USER_ADDED with the user's id. Calling
      it again for the same user starts nothing new and adds no edge: only a second
      USER_ADDED reaches the room, which the room ignores. */
  lemma UserSetUp(e: Env, b: string, r: string, u: string)
    requires RoomId(b, r) in e.cells
    ensures var (ops, id) := Rooms.AddUser(b, r, u);
      var e' := Run(e, ops);
      && id == UserId(u)
      && e'.cells == (if id in e.cells then e.cells else e.cells[id := UserCell(u)])
      && e'.edges == e.edges + {(RoomId(b, r), id)}
      && e'.delivered == e.delivered + [(RoomId(b, r), Event(UserAdded, map["user" := Ref(id)]))]
  {
    var ops := Rooms.AddUser(b, r, u).0;
    var e1 := Apply(e, ops[0]);
    var e2 := Apply(e1, ops[1]);
    var e3 := Apply(e2, ops[2]);
    assert Run(e, ops) == Run(e1, ops[1..]);
    assert Run(e1, ops[1..]) == Run(e2, ops[2..]);
    assert Run(e2, ops[2..]) == Run(e3, ops[3..]);
  }

  /** addLogUser for a live room: the logger listens to the room and the room is told
      USER_ADDED (the literal "user-added" is that topic). */
  lemma LogUserSetUp(e: Env, b: string, r: string)
    requires RoomId(b, r) in e.cells && UserId("logger") !in e.cells
    ensures var e' := Run(e, Rooms.AddLogUser(b, r));
      && e'.cells == e.cells[UserId("logger") := LogUserCell("logger")]
      && e'.edges == e.edges + {(RoomId(b, r), UserId("logger"))}
      && e'.delivered == e.delivered + [(RoomId(b, r), Event(UserAdded, map["user" := Ref(UserId("logger"))]))]
  {
    var ops := Rooms.AddLogUser(b, r);
    assert ParseTopic("user-added") == UserAdded;
    var e1 := Apply(e, ops[0]);
    var e2 := Apply(e1, ops[1]);
    var e3 := Apply(e2, ops[2]);
    assert Run(e, ops) == Run(e1, ops[1..]);
    assert Run(e1, ops[1..]) == Run(e2, ops[2..]);
    assert Run(e2, ops[2..]) == Run(e3, ops[3..]);
  }

  /** The start-up sequence: a building, a room in it, and a user in the room. */
  lemma {:induction false} ChatSetUp(b: string, r: string, u: string)
    ensures var e := Run(Empty, Buildings.AddBuilding(b).0 + Buildings.AddRoom(b, r) + Rooms.AddUser(b, r, u).0);
      && e.cells == map[BuildingId(b) := BuildingCell(b),
                        PaId(b) := PublicAddressCell(Buildings.AnnouncementInterval),
                        RoomId(b, r) := RoomCell(r, b, ["hell"]),
                        UserId(u) := UserCell(u)]
      && e.edges == {(PaId(b), BuildingId(b)), (PaId(b), RoomId(b, r)), (RoomId(b, r), UserId(u))}
      && e.delivered == [(BuildingId(b), Event(RoomAdded, map["room" := Ref(RoomId(b, r))])),
                         (RoomId(b, r), Event(UserAdded, map["user" := Ref(UserId(u))]))]
  {
    var a := Buildings.AddBuilding(b).0;
    var c := Buildings.AddRoom(b, r);
    var d := Rooms.AddUser(b, r, u).0;
    RunAppend(Empty, a + c, d);
    RunAppend(Empty, a, c);
    BuildingSetUp(b);
    var e1 := Run(Empty, a);
    RoomSetUp(e1, b, r);
    var e2 := Run(e1, c);
    UserSetUp(e2, b, r, u);
  }
}
