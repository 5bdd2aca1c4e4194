/** What each client is sent when a client starts, moves, leaves or closes, as long as the broadcast lists are exact. */
module Answers {
  import opened GameRoom
  import opened RouteTable
  import opened RoomWorld
  import opened RoomLists
  import opened Replica

  /** What client p gets when the service of w handles e. */
  function Hears(lim: Limits, w: World, e: Event, p: int): seq<Msg>
    requires Shape(lim, w.room) && ValidUid(lim, e.uid)
  {
    AddressedTo(Handle(lim, w.room, e).1, p)
  }

  ghost predicate Exact(lim: Limits, w: World, u: int) {
    WorldInv(lim, w) && ListsOk(lim, w) && ValidUid(lim, u) && w.room.ids[u].using
  }

  /** What a broadcast to the players of u's map brings to p. */
  ghost function OnMap(w: World, u: int, p: int, msg: Msg): seq<Msg>
    requires 0 <= u < |w.room.ids|
  {
    if PlayingOn(w, p, w.room.ids[u].mapid) then [msg] else []
  }

  lemma BroadcastOne(w: World, u: int, p: int, k: Packet)
    requires 0 <= u < |w.room.ids|
    requires forall q :: q in k.to <==> PlayingOn(w, q, w.room.ids[u].mapid)
    ensures AddressedTo([k], p) == OnMap(w, u, p, k.msg)
  {
    AddressedOne(k, p);
  }

  /** A move tells every playing client of the map, the mover included, where the mover is now; nobody else hears
      anything. */
  lemma MoveHeard(lim: Limits, w: World, u: int, dir: int, p: int)
    requires Exact(lim, w, u)
    ensures var r' := Handle(lim, w.room, Move(u, dir)).0;
            && Shape(lim, r')
            && Hears(lim, w, Move(u, dir), p) == OnMap(w, u, p, EnemyMsg(PlayerOf(w.room, u).uid, PlayerOf(r', u).pos))
  {
    hide RouteInv, AddressedTo, Stepped;
    RouteShape(lim, w.room);
    var m := w.room.ids[u].mapid;
    assert ListOk(lim, w, m);
    var x := PlayerOf(w.room, u).(pos := Stepped(PlayerOf(w.room, u), dir));
    SetPlayerOnly(lim, w.room, u, x);
    var k := Packet(w.room.maps[m].list[..w.room.maps[m].num], EnemyMsg(x.uid, x.pos));
    assert Handle(lim, w.room, Move(u, dir)) == (SetPlayer(w.room, m, w.room.ids[u].slot, x), [k]);
    BroadcastOne(w, u, p, k);
  }

  /** A start tells every playing client of the map about the new player, and then the starter that it has begun. */
  lemma StartHeard(lim: Limits, w: World, u: int, p: int)
    requires Exact(lim, w, u) && w.phase[u] != Playing
    ensures Hears(lim, w, Start(u, true), p) ==
            OnMap(w, u, p, NewEnemy(PlayerOf(w.room, u).uid, PlayerOf(w.room, u).pos))
            + if p == u then [GameStartRsp] else []
  {
    hide RouteInv, AddressedTo, Handle;
    RouteShape(lim, w.room);
    var m := w.room.ids[u].mapid;
    var mr, x := w.room.maps[m], PlayerOf(w.room, u);
    assert ListOk(lim, w, m);
    StartTables(lim, w.room, u);
    RoomToStart(lim, w, u);
    var hello, done := Packet(mr.list[..mr.num], NewEnemy(x.uid, x.pos)), Packet([u], GameStartRsp);
    assert [hello, done] == [hello] + [done];
    AddressedAppend([hello], [done], p);
    BroadcastOne(w, u, p, hello);
    AddressedOne(done, p);
  }

  /** A close that leaves the lists exact tells every other playing client of the map who has gone, and nobody else
      anything. */
  lemma CloseHeard(lim: Limits, w: World, u: int, p: int)
    requires Exact(lim, w, u) && ListGuard(lim, w, Close(u))
    ensures Hears(lim, w, Close(u), p) == if p == u then [] else OnMap(w, u, p, EnemyLeave(PlayerOf(w.room, u).uid))
  {
    hide RouteInv, AddressedTo, Handle, PlayersFirst;
    RouteShape(lim, w.room);
    var m := w.room.ids[u].mapid;
    assert ListOk(lim, w, m) && PhaseOk(w, u);
    CloseTables(lim, w, u);
    CloseList(lim, w, u);
    var w' := Step(lim, w, Close(u));
    assert ListOk(lim, w', m);
    var k := Packet(w'.room.maps[m].list[..w'.room.maps[m].num], EnemyLeave(PlayerOf(w.room, u).uid));
    BroadcastOne(w', u, p, k);
    assert p != u ==> (PlayingOn(w', p, m) <==> PlayingOn(w, p, m));
  }

  /** A leave request is answered to the uid in its slot, once, and nobody else hears of it; after a login that is the
      client itself. A start that does not go, and any message but a connect about a uid that is not attached, is not
      answered at all. None of them changes the room. */
  lemma QuietHeard(lim: Limits, w: World, u: int, p: int)
    requires WorldInv(lim, w) && ValidUid(lim, u) && !w.room.fault
    ensures w.room.ids[u].using ==>
              && Handle(lim, w.room, Leave(u)).0 == w.room
              && Hears(lim, w, Leave(u), p) == if p == PlayerOf(w.room, u).uid then [LeaveRsp] else []
    ensures Handle(lim, w.room, Start(u, false)).0 == w.room && Hears(lim, w, Start(u, false), p) == []
    ensures Hears(lim, w, Connect(u), p) == []
    ensures !w.room.ids[u].using ==> forall e: Event :: e.uid == u && !e.Connect? ==>
              Handle(lim, w.room, e).0 == w.room && Hears(lim, w, e, p) == []
  {
    hide RouteInv, AddressedTo;
    RouteShape(lim, w.room);
    AddressedOne(Packet([PlayerOf(w.room, u).uid], LeaveRsp), p);
    NothingAddressed(p);
  }

  lemma NothingAddressed(p: int)
    ensures AddressedTo([], p) == []
  {
  }

  /** In a room in order a client that has logged in gets exactly one answer to its leave request, and no one else. */
  lemma LeaveAnswered(lim: Limits, w: World, u: int, p: int)
    requires Orderly(lim, w) && ValidUid(lim, u) && (w.phase[u] == LoggedIn || w.phase[u] == Playing)
    ensures Handle(lim, w.room, Leave(u)).0 == w.room
    ensures Hears(lim, w, Leave(u), p) == if p == u then [LeaveRsp] else []
  {
    hide Handle, RouteInv;
    assert PhaseOk(w, u) && IdentityOk(lim, w, u);
    QuietHeard(lim, w, u, p);
  }
}
