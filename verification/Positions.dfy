/** Where a player can be: the exact set of reachable points, and the same bound on every run of a service. */
module Positions {
  import opened GameRoom
  import opened RouteTable
  import opened RoomWorld
  import opened Replica

  /** The positions that a sequence of move requests leads to after a login. */
  function Walk(dirs: seq<int>): Pos {
    if dirs == [] then Pos(0, 0)
    else Stepped(Player(true, 0, Walk(dirs[..|dirs| - 1]), START_STEP), dirs[|dirs| - 1])
  }

  predicate OnGrid(p: Pos) {
    p.x % 4 == 0 && 0 <= p.x <= 956 && p.y % 4 == 0 && 0 <= p.y <= 556
  }

  lemma StepOnGrid(p: Player, dir: int)
    requires OnGrid(p.pos) && p.step == 4
    ensures var q := Stepped(p, dir);
            && OnGrid(q)
            && (p.pos.x != 0 ==> q.x != 0) && (p.pos.y != 0 ==> q.y != 0)
  {
  }

  lemma {:induction false} WalkOnGrid(dirs: seq<int>)
    ensures OnGrid(Walk(dirs))
  {
    if dirs != [] {
      WalkOnGrid(dirs[..|dirs| - 1]);
      StepOnGrid(Player(true, 0, Walk(dirs[..|dirs| - 1]), START_STEP), dirs[|dirs| - 1]);
    }
  }

  /** k steps right from the corner, then l steps down. */
  function Path(k: nat, l: nat): seq<int> {
    if l > 0 then Path(k, l - 1) + [MOVE_DOWN]
    else if k > 0 then Path(k - 1, 0) + [MOVE_RIGHT]
    else []
  }

  lemma {:induction false} PathLeads(k: nat, l: nat)
    requires 4 * k <= 956 && 4 * l <= 556
    ensures Walk(Path(k, l)) == Pos(4 * k, 4 * l)
    decreases l, k
  {
    if l > 0 {
      PathLeads(k, l - 1);
      assert Path(k, l)[..|Path(k, l)| - 1] == Path(k, l - 1);
    } else if k > 0 {
      PathLeads(k - 1, 0);
      assert Path(k, l)[..|Path(k, l)| - 1] == Path(k - 1, 0);
    }
  }

  /** The reachable points are exactly the multiples of 4 with 0 <= x <= 956 and 0 <= y <= 556. */
  lemma ReachableExactly(p: Pos)
    ensures (exists dirs :: Walk(dirs) == p) <==> OnGrid(p)
  {
    if OnGrid(p) {
      PathLeads(p.x / 4, p.y / 4);
    }
    if dirs :| Walk(dirs) == p {
      WalkOnGrid(dirs);
    }
  }

  function NextPlayer(p: Player, e: Event, q: int): Player {
    if e == Login(q) then p.(uid := q, pos := Pos(0, 0), step := START_STEP)
    else if e.Move? && e.uid == q then p.(pos := Stepped(p, e.dir))
    else p
  }

  /** What one queue message does to the players of attached uids. */
  lemma HandlePlayers(lim: Limits, r: Room, e: Event, q: int)
    requires RouteInv(lim, r) && ValidUid(lim, e.uid) && ValidUid(lim, q) && r.ids[q].using && !r.fault
    ensures var r' := Handle(lim, r, e).0;
            && Shape(lim, r')
            && (e != Close(q) ==> r'.ids[q].using && PlayerOf(r', q) == NextPlayer(PlayerOf(r, q), e, q))
  {
    hide RouteInv, Append, EnemyPackets, Stepped;
    RouteShape(lim, r);
    RouteKept(lim, r, e);
    RouteShape(lim, Handle(lim, r, e).0);
    if e.Connect? {
      AttachedPlayers(lim, r, e.uid, q);
    } else if r.ids[e.uid].using {
      OwnSlots(lim, r, e.uid, q);
    }
  }

  /** What a move request of a player that goes 4 at a time does: 1 is left, 2 right, 3 up, 4 down, a step that would
      reach a border of the 960 by 560 field or go beyond it is not made, and any other request moves nobody. The new
      position is what the only packet says, if there is one, and no other player changes. */
  lemma MoveIs(lim: Limits, r: Room, uid: int, d: int)
    requires RouteInv(lim, r) && ValidUid(lim, uid) && r.ids[uid].using && !r.fault && PlayerOf(r, uid).step == 4
    ensures var (r', packets) := Handle(lim, r, Move(uid, d));
            var p := PlayerOf(r, uid);
            var (x, y) := (p.pos.x, p.pos.y);
            && Shape(lim, r') && r'.ids == r.ids
            && PlayerOf(r', uid).pos.x ==
               (if d == 1 && x > 4 then x - 4 else if d == 2 && x + 4 < 960 then x + 4 else x)
            && PlayerOf(r', uid).pos.y ==
               (if d == 3 && y > 4 then y - 4 else if d == 4 && y + 4 < 560 then y + 4 else y)
            && PlayerOf(r', uid).uid == p.uid && PlayerOf(r', uid).step == 4
            && (forall k :: 0 <= k < |packets| ==> packets[k].msg == EnemyMsg(p.uid, PlayerOf(r', uid).pos))
            && (forall q :: 0 <= q < lim.uids && q != uid && r.ids[q].using ==> PlayerOf(r', q) == PlayerOf(r, q))
  {
    hide RouteInv, Stepped;
    RouteShape(lim, r);
    SteppedIs(PlayerOf(r, uid), d);
    forall q | 0 <= q < lim.uids && r.ids[q].using
      ensures PlayerOf(Handle(lim, r, Move(uid, d)).0, q) == NextPlayer(PlayerOf(r, q), Move(uid, d), q)
    {
      HandlePlayers(lim, r, Move(uid, d), q);
    }
  }

  lemma SteppedIs(p: Player, d: int)
    requires p.step == 4
    ensures var (x, y) := (p.pos.x, p.pos.y);
            Stepped(p, d) ==
              Pos(if d == 1 && x > 4 then x - 4 else if d == 2 && x + 4 < 960 then x + 4 else x,
                  if d == 3 && y > 4 then y - 4 else if d == 4 && y + 4 < 560 then y + 4 else y)
  {
  }

  lemma OwnSlots(lim: Limits, r: Room, u: int, q: int)
    requires RouteInv(lim, r) && ValidUid(lim, u) && ValidUid(lim, q) && r.ids[u].using && r.ids[q].using
    ensures u != q ==> r.ids[u].mapid != r.ids[q].mapid || r.ids[u].slot != r.ids[q].slot
    ensures r.maps[r.ids[u].mapid].sock[r.ids[u].slot] == u
  {
    assert UidOk(r, u) && UidOk(r, q);
  }

  ghost predicate Placed(lim: Limits, w: World, u: int)
    requires WorldShape(lim, w) && ValidUid(lim, u)
  {
    w.room.ids[u].using && PlayerOf(w.room, u).step == 4 && OnGrid(PlayerOf(w.room, u).pos)
  }

  lemma PlacedStep(lim: Limits, w: World, e: Event, w': World, u: int)
    requires Steps(lim, w, e, w') && ValidUid(lim, u)
    requires Placed(lim, w, u) || (w.room.ids[u].using && !w.room.fault && e == Login(u))
    requires e != Close(u)
    ensures Placed(lim, w', u)
    ensures e != Login(u) ==>
              && (PlayerOf(w.room, u).pos.x != 0 ==> PlayerOf(w'.room, u).pos.x != 0)
              && (PlayerOf(w.room, u).pos.y != 0 ==> PlayerOf(w'.room, u).pos.y != 0)
  {
    hide RouteInv, Stepped, OnGrid;
    if !w.room.fault {
      HandlePlayers(lim, w.room, e, u);
      hide Handle;
      if e.Move? && Placed(lim, w, u) { StepOnGrid(PlayerOf(w.room, u), e.dir); }
      CornerOnGrid();
    }
  }

  lemma CornerOnGrid()
    ensures OnGrid(Pos(0, 0))
  {
  }

  /** On every run, disciplined or not: from a login until the close a player stays on the grid,
      and a coordinate that has left 0 stays away from 0 until the next login. */
  lemma PositionsOnRuns(lim: Limits, ws: seq<World>, es: seq<Event>, u: int, i: nat, j: nat, k: nat)
    requires IsRun(lim, ws, es) && ValidUid(lim, u) && i < j <= k <= |es|
    requires es[i] == Login(u) && !ws[i].room.fault && u < |ws[i].room.ids| && ws[i].room.ids[u].using
    requires forall n :: i <= n < k ==> es[n] != Close(u)
    requires forall n :: j <= n < k ==> es[n] != Login(u)
    ensures WorldShape(lim, ws[j]) && WorldShape(lim, ws[k])
    ensures Placed(lim, ws[j], u) && Placed(lim, ws[k], u)
    ensures PlayerOf(ws[j].room, u).pos.x != 0 ==> PlayerOf(ws[k].room, u).pos.x != 0
    ensures PlayerOf(ws[j].room, u).pos.y != 0 ==> PlayerOf(ws[k].room, u).pos.y != 0
  {
    hide Step, WorldInv, Placed, OnGrid;
    RunShape(lim, ws, es, i);
    PlacedStep(lim, ws[i], es[i], ws[i + 1], u);
    for n := i + 1 to j
      invariant WorldShape(lim, ws[n]) && Placed(lim, ws[n], u)
    {
      RunShape(lim, ws, es, n);
      PlacedStep(lim, ws[n], es[n], ws[n + 1], u);
    }
    for n := j to k
      invariant WorldShape(lim, ws[n]) && Placed(lim, ws[n], u)
      invariant PlayerOf(ws[j].room, u).pos.x != 0 ==> PlayerOf(ws[n].room, u).pos.x != 0
      invariant PlayerOf(ws[j].room, u).pos.y != 0 ==> PlayerOf(ws[n].room, u).pos.y != 0
    {
      RunShape(lim, ws, es, n);
      PlacedStep(lim, ws[n], es[n], ws[n + 1], u);
    }
  }

  lemma RunShape(lim: Limits, ws: seq<World>, es: seq<Event>, n: nat)
    requires IsRun(lim, ws, es) && n < |es|
    ensures Steps(lim, ws[n], es[n], ws[n + 1]) && WorldShape(lim, ws[n]) && WorldShape(lim, ws[n + 1])
  {
  }
}
