/** The game service as it runs: tables updated in place, packets appended to the outgoing queue.
    Every method is proved against the function of module GameRoom that says what it does to the tables. */
module GameLogic {
  import opened Util
  import opened GameRoom
  import opened RouteTable
  import opened RoomWorld

  ghost function Line<T>(a: array2<T>, m: nat): (r: seq<T>)
    requires m < a.Length0
    reads a
    ensures |r| == a.Length1 && forall s :: 0 <= s < a.Length1 ==> r[s] == a[m, s]
  {
    seq(a.Length1, s requires 0 <= s < a.Length1 reads a => a[m, s])
  }

  lemma InitShape(lim: Limits, garbage: seq<seq<Player>>)
    requires 0 < lim.maps && 0 < lim.perMap && 0 < lim.uids
    requires |garbage| == lim.maps
    requires forall m :: 0 <= m < lim.maps ==> |garbage[m]| == lim.perMap
    ensures Shape(lim, Init(lim, garbage))
  {
  }

  lemma OverwriteAt(list: seq<int>, front: seq<int>)
    requires |front| <= |list|
    ensures |Overwrite(list, front)| == |list|
    ensures forall k :: 0 <= k < |list| ==> Overwrite(list, front)[k] == if k < |front| then front[k] else list[k]
  {
  }

  class GameService {
    const lim: Limits
    const ids: array<PlayerId>
    const players: array2<Player>
    const sock: array2<int>
    const list: array2<int>
    const num: array<int>
    var playerNum: int
    var fault: bool
    var out: seq<Packet>

    ghost function Parts(): set<object> {
      {this, ids, players, sock, list, num}
    }

    ghost predicate Dims() {
      && ids.Length == lim.uids && num.Length == lim.maps && sock != list
      && players.Length0 == sock.Length0 == list.Length0 == lim.maps
      && players.Length1 == sock.Length1 == list.Length1 == lim.perMap
    }

    ghost function MapOf(m: nat): MapRoom
      requires Dims() && m < lim.maps
      reads players, sock, list, num
    {
      MapRoom(num[m], Line(players, m), Line(sock, m), Line(list, m))
    }

    ghost function Tables(): (r: Room)
      requires Dims()
      reads this`playerNum, this`fault, ids, players, sock, list, num
      ensures |r.maps| == lim.maps && forall m :: 0 <= m < lim.maps ==> r.maps[m] == MapOf(m)
    {
      Room(ids[..],
           seq(lim.maps, m requires 0 <= m < lim.maps reads players, sock, list, num => MapOf(m)),
           playerNum, fault)
    }

    ghost predicate Valid()
      reads this`playerNum, this`fault, ids, players, sock, list, num
    {
      Dims() && Shape(lim, Tables())
    }

    /** The tables are those of r, entry by entry. */
    ghost predicate Holds(r: Room)
      requires Dims()
      reads this`playerNum, this`fault, ids, players, sock, list, num
    {
      && r.ids == ids[..] && |r.maps| == lim.maps && r.playerNum == playerNum && r.fault == fault
      && (forall m :: 0 <= m < lim.maps ==>
            && r.maps[m].num == num[m]
            && |r.maps[m].players| == |r.maps[m].sock| == |r.maps[m].list| == lim.perMap)
      && (forall m, s :: 0 <= m < lim.maps && 0 <= s < lim.perMap ==>
            r.maps[m].players[s] == players[m, s] && r.maps[m].sock[s] == sock[m, s] && r.maps[m].list[s] == list[m, s])
    }

    lemma HoldsTables(r: Room)
      requires Dims() && Holds(r)
      ensures r == Tables()
    {
      forall m | 0 <= m < lim.maps ensures r.maps[m] == MapOf(m) {
        assert r.maps[m].players == Line(players, m);
        assert r.maps[m].sock == Line(sock, m);
        assert r.maps[m].list == Line(list, m);
      }
      assert r.maps == Tables().maps;
    }

    lemma TablesHold()
      requires Dims()
      ensures Holds(Tables())
    {
    }

    constructor (lim: Limits, garbage: seq<seq<Player>>)
      requires 0 < lim.maps && 0 < lim.perMap && 0 < lim.uids
      requires |garbage| == lim.maps
      requires forall m :: 0 <= m < lim.maps ==> |garbage[m]| == lim.perMap
      ensures Valid() && this.lim == lim && Tables() == Init(lim, garbage) && out == []
      ensures fresh(Parts())
    {
      this.lim := lim;
      ids := new PlayerId[lim.uids](_ => PlayerId(false, 0, 0));
      players := new Player[lim.maps, lim.perMap]((m: int, s: int)
        requires 0 <= m < lim.maps && 0 <= s < lim.perMap && m < |garbage| && s < |garbage[m]|
        => garbage[m][s].(using := false));
      sock := new int[lim.maps, lim.perMap]((_, _) => NO_UID);
      list := new int[lim.maps, lim.perMap]((_, _) => 0);
      num := new int[lim.maps](_ => 0);
      playerNum, fault, out := 0, false, [];
      new;
      hide Shape, Line;
      StartTables(garbage);
    }

    lemma StartTables(garbage: seq<seq<Player>>)
      requires Dims() && 0 < lim.maps && 0 < lim.perMap && 0 < lim.uids && |garbage| == lim.maps
      requires forall m :: 0 <= m < lim.maps ==> |garbage[m]| == lim.perMap
      requires playerNum == 0 && !fault && forall u :: 0 <= u < lim.uids ==> ids[u] == PlayerId(false, 0, 0)
      requires forall m :: 0 <= m < lim.maps ==> num[m] == 0
      requires forall m, s :: 0 <= m < lim.maps && 0 <= s < lim.perMap ==>
                 players[m, s] == garbage[m][s].(using := false) && sock[m, s] == NO_UID && list[m, s] == 0
      ensures Tables() == Init(lim, garbage) && Valid()
    {
      hide Shape;
      assert ids[..] == Init(lim, garbage).ids;
      HoldsTables(Init(lim, garbage));
      InitShape(lim, garbage);
    }

    // ---------- connect ----------

    method GetMapid() returns (map_id: int)
      requires Valid()
      ensures -1 <= map_id < lim.maps
      ensures playerNum >= lim.Cap() ==> map_id == -1
      ensures playerNum < lim.Cap() ==> LowestMap(lim, Tables().maps, 0) == if map_id == -1 then None else Some(map_id)
    {
      if playerNum >= lim.Cap() { return -1; }
      var i := 0;
      while i < lim.maps
        invariant 0 <= i <= lim.maps
        invariant LowestMap(lim, Tables().maps, 0) == LowestMap(lim, Tables().maps, i)
      {
        if num[i] < lim.perMap { return i; }
        i := i + 1;
      }
      return -1;
    }

    /** The lowest free slot of the map, which is marked as used. */
    method GetPlayeridInMap(m: nat) returns (id_in_map: int)
      requires Valid() && m < lim.maps
      modifies players
      ensures Dims()
      ensures -1 <= id_in_map < lim.perMap
      ensures LowestFree(old(Tables()).maps[m].players, 0) == if id_in_map == -1 then None else Some(id_in_map)
      ensures Tables() == if id_in_map == -1 then old(Tables())
                          else SetPlayer(old(Tables()), m, id_in_map, old(players[m, id_in_map]).(using := true))
    {
      ghost var r := Tables();
      var i := 0;
      while i < lim.perMap
        invariant 0 <= i <= lim.perMap && Tables() == r
        invariant LowestFree(r.maps[m].players, 0) == LowestFree(r.maps[m].players, i)
      {
        if !players[m, i].using {
          players[m, i] := players[m, i].(using := true);
          HoldsTables(SetPlayer(r, m, i, r.maps[m].players[i].(using := true)));
          return i;
        }
        i := i + 1;
      }
      return -1;
    }

    method RecordRoute(uid: int, map_id: nat, id_in_map: nat)
      requires Dims() && ValidUid(lim, uid) && map_id < lim.maps && id_in_map < lim.perMap
      requires players[map_id, id_in_map].using
      modifies this`playerNum, ids, sock
      ensures Dims()
      ensures Tables() == if old(sock[map_id, id_in_map]) == NO_UID
                          then Attach(old(Tables()), uid, map_id, id_in_map) else old(Tables())
    {
      ghost var r := Tables();
      TablesHold();
      if sock[map_id, id_in_map] == NO_UID {
        ids[uid] := PlayerId(true, map_id, id_in_map);
        sock[map_id, id_in_map] := uid;
        playerNum := playerNum + 1;
        HoldsTables(Attach(r, uid, map_id, id_in_map));
      }
    }

    method RouteAppend(uid: int)
      requires Valid() && ValidUid(lim, uid)
      modifies this`playerNum, ids, players, sock
      ensures Dims()
      ensures Tables() == Append(lim, old(Tables()), uid)
    {
      ghost var r := Tables();
      if ids[uid].using { return; }
      var map_id := GetMapid();
      LowestMapIs(lim, r.maps, 0);
      assert Tables() == r;
      if map_id == -1 { return; }
      LowestFreeIs(r.maps[map_id].players, 0);
      var id_in_map := GetPlayeridInMap(map_id);
      if id_in_map == -1 { return; }
      TablesHold();
      RecordRoute(uid, map_id, id_in_map);
    }

    // ---------- close ----------

    method RouteDel(uid: int)
      requires Dims() && ValidUid(lim, uid)
      requires ids[uid].mapid < lim.maps && ids[uid].slot < lim.perMap
      modifies this`playerNum, ids, players, sock, num
      ensures Dims()
      ensures Tables() == if old(ids[uid].using) then Del(lim, old(Tables()), uid) else old(Tables())
    {
      if ids[uid].using { Detach(uid); }
    }

    method Detach(uid: int)
      requires Dims() && ValidUid(lim, uid)
      requires ids[uid].mapid < lim.maps && ids[uid].slot < lim.perMap
      modifies this`playerNum, ids, players, sock, num
      ensures Dims() && Tables() == Del(lim, old(Tables()), uid)
    {
      ghost var r := Tables();
      TablesHold();
      var map_id, map_playerid := ids[uid].mapid, ids[uid].slot;
      ids[uid] := ids[uid].(using := false);
      num[map_id] := num[map_id] - 1;
      playerNum := playerNum - 1;
      if sock[map_id, map_playerid] == uid { ClearSlot(map_id, map_playerid); }
      HoldsTables(Del(lim, r, uid));
    }

    method ClearSlot(m: nat, s: nat)
      requires Dims() && m < lim.maps && s < lim.perMap
      modifies players, sock
      ensures forall k, t :: 0 <= k < lim.maps && 0 <= t < lim.perMap ==>
                && sock[k, t] == (if k == m && t == s then NO_UID else old(sock[k, t]))
                && players[k, t] == if k == m && t == s then old(players[k, t]).(using := false) else old(players[k, t])
    {
      sock[m, s] := NO_UID;
      players[m, s] := players[m, s].(using := false);
    }

    method MapUidListRebuild(uid: int)
      requires Valid() && ValidUid(lim, uid)
      modifies list
      ensures Dims()
      ensures Tables() == if ids[uid].using then Rebuild(lim, old(Tables()), uid) else old(Tables())
    {
      if !ids[uid].using { return; }
      ghost var r := Tables();
      TablesHold();
      var mapid := ids[uid].mapid;
      OthersLen(Line(sock, mapid), uid);
      RebuildList(mapid, uid);
      OverwriteAt(r.maps[mapid].list, Others(r.maps[mapid].sock, uid));
      HoldsTables(Rebuild(lim, r, uid));
    }

    method RebuildList(mapid: nat, uid: int)
      requires Dims() && mapid < lim.maps
      modifies list
      ensures |Others(Line(sock, mapid), uid)| <= lim.perMap
      ensures Line(list, mapid) == Overwrite(old(Line(list, mapid)), Others(Line(sock, mapid), uid))
      ensures forall m, k :: 0 <= m < lim.maps && m != mapid && 0 <= k < lim.perMap ==> list[m, k] == old(list[m, k])
    {
      ghost var socks := Line(sock, mapid);
      var index := 0;
      var i := 0;
      while i < lim.perMap
        invariant 0 <= i <= lim.perMap && index == |Others(socks[..i], uid)| <= i
        invariant forall k :: 0 <= k < index ==> list[mapid, k] == Others(socks[..i], uid)[k]
        invariant forall k :: index <= k < lim.perMap ==> list[mapid, k] == old(list[mapid, k])
        invariant forall m, k :: 0 <= m < lim.maps && m != mapid && 0 <= k < lim.perMap ==>
                    list[m, k] == old(list[m, k])
      {
        assert socks[..i + 1][..i] == socks[..i];
        var user_id := sock[mapid, i];
        if user_id != NO_UID && user_id != uid {
          list[mapid, index] := user_id;
          index := index + 1;
        }
        i := i + 1;
      }
      assert socks[..lim.perMap] == socks;
      OverwriteAt(old(Line(list, mapid)), Others(socks, uid));
    }

    // ---------- sending ----------

    /** uid_list_cpy: the first n entries of a map's list. */
    method UidListCpy(m: nat, n: nat) returns (des: seq<int>)
      requires Dims() && m < lim.maps && n <= lim.perMap
      ensures des == Tables().maps[m].list[..n]
    {
      des := [];
      var index := 0;
      while index < n
        invariant 0 <= index <= n && des == Tables().maps[m].list[..index]
      {
        des := des + [list[m, index]];
        index := index + 1;
      }
    }

    method BroadcastPlayerMsg(m: nat, msg: Msg)
      requires Dims() && m < lim.maps
      modifies this`fault, this`out
      ensures Dims()
      ensures var (r', sent) := Broadcast(lim, old(Tables()), m, msg);
              Tables() == r' && out == old(out) + sent
    {
      ghost var r := Tables();
      TablesHold();
      if num[m] > lim.perMap {
        fault := true;
        HoldsTables(r.(fault := true));
      } else {
        var to := UidListCpy(m, Max0(num[m]));
        out := out + [Packet(to, msg)];
        HoldsTables(r);
      }
    }

    method SetPlayerAt(m: nat, s: nat, p: Player)
      requires Dims() && m < lim.maps && s < lim.perMap
      modifies players
      ensures Dims() && Tables() == SetPlayer(old(Tables()), m, s, p)
    {
      ghost var r := Tables();
      TablesHold();
      players[m, s] := p;
      HoldsTables(SetPlayer(r, m, s, p));
    }

    method SetFault()
      requires Dims()
      modifies this`fault
      ensures Dims() && Tables() == old(Tables()).(fault := true)
    {
      ghost var r := Tables();
      TablesHold();
      fault := true;
      HoldsTables(r.(fault := true));
    }

    // ---------- the handlers ----------

    /** The ENEMY_MSG loop of a login; bad when it runs off the list or into a missing player. */
    method SendEnemies(uid: int) returns (bad: bool)
      requires Valid() && ValidUid(lim, uid)
      modifies this`out
      ensures Dims() && Tables() == old(Tables())
      ensures out == old(out) + EnemyPackets(lim, old(Tables()), uid, 0).0
      ensures bad == EnemyPackets(lim, old(Tables()), uid, 0).1
    {
      ghost var r := Tables();
      ghost var sent := out;
      var m := ids[uid].mapid;
      var i := 0;
      while i < num[m]
        invariant 0 <= i && Valid() && Tables() == r
        invariant sent + EnemyPackets(lim, r, uid, 0).0 == out + EnemyPackets(lim, r, uid, i).0
        invariant EnemyPackets(lim, r, uid, 0).1 == EnemyPackets(lim, r, uid, i).1
      {
        if i >= lim.perMap { return true; }
        var enemy_uid := list[m, i];
        if !ids[enemy_uid].using { return true; }
        var enemy := players[ids[enemy_uid].mapid, ids[enemy_uid].slot];
        ghost var next := EnemyPackets(lim, r, uid, i + 1).0;
        var packet := Packet([uid], EnemyMsg(enemy_uid, enemy.pos));
        assert EnemyPackets(lim, r, uid, i).0 == [packet] + next;
        assert out + ([packet] + next) == out + [packet] + next;
        out := out + [packet];
        i := i + 1;
      }
      return false;
    }

    method DisposeLoginRequest(uid: int)
      requires Valid() && ValidUid(lim, uid)
      modifies this`fault, this`out, players
      ensures Dims()
      ensures var (r', sent) := DisposeLogin(lim, old(Tables()), uid); Tables() == r' && out == old(out) + sent
    {
      hide Shape, EnemyPackets, Init;
      ghost var r := Tables();
      ShapeIds(uid);
      var m, s := ids[uid].mapid, ids[uid].slot;
      SetPlayerAt(m, s, players[m, s].(uid := uid, pos := Pos(0, 0), step := START_STEP));
      ghost var r1 := Tables();
      SetPlayerShape(r, m, s, r1);
      out := out + [Packet([uid], LogRsp(uid, Pos(0, 0), num[m]))];
      var bad := SendEnemies(uid);
      if bad {
        SetFault();
      } else {
        out := out + [Packet([uid], LoginEnd)];
      }
    }

    lemma ShapeIds(uid: int)
      requires Valid() && ValidUid(lim, uid)
      ensures ids[uid].mapid < lim.maps && ids[uid].slot < lim.perMap
    {
    }

    lemma SetPlayerShape(r: Room, m: nat, s: nat, r': Room)
      requires Shape(lim, r) && m < lim.maps && s < lim.perMap && exists p :: r' == SetPlayer(r, m, s, p)
      ensures Shape(lim, r')
    {
    }

    method MapUidListAppend(mapid: nat, uid: int)
      requires Dims() && mapid < lim.maps && 1 <= num[mapid] <= lim.perMap
      modifies list
      ensures Dims()
      ensures var r := old(Tables());
              Tables() == r.(maps := r.maps[mapid := r.maps[mapid].(list := r.maps[mapid].list[num[mapid] - 1 := uid])])
    {
      ghost var r := Tables();
      TablesHold();
      var index := num[mapid] - 1;
      list[mapid, index] := uid;
      HoldsTables(r.(maps := r.maps[mapid := r.maps[mapid].(list := r.maps[mapid].list[index := uid])]));
    }

    method CountPlayer(mapid: nat)
      requires Dims() && mapid < lim.maps
      modifies num
      ensures Dims() && num[mapid] == old(num[mapid]) + 1
      ensures var r := old(Tables());
              Tables() == r.(maps := r.maps[mapid := r.maps[mapid].(num := r.maps[mapid].num + 1)])
    {
      ghost var r := Tables();
      TablesHold();
      num[mapid] := num[mapid] + 1;
      HoldsTables(r.(maps := r.maps[mapid := r.maps[mapid].(num := r.maps[mapid].num + 1)]));
    }

    method DisposeStartRequest(uid: int, go: bool)
      requires Valid() && ValidUid(lim, uid) && !fault
      modifies this`fault, this`out, list, num
      ensures Dims()
      ensures var (r', sent) := DisposeStart(lim, old(Tables()), uid, go); Tables() == r' && out == old(out) + sent
    {
      if go {
        ShapeIds(uid);
        var m := ids[uid].mapid;
        var user := players[m, ids[uid].slot];
        BroadcastPlayerMsg(m, NewEnemy(user.uid, user.pos));
        if fault { return; }
        CountPlayer(m);
        if 1 <= num[m] <= lim.perMap {
          MapUidListAppend(m, uid);
          out := out + [Packet([uid], GameStartRsp)];
        } else {
          SetFault();
        }
      }
    }

    method DisposeMoveRequest(uid: int, dir: int)
      requires Valid() && ValidUid(lim, uid)
      modifies this`fault, this`out, players
      ensures Dims()
      ensures var (r', sent) := DisposeMove(lim, old(Tables()), uid, dir); Tables() == r' && out == old(out) + sent
    {
      ShapeIds(uid);
      var m, s := ids[uid].mapid, ids[uid].slot;
      var user := players[m, s];
      var pos := user.pos;
      if dir == MOVE_LEFT {
        if user.pos.x - user.step > 0 { pos := Pos(user.pos.x - user.step, user.pos.y); }
      } else if dir == MOVE_RIGHT {
        if user.pos.x + user.step < MAX_X { pos := Pos(user.pos.x + user.step, user.pos.y); }
      } else if dir == MOVE_UP {
        if user.pos.y - user.step > 0 { pos := Pos(user.pos.x, user.pos.y - user.step); }
      } else if dir == MOVE_DOWN {
        if user.pos.y + user.step < MAX_Y { pos := Pos(user.pos.x, user.pos.y + user.step); }
      }
      SetPlayerAt(m, s, user.(pos := pos));
      BroadcastPlayerMsg(m, EnemyMsg(user.uid, pos));
    }

    method DisposeLeaveRequest(uid: int)
      requires Valid() && ValidUid(lim, uid)
      modifies this`out
      ensures Dims() && Tables() == old(Tables())
      ensures out == old(out) + [Packet([PlayerOf(Tables(), uid).uid], LeaveRsp)]
    {
      ShapeIds(uid);
      out := out + [Packet([players[ids[uid].mapid, ids[uid].slot].uid], LeaveRsp)];
    }

    method DisposeUserClose(uid: int)
      requires Valid() && ValidUid(lim, uid)
      modifies this`fault, this`out, this`playerNum, ids, players, sock, list, num
      ensures Dims()
      ensures var (r', sent) :=
                if old(ids[uid].using) then DisposeClose(lim, old(Tables()), uid) else (old(Tables()), []);
              Tables() == r' && out == old(out) + sent
    {
      if !ids[uid].using { return; }
      ShapeIds(uid);
      var m, s := ids[uid].mapid, ids[uid].slot;
      ghost var r := Tables();
      OthersLen(r.maps[m].sock, uid);
      MapUidListRebuild(uid);
      RouteDel(uid);
      BroadcastPlayerMsg(m, EnemyLeave(players[m, s].uid));
    }

    /** One queue message, as the specification says. */
    method DisposeQueueEvent(e: Event)
      requires Dims() && RouteInv(lim, Tables()) && ValidUid(lim, e.uid)
      modifies this`fault, this`out, this`playerNum, ids, players, sock, list, num
      ensures Dims() && RouteInv(lim, Tables())
      ensures var (r', sent) := Handle(lim, old(Tables()), e); Tables() == r' && out == old(out) + sent
    {
      hide Shape, DisposeLogin, DisposeStart, DisposeMove, DisposeClose, Append, Init, RouteInv;
      RouteShape(lim, Tables());
      RouteKept(lim, Tables(), e);
      if fault { return; }
      if e.Connect? {
        RouteAppend(e.uid);
      } else if e.Close? {
        DisposeUserClose(e.uid);
      } else if ids[e.uid].using {
        match e
        case Login(uid) => DisposeLoginRequest(uid);
        case Start(uid, go) => DisposeStartRequest(uid, go);
        case Move(uid, dir) => DisposeMoveRequest(uid, dir);
        case Leave(uid) => ShapeIds(uid); DisposeLeaveRequest(uid);
      }
    }

    /** game_logic_event between two sleeps: handles the queued messages until the queue is empty. */
    method DrainQueue(es: seq<Event>)
      requires Dims() && RouteInv(lim, Tables()) && ValidEvents(lim, es)
      modifies this`fault, this`out, this`playerNum, ids, players, sock, list, num
      ensures Dims() && RouteInv(lim, Tables())
      ensures var (r', sent) := HandleAll(lim, old(Tables()), es); Tables() == r' && out == old(out) + sent
    {
      hide RouteInv, Handle;
      ghost var r := Tables();
      ghost var sent := out;
      for i := 0 to |es|
        invariant Dims() && RouteInv(lim, Tables())
        invariant Tables() == HandleAll(lim, r, es[..i]).0 && out == sent + HandleAll(lim, r, es[..i]).1
      {
        assert es[..i + 1][..i] == es[..i];
        DisposeQueueEvent(es[i]);
      }
      assert es[..|es|] == es;
    }
  }
}
