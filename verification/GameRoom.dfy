/** One game service: its tables, and what every queue message does to them and sends out.
    A C access outside an array or through NULL sets `fault`, after which the service does nothing. */
module GameRoom {
  import opened Util

  const NO_UID := -1
  const START_STEP := 4
  const MAX_X := 960
  const MAX_Y := 560
  const MOVE_LEFT := 1
  const MOVE_RIGHT := 2
  const MOVE_UP := 3
  const MOVE_DOWN := 4

  datatype Limits = Limits(maps: nat, perMap: nat, uids: nat) {
    function Cap(): nat { maps * perMap }
  }

  /** The constants of the repository: 20 maps of 10 players, 32K socket ids. */
  const SERVICE := Limits(20, 10, 32 * 1024)

  datatype Pos = Pos(x: int, y: int)
  datatype PlayerId = PlayerId(using: bool, mapid: nat, slot: nat)
  datatype Player = Player(using: bool, uid: int, pos: Pos, step: int)
  datatype MapRoom = MapRoom(num: int, players: seq<Player>, sock: seq<int>, list: seq<int>)
  datatype Room = Room(ids: seq<PlayerId>, maps: seq<MapRoom>, playerNum: int, fault: bool)

  datatype Msg =
    | LogRsp(uid: int, pos: Pos, enemies: int)
    | EnemyMsg(uid: int, pos: Pos)
    | NewEnemy(uid: int, pos: Pos)
    | EnemyLeave(uid: int)
    | LoginEnd
    | GameStartRsp
    | LeaveRsp

  datatype Packet = Packet(to: seq<int>, msg: Msg)

  datatype Event =
    | Connect(uid: int)
    | Login(uid: int)
    | Start(uid: int, go: bool)
    | Move(uid: int, dir: int)
    | Leave(uid: int)
    | Close(uid: int)

  // ---------- shape of the tables ----------

  ghost predicate MapShape(lim: Limits, mr: MapRoom) {
    && |mr.players| == |mr.sock| == |mr.list| == lim.perMap
    && forall i :: 0 <= i < lim.perMap ==> 0 <= mr.list[i] < lim.uids
  }

  ghost predicate Shape(lim: Limits, r: Room) {
    && 0 < lim.maps && 0 < lim.perMap
    && |r.ids| == lim.uids && |r.maps| == lim.maps
    && (forall m :: 0 <= m < lim.maps ==> MapShape(lim, r.maps[m]))
    && (forall u :: 0 <= u < lim.uids ==> r.ids[u].mapid < lim.maps && r.ids[u].slot < lim.perMap)
  }

  ghost predicate ValidUid(lim: Limits, uid: int) { 0 <= uid < lim.uids }

  function Init(lim: Limits, garbage: seq<seq<Player>>): Room
    requires |garbage| == lim.maps
    requires forall m :: 0 <= m < lim.maps ==> |garbage[m]| == lim.perMap
  {
    Room(seq(lim.uids, _ => PlayerId(false, 0, 0)),
         seq(lim.maps, m requires 0 <= m < lim.maps =>
           MapRoom(0,
                   seq(lim.perMap, s requires 0 <= s < lim.perMap => garbage[m][s].(using := false)),
                   seq(lim.perMap, _ => NO_UID),
                   seq(lim.perMap, _ => 0))),
         0, false)
  }

  // ---------- reading and writing single entries ----------

  function PlayerOf(r: Room, uid: int): Player
    requires 0 <= uid < |r.ids| && r.ids[uid].mapid < |r.maps|
    requires r.ids[uid].slot < |r.maps[r.ids[uid].mapid].players|
  {
    r.maps[r.ids[uid].mapid].players[r.ids[uid].slot]
  }

  function SetPlayer(r: Room, m: nat, s: nat, p: Player): Room
    requires m < |r.maps| && s < |r.maps[m].players|
  {
    r.(maps := r.maps[m := r.maps[m].(players := r.maps[m].players[s := p])])
  }

  // ---------- connect: game_route_append ----------

  function LowestMap(lim: Limits, maps: seq<MapRoom>, from: nat): Option<nat>
    requires from <= |maps|
    decreases |maps| - from
  {
    if from == |maps| then None
    else if maps[from].num < lim.perMap then Some(from)
    else LowestMap(lim, maps, from + 1)
  }

  function LowestFree(players: seq<Player>, from: nat): Option<nat>
    requires from <= |players|
    decreases |players| - from
  {
    if from == |players| then None
    else if !players[from].using then Some(from)
    else LowestFree(players, from + 1)
  }

  lemma {:induction false} LowestMapIs(lim: Limits, maps: seq<MapRoom>, from: nat)
    requires from <= |maps|
    ensures match LowestMap(lim, maps, from)
            case None => forall m :: from <= m < |maps| ==> lim.perMap <= maps[m].num
            case Some(k) => from <= k < |maps| && maps[k].num < lim.perMap
                            && forall m :: from <= m < k ==> lim.perMap <= maps[m].num
    decreases |maps| - from
  {
    if from < |maps| && lim.perMap <= maps[from].num {
      LowestMapIs(lim, maps, from + 1);
    }
  }

  lemma {:induction false} LowestFreeIs(players: seq<Player>, from: nat)
    requires from <= |players|
    ensures match LowestFree(players, from)
            case None => forall s :: from <= s < |players| ==> players[s].using
            case Some(k) => from <= k < |players| && !players[k].using
                            && forall s :: from <= s < k ==> players[s].using
    decreases |players| - from
  {
    if from < |players| && players[from].using {
      LowestFreeIs(players, from + 1);
    }
  }

  function Append(lim: Limits, r: Room, uid: int): Room
    requires Shape(lim, r) && ValidUid(lim, uid)
  {
    if r.ids[uid].using || r.playerNum >= lim.Cap() then r
    else match LowestMap(lim, r.maps, 0)
      case None => r
      case Some(m) => LowestMapIs(lim, r.maps, 0); AppendToMap(lim, r, uid, m)
  }

  function AppendToMap(lim: Limits, r: Room, uid: int, m: nat): Room
    requires Shape(lim, r) && ValidUid(lim, uid) && m < lim.maps
  {
    match LowestFree(r.maps[m].players, 0)
    case None => r
    case Some(s) =>
      LowestFreeIs(r.maps[m].players, 0);
      if r.maps[m].sock[s] == NO_UID then Attach(r, uid, m, s)
      else SetPlayer(r, m, s, r.maps[m].players[s].(using := true))
  }

  function Attach(r: Room, uid: int, m: nat, s: nat): Room
    requires 0 <= uid < |r.ids| && m < |r.maps| && s < |r.maps[m].players| == |r.maps[m].sock|
  {
    var mr := r.maps[m];
    Room(r.ids[uid := PlayerId(true, m, s)],
         r.maps[m := mr.(players := mr.players[s := mr.players[s].(using := true)], sock := mr.sock[s := uid])],
         r.playerNum + 1, r.fault)
  }

  // ---------- close: map_uid_list_rebuild, game_route_del ----------

  /** The attached uids of a map in slot order, without `uid`. */
  function Others(sock: seq<int>, uid: int): seq<int> {
    if sock == [] then []
    else
      var last := sock[|sock| - 1];
      Others(sock[..|sock| - 1], uid) + if last != NO_UID && last != uid then [last] else []
  }

  lemma {:induction false} OthersLen(sock: seq<int>, uid: int)
    ensures |Others(sock, uid)| <= |sock|
  {
    if sock != [] { OthersLen(sock[..|sock| - 1], uid); }
  }

  function Overwrite(list: seq<int>, front: seq<int>): (r: seq<int>)
    requires |front| <= |list|
  {
    front + list[|front|..]
  }

  function Rebuild(lim: Limits, r: Room, uid: int): Room
    requires Shape(lim, r) && ValidUid(lim, uid)
  {
    var m := r.ids[uid].mapid;
    OthersLen(r.maps[m].sock, uid);
    r.(maps := r.maps[m := r.maps[m].(list := Overwrite(r.maps[m].list, Others(r.maps[m].sock, uid)))])
  }

  function Del(lim: Limits, r: Room, uid: int): Room
    requires |r.ids| == lim.uids && |r.maps| == lim.maps && ValidUid(lim, uid)
    requires r.ids[uid].mapid < lim.maps && r.ids[uid].slot < lim.perMap
    requires var mr := r.maps[r.ids[uid].mapid]; |mr.players| == |mr.sock| == lim.perMap
  {
    var m, s := r.ids[uid].mapid, r.ids[uid].slot;
    var mr := r.maps[m].(num := r.maps[m].num - 1);
    var r1 := r.(ids := r.ids[uid := r.ids[uid].(using := false)], playerNum := r.playerNum - 1);
    if mr.sock[s] == uid then
      r1.(maps := r.maps[m := mr.(sock := mr.sock[s := NO_UID],
                                  players := mr.players[s := mr.players[s].(using := false)])])
    else r1.(maps := r.maps[m := mr])
  }

  // ---------- sending ----------

  function Max0(n: int): nat { if n < 0 then 0 else n }

  /** broadcast_player_msg: the first `num` entries of the map's list are copied into an array of perMap entries. */
  function Broadcast(lim: Limits, r: Room, m: nat, msg: Msg): (Room, seq<Packet>)
    requires m < |r.maps| && |r.maps[m].list| == lim.perMap
  {
    if r.maps[m].num > lim.perMap then (r.(fault := true), [])
    else (r, [Packet(r.maps[m].list[..Max0(r.maps[m].num)], msg)])
  }

  /** The ENEMY_MSG loop of a login, from list entry `i` on; the flag says whether it ran off the table or into NULL. */
  function EnemyPackets(lim: Limits, r: Room, uid: int, i: nat): (seq<Packet>, bool)
    requires Shape(lim, r) && ValidUid(lim, uid)
    decreases r.maps[r.ids[uid].mapid].num - i
  {
    var mr := r.maps[r.ids[uid].mapid];
    if i >= mr.num then ([], false)
    else if i >= lim.perMap || !r.ids[mr.list[i]].using then ([], true)
    else
      var (rest, bad) := EnemyPackets(lim, r, uid, i + 1);
      ([Packet([uid], EnemyMsg(mr.list[i], PlayerOf(r, mr.list[i]).pos))] + rest, bad)
  }

  // ---------- the handlers ----------

  function DisposeLogin(lim: Limits, r: Room, uid: int): (Room, seq<Packet>)
    requires Shape(lim, r) && ValidUid(lim, uid)
  {
    var m, s := r.ids[uid].mapid, r.ids[uid].slot;
    var r1 := SetPlayer(r, m, s, r.maps[m].players[s].(uid := uid, pos := Pos(0, 0), step := START_STEP));
    var hello := [Packet([uid], LogRsp(uid, Pos(0, 0), r.maps[m].num))];
    var (enemies, bad) := EnemyPackets(lim, r1, uid, 0);
    if bad then (r1.(fault := true), hello + enemies)
    else (r1, hello + enemies + [Packet([uid], LoginEnd)])
  }

  function DisposeStart(lim: Limits, r: Room, uid: int, go: bool): (Room, seq<Packet>)
    requires Shape(lim, r) && ValidUid(lim, uid)
  {
    if !go then (r, [])
    else
      var m := r.ids[uid].mapid;
      var p := PlayerOf(r, uid);
      var (r1, sent) := Broadcast(lim, r, m, NewEnemy(p.uid, p.pos));
      var n := r.maps[m].num;
      if r1.fault then (r1, sent)
      else if !(0 <= n < lim.perMap) then
        (r1.(maps := r1.maps[m := r1.maps[m].(num := n + 1)], fault := true), sent)
      else
        (r1.(maps := r1.maps[m := r1.maps[m].(num := n + 1, list := r1.maps[m].list[n := uid])]),
         sent + [Packet([uid], GameStartRsp)])
  }

  function Stepped(p: Player, dir: int): Pos {
    if dir == MOVE_LEFT && p.pos.x - p.step > 0 then p.pos.(x := p.pos.x - p.step)
    else if dir == MOVE_RIGHT && p.pos.x + p.step < MAX_X then p.pos.(x := p.pos.x + p.step)
    else if dir == MOVE_UP && p.pos.y - p.step > 0 then p.pos.(y := p.pos.y - p.step)
    else if dir == MOVE_DOWN && p.pos.y + p.step < MAX_Y then p.pos.(y := p.pos.y + p.step)
    else p.pos
  }

  function DisposeMove(lim: Limits, r: Room, uid: int, dir: int): (Room, seq<Packet>)
    requires Shape(lim, r) && ValidUid(lim, uid)
  {
    var m, s := r.ids[uid].mapid, r.ids[uid].slot;
    var p := r.maps[m].players[s].(pos := Stepped(r.maps[m].players[s], dir));
    Broadcast(lim, SetPlayer(r, m, s, p), m, EnemyMsg(p.uid, p.pos))
  }

  function DisposeClose(lim: Limits, r: Room, uid: int): (Room, seq<Packet>)
    requires Shape(lim, r) && ValidUid(lim, uid)
  {
    OthersLen(r.maps[r.ids[uid].mapid].sock, uid);
    Broadcast(lim, Del(lim, Rebuild(lim, r, uid), uid), r.ids[uid].mapid, EnemyLeave(PlayerOf(r, uid).uid))
  }

  /** dispose_queue_event: what one queue message does. */
  function Handle(lim: Limits, r: Room, e: Event): (Room, seq<Packet>)
    requires Shape(lim, r) && ValidUid(lim, e.uid)
  {
    if r.fault then (r, [])
    else if e.Connect? then (Append(lim, r, e.uid), [])
    else if !r.ids[e.uid].using then (r, [])
    else match e
      case Login(uid) => DisposeLogin(lim, r, uid)
      case Start(uid, go) => DisposeStart(lim, r, uid, go)
      case Move(uid, dir) => DisposeMove(lim, r, uid, dir)
      case Leave(uid) => (r, [Packet([PlayerOf(r, uid).uid], LeaveRsp)])
      case Close(uid) => DisposeClose(lim, r, uid)
  }
}
