/** Every client keeps a replica of its map by folding the messages addressed to it.
    For playing clients the replica is the real room, under guards that are exact. */
module Replica {
  import opened GameRoom
  import opened RouteTable
  import opened RoomWorld
  import opened RoomLists

  // ---------- the client's fold ----------

  function Apply(v: map<int, Pos>, msg: Msg): map<int, Pos> {
    match msg
    case EnemyMsg(u, p) => v[u := p]
    case NewEnemy(u, p) => v[u := p]
    case EnemyLeave(u) => v - {u}
    case _ => v
  }

  function Fold(v: map<int, Pos>, msgs: seq<Msg>): map<int, Pos> {
    if msgs == [] then v else Apply(Fold(v, msgs[..|msgs| - 1]), msgs[|msgs| - 1])
  }

  /** What client p believes about the others: entries for its own uid are ignored. */
  function View(w: World, p: int): map<int, Pos>
    requires 0 <= p < |w.inbox|
  {
    Fold(map[], w.inbox[p]) - {p}
  }

  lemma {:induction false} FoldAppend(v: map<int, Pos>, a: seq<Msg>, b: seq<Msg>)
    ensures Fold(v, a + b) == Fold(Fold(v, a), b)
  {
    if b == [] {
      assert a + b == a;
    } else {
      FoldAppend(v, a, b[..|b| - 1]);
      assert (a + b)[..|a + b| - 1] == a + b[..|b| - 1];
    }
  }

  lemma FoldOne(v: map<int, Pos>, a: seq<Msg>, msg: Msg)
    ensures Fold(v, a + [msg]) == Apply(Fold(v, a), msg)
    ensures Fold(v, [msg]) == Apply(v, msg)
  {
    assert (a + [msg])[..|a|] == a;
  }

  /** Folding ENEMY_MSGs for distinct uids sets exactly those uids. */
  lemma {:induction false} FoldEnemies(v: map<int, Pos>, es: seq<Msg>)
    requires forall k :: 0 <= k < |es| ==> es[k].EnemyMsg?
    requires forall j, k :: 0 <= j < k < |es| ==> es[j].uid != es[k].uid
    ensures forall q :: q in Fold(v, es) <==> q in v || exists k :: 0 <= k < |es| && es[k].uid == q
    ensures forall k :: 0 <= k < |es| ==> es[k].uid in Fold(v, es) && Fold(v, es)[es[k].uid] == es[k].pos
    ensures forall q :: q in v && (forall k :: 0 <= k < |es| ==> es[k].uid != q) ==>
              q in Fold(v, es) && Fold(v, es)[q] == v[q]
  {
    if es != [] {
      FoldEnemies(v, es[..|es| - 1]);
    }
  }

  lemma AddressedOne(k: Packet, p: int)
    ensures AddressedTo([k], p) == if p in k.to then [k.msg] else []
  {
    assert AddressedTo([], p) == [];
  }

  lemma {:induction false} AddressedAll(ps: seq<Packet>, uid: int, p: int)
    requires forall k :: 0 <= k < |ps| ==> ps[k].to == [uid]
    ensures p != uid ==> AddressedTo(ps, p) == []
    ensures p == uid ==>
              |AddressedTo(ps, p)| == |ps| && forall k :: 0 <= k < |ps| ==> AddressedTo(ps, p)[k] == ps[k].msg
  {
    if ps != [] { AddressedAll(ps[..|ps| - 1], uid, p); }
  }

  // ---------- the invariant ----------

  ghost predicate IdentityOk(lim: Limits, w: World, u: int)
    requires WorldShape(lim, w) && ValidUid(lim, u)
  {
    w.phase[u] == LoggedIn || w.phase[u] == Playing ==> PlayerOf(w.room, u).uid == u
  }

  ghost predicate WaitingOk(w: World, u: int)
    requires 0 <= u < |w.phase| == |w.inbox| == |w.seen|
  {
    w.phase[u] == Attached || w.phase[u] == LoggedIn ==> View(w, u) == w.seen[u]
  }

  ghost predicate ReplicaOk(lim: Limits, w: World, p: int)
    requires WorldShape(lim, w) && ValidUid(lim, p)
  {
    w.phase[p] == Playing ==> View(w, p) == Truth(lim, w, p)
  }

  /** The lists are exact, logged-in slots carry their uid, and clients that have not started have seen their
      login's room. */
  ghost predicate Orderly(lim: Limits, w: World) {
    && WorldInv(lim, w) && ListsOk(lim, w)
    && forall u :: 0 <= u < lim.uids ==> IdentityOk(lim, w, u) && WaitingOk(w, u)
  }

  ghost predicate Converged(lim: Limits, w: World)
    requires WorldShape(lim, w)
  {
    forall p :: 0 <= p < lim.uids ==> ReplicaOk(lim, w, p)
  }

  ghost predicate AllConverged(lim: Limits, w: World) {
    Orderly(lim, w) && Converged(lim, w)
  }

  /** What a move of u would tell client p of its map is true: it is about p itself, whose own entry does not count,
      or about a player of the map who stands there. */
  ghost predicate TellsTruth(lim: Limits, w: World, u: int, dir: int, p: int)
    requires WorldShape(lim, w) && ValidUid(lim, u)
  {
    var player := PlayerOf(w.room, u);
    || player.uid == p
    || (PlayingOn(w, player.uid, w.room.ids[u].mapid) && PlayerOf(w.room, player.uid).pos == Stepped(player, dir))
  }

  /** Nobody listens, or the call does not change behind the others' backs what they have been told. */
  ghost predicate ReplicaGuard(lim: Limits, w: World, e: Event)
    requires WorldShape(lim, w) && ValidUid(lim, e.uid)
  {
    w.room.ids[e.uid].using ==>
      match e
      case Login(u) => w.phase[u] == Playing ==> PlayerOf(w.room, u).pos == Pos(0, 0) || Truth(lim, w, u) == map[]
      case Start(u, go) => go ==> PlayerOf(w.room, u).uid == u && w.seen[u] == Truth(lim, w, u)
      case Move(u, dir) =>
        w.phase[u] == Playing
        || forall p :: 0 <= p < lim.uids && PlayingOn(w, p, w.room.ids[u].mapid) ==> TellsTruth(lim, w, u, dir, p)
      case _ => true
  }

  // ---------- reading the truth after a change ----------

  lemma TruthSame(lim: Limits, w: World, w': World, p: int)
    requires WorldShape(lim, w) && WorldShape(lim, w') && ValidUid(lim, p)
    requires w'.room.ids[p].mapid == w.room.ids[p].mapid
    requires forall q :: 0 <= q < lim.uids && q != p ==>
               (PlayingOn(w', q, w.room.ids[p].mapid) <==> PlayingOn(w, q, w.room.ids[p].mapid))
    requires forall q :: 0 <= q < lim.uids && q != p && PlayingOn(w, q, w.room.ids[p].mapid) ==>
               PlayerOf(w'.room, q).pos == PlayerOf(w.room, q).pos
    ensures Truth(lim, w', p) == Truth(lim, w, p)
  {
    assert forall q :: q in Truth(lim, w', p) <==> q in Truth(lim, w, p);
  }

  /** Rewriting the slot of an attached uid changes nobody else's player. */
  lemma SetPlayerOnly(lim: Limits, r: Room, u: int, x: Player)
    requires RouteInv(lim, r) && ValidUid(lim, u) && r.ids[u].using
    ensures var r' := SetPlayer(r, r.ids[u].mapid, r.ids[u].slot, x);
            && PlayerOf(r', u) == x
            && forall q :: 0 <= q < lim.uids && r.ids[q].using && q != u ==> PlayerOf(r', q) == PlayerOf(r, q)
  {
    forall q | 0 <= q < lim.uids && r.ids[q].using && q != u
      ensures r.ids[q].mapid != r.ids[u].mapid || r.ids[q].slot != r.ids[u].slot
    {
      assert UidOk(r, q) && UidOk(r, u);
    }
  }

  // ---------- who hears what ----------

  function Heard(w: World, p: int): map<int, Pos>
    requires 0 <= p < |w.inbox|
  {
    Fold(map[], w.inbox[p])
  }

  /** Exactly the uids playing on m in `who` have heard msg, and nothing else was heard. */
  ghost predicate Told(lim: Limits, w: World, w': World, who: World, m: int, msg: Msg)
    requires WorldShape(lim, w) && WorldShape(lim, w')
  {
    forall p :: 0 <= p < lim.uids ==>
      Heard(w', p) == if PlayingOn(who, p, m) then Apply(Heard(w, p), msg) else Heard(w, p)
  }

  lemma HeardOne(before: seq<Msg>, k: Packet, rest: seq<Packet>, p: int)
    requires |rest| <= 1 && forall j :: 0 <= j < |rest| ==> rest[j].msg == GameStartRsp
    ensures Fold(map[], before + AddressedTo([k] + rest, p)) ==
            if p in k.to then Apply(Fold(map[], before), k.msg) else Fold(map[], before)
  {
    AddressedAppend([k], rest, p);
    AddressedOne(k, p);
    FoldAppend(map[], before, AddressedTo([k] + rest, p));
    FoldAppend(Fold(map[], before), AddressedTo([k], p), AddressedTo(rest, p));
    FoldOne(Fold(map[], before), [], k.msg);
    assert [] + [k.msg] == [k.msg];
    if rest != [] {
      assert rest == [rest[0]];
      AddressedOne(rest[0], p);
    }
  }

  /** Delivering one broadcast, and after it possibly a message that no replica reacts to. */
  lemma BroadcastHeard(lim: Limits, w: World, w': World, who: World, m: int, k: Packet, rest: seq<Packet>)
    requires WorldShape(lim, w) && WorldShape(lim, w')
    requires forall p :: 0 <= p < lim.uids ==> w'.inbox[p] == w.inbox[p] + AddressedTo([k] + rest, p)
    requires |rest| <= 1 && forall j :: 0 <= j < |rest| ==> rest[j].msg == GameStartRsp
    requires forall p :: p in k.to <==> PlayingOn(who, p, m)
    ensures Told(lim, w, w', who, m, k.msg)
  {
    hide Shape, PlayingOn, Fold, AddressedTo, Apply;
    forall p | 0 <= p < lim.uids
      ensures Heard(w', p) == if PlayingOn(who, p, m) then Apply(Heard(w, p), k.msg) else Heard(w, p)
    {
      HeardOne(w.inbox[p], k, rest, p);
    }
  }

  // ---------- start ----------

  /** The new player u at pos enters the truth of every other player on its map. */
  lemma TruthGains(lim: Limits, w: World, w': World, u: int, p: int)
    requires WorldShape(lim, w) && WorldShape(lim, w') && ValidUid(lim, u) && ValidUid(lim, p) && u != p
    requires w'.room.ids[p].mapid == w.room.ids[p].mapid
    requires PlayingOn(w', u, w.room.ids[p].mapid)
    requires forall q :: 0 <= q < lim.uids && q != u ==>
               (PlayingOn(w', q, w.room.ids[p].mapid) <==> PlayingOn(w, q, w.room.ids[p].mapid))
    requires forall q :: 0 <= q < lim.uids && q != u && PlayingOn(w, q, w.room.ids[p].mapid) ==>
               PlayerOf(w'.room, q).pos == PlayerOf(w.room, q).pos
    ensures Truth(lim, w', p) == Truth(lim, w, p)[u := PlayerOf(w'.room, u).pos]
  {
    assert forall q :: q in Truth(lim, w', p) <==> q == u || q in Truth(lim, w, p);
  }

  ghost predicate Started(lim: Limits, w: World, w': World, u: int)
    requires WorldShape(lim, w) && WorldShape(lim, w') && ValidUid(lim, u)
  {
    && Told(lim, w, w', w, w.room.ids[u].mapid, NewEnemy(u, PlayerOf(w.room, u).pos))
    && w'.phase == w.phase[u := Playing] && w'.seen == w.seen && w'.room.ids == w.room.ids
    && forall q :: 0 <= q < lim.uids ==> PlayerOf(w'.room, q) == PlayerOf(w.room, q)
  }

  lemma StartTold(lim: Limits, w: World, u: int)
    requires Orderly(lim, w) && ValidUid(lim, u) && w.phase[u] != Absent && w.phase[u] != Playing
    requires PlayerOf(w.room, u).uid == u
    ensures var w' := Step(lim, w, Start(u, true));
            && WorldShape(lim, w') && Started(lim, w, w', u)
  {
    hide Handle, RouteInv;
    RouteShape(lim, w.room);
    assert PhaseOk(w, u) && IdentityOk(lim, w, u) && ListOk(lim, w, w.room.ids[u].mapid);
    StartTables(lim, w.room, u);
    RoomToStart(lim, w, u);
    var w' := Step(lim, w, Start(u, true));
    var m := w.room.ids[u].mapid;
    var mr := w.room.maps[m];
    var hello, done := Packet(mr.list[..mr.num], NewEnemy(u, PlayerOf(w.room, u).pos)), Packet([u], GameStartRsp);
    assert [hello, done] == [hello] + [done];
    BroadcastHeard(lim, w, w', w, m, hello, [done]);
  }

  lemma StartReplicaAt(lim: Limits, w: World, w': World, u: int, p: int)
    requires WorldShape(lim, w) && WorldShape(lim, w') && ValidUid(lim, u) && ValidUid(lim, p)
    requires Started(lim, w, w', u)
    requires w.phase[u] != Absent && w.phase[u] != Playing && WaitingOk(w, p) && ReplicaOk(lim, w, p)
    ensures WaitingOk(w', p)
    ensures p != u ==> ReplicaOk(lim, w', p)
    ensures p == u ==> (ReplicaOk(lim, w', u) <==> w.seen[u] == Truth(lim, w, u))
  {
    hide Fold, Truth;
    var m := w.room.ids[u].mapid;
    if p == u {
      TruthSame(lim, w, w', u);
      assert Heard(w', u) == Heard(w, u);
    } else if PlayingOn(w, p, m) {
      var pos := PlayerOf(w.room, u).pos;
      assert Heard(w', p) == Heard(w, p)[u := pos];
      assert View(w', p) == View(w, p)[u := pos];
      TruthGains(lim, w, w', u, p);
    } else {
      assert Heard(w', p) == Heard(w, p);
      if w.phase[p] == Playing { TruthSame(lim, w, w', p); }
    }
  }

  lemma FreshStart(lim: Limits, w: World, u: int)
    requires AllConverged(lim, w) && ValidUid(lim, u) && w.phase[u] != Absent && w.phase[u] != Playing
    requires PlayerOf(w.room, u).uid == u
    ensures AllConverged(lim, Step(lim, w, Start(u, true))) <==> w.seen[u] == Truth(lim, w, u)
  {
    hide Handle, RouteInv, Told, WaitingOk, ReplicaOk, Truth, ListsOk, ListGuard, MapShape;
    var e := Start(u, true);
    var w' := Step(lim, w, e);
    assert PhaseOk(w, u);
    StartTold(lim, w, u);
    WorldKept(lim, w, e);
    StartList(lim, w, u);
    forall p | 0 <= p < lim.uids
      ensures IdentityOk(lim, w', p) && WaitingOk(w', p)
      ensures p != u ==> ReplicaOk(lim, w', p)
      ensures p == u ==> (ReplicaOk(lim, w', u) <==> w.seen[u] == Truth(lim, w, u))
    {
      assert IdentityOk(lim, w, p) && WaitingOk(w, p) && ReplicaOk(lim, w, p) && IdentityOk(lim, w, u);
      StartReplicaAt(lim, w, w', u, p);
    }
    assert Orderly(lim, w');
    assert Converged(lim, w') ==> ReplicaOk(lim, w', u);
  }

  /** A start that takes over a slot still carrying another uid leaves a player whose messages name that other uid. */
  lemma NamelessStart(lim: Limits, w: World, u: int)
    requires AllConverged(lim, w) && ValidUid(lim, u) && w.phase[u] != Absent && w.phase[u] != Playing
    requires PlayerOf(w.room, u).uid != u
    ensures !AllConverged(lim, Step(lim, w, Start(u, true)))
  {
    hide Handle, RouteInv, WaitingOk, ReplicaOk, ListOk, MapShape, ListGuard;
    RouteShape(lim, w.room);
    assert PhaseOk(w, u) && IdentityOk(lim, w, u);
    SameUid(lim, w, u);
    var w' := Step(lim, w, Start(u, true));
    assert !IdentityOk(lim, w', u);
  }

  lemma SameUid(lim: Limits, w: World, u: int)
    requires WorldInv(lim, w) && ListsOk(lim, w) && ValidUid(lim, u) && w.room.ids[u].using
    ensures var r' := Handle(lim, w.room, Start(u, true)).0;
            && Shape(lim, r') && r'.ids == w.room.ids && PlayerOf(r', u) == PlayerOf(w.room, u)
  {
    hide RouteInv;
    RouteShape(lim, w.room);
    assert ListOk(lim, w, w.room.ids[u].mapid);
    StartSame(lim, w.room, u, true);
  }

  /** After the start of an attached uid all is in order iff it was not playing, its slot carries its own uid, and
      what it was told at its login is still the truth. */
  lemma StartReplica(lim: Limits, w: World, u: int)
    requires AllConverged(lim, w) && ValidUid(lim, u) && w.room.ids[u].using
    ensures AllConverged(lim, Step(lim, w, Start(u, true)))
            <==> w.phase[u] != Playing && PlayerOf(w.room, u).uid == u && w.seen[u] == Truth(lim, w, u)
  {
    hide Step, RouteInv, ListsOk, Converged, Truth;
    assert PhaseOk(w, u);
    if w.phase[u] == Playing {
      StartList(lim, w, u);
    } else if PlayerOf(w.room, u).uid == u {
      FreshStart(lim, w, u);
    } else {
      NamelessStart(lim, w, u);
    }
  }

  // ---------- move ----------

  ghost predicate Moved(lim: Limits, w: World, w': World, u: int)
    requires WorldShape(lim, w) && WorldShape(lim, w') && ValidUid(lim, u)
  {
    && Told(lim, w, w', w, w.room.ids[u].mapid, EnemyMsg(PlayerOf(w.room, u).uid, PlayerOf(w'.room, u).pos))
    && w'.phase == w.phase && w'.seen == w.seen && w'.room.ids == w.room.ids
    && PlayerOf(w'.room, u).uid == PlayerOf(w.room, u).uid
    && forall q :: 0 <= q < lim.uids && w.phase[q] != Absent && q != u ==> PlayerOf(w'.room, q) == PlayerOf(w.room, q)
  }

  lemma MoveTold(lim: Limits, w: World, u: int, dir: int)
    requires Orderly(lim, w) && ValidUid(lim, u) && w.phase[u] != Absent
    ensures var w' := Step(lim, w, Move(u, dir));
            && WorldShape(lim, w') && Moved(lim, w, w', u)
            && ListsOk(lim, w')
            && PlayerOf(w'.room, u).pos == Stepped(PlayerOf(w.room, u), dir)
  {
    hide RouteInv, AddressedTo, ListGuard, Stepped;
    RouteShape(lim, w.room);
    assert PhaseOk(w, u) && ListOk(lim, w, w.room.ids[u].mapid);
    QuietList(lim, w, Move(u, dir));
    var m := w.room.ids[u].mapid;
    var w' := Step(lim, w, Move(u, dir));
    var p := PlayerOf(w.room, u).(pos := Stepped(PlayerOf(w.room, u), dir));
    SetPlayerOnly(lim, w.room, u, p);
    var k := Packet(w.room.maps[m].list[..w.room.maps[m].num], EnemyMsg(p.uid, p.pos));
    assert Handle(lim, w.room, Move(u, dir)) == (SetPlayer(w.room, m, w.room.ids[u].slot, p), [k]);
    assert [k] + [] == [k];
    BroadcastHeard(lim, w, w', w, m, k, []);
    forall q | 0 <= q < lim.uids && w.phase[q] != Absent && q != u
      ensures PlayerOf(w'.room, q) == PlayerOf(w.room, q)
    {
      assert PhaseOk(w, q);
    }
  }

  lemma MoveReplicaAt(lim: Limits, w: World, w': World, u: int, dir: int, p: int)
    requires WorldShape(lim, w) && WorldShape(lim, w') && ValidUid(lim, u) && ValidUid(lim, p) && Moved(lim, w, w', u)
    requires w.phase[u] != Absent && IdentityOk(lim, w, u) && WaitingOk(w, p) && ReplicaOk(lim, w, p)
    requires PlayerOf(w'.room, u).pos == Stepped(PlayerOf(w.room, u), dir)
    ensures WaitingOk(w', p)
    ensures ReplicaOk(lim, w', p) <==>
            w.phase[u] == Playing || !PlayingOn(w, p, w.room.ids[u].mapid) || TellsTruth(lim, w, u, dir, p)
  {
    hide Fold, Truth, TellsTruth, Stepped;
    if PlayingOn(w, p, w.room.ids[u].mapid) {
      if p == u {
        assert View(w', u) == View(w, u);
        TruthSame(lim, w, w', u);
      } else if w.phase[u] == Playing {
        PlayerSeenBy(lim, w, w', u, p);
      } else {
        OutsiderSeenBy(lim, w, w', u, dir, p);
      }
    } else {
      assert Heard(w', p) == Heard(w, p);
      if w.phase[p] == Playing { TruthSame(lim, w, w', p); }
    }
  }

  lemma PlayerSeenBy(lim: Limits, w: World, w': World, u: int, p: int)
    requires WorldShape(lim, w) && WorldShape(lim, w') && ValidUid(lim, u) && ValidUid(lim, p) && Moved(lim, w, w', u)
    requires w.phase[u] == Playing && IdentityOk(lim, w, u)
    requires p != u && PlayingOn(w, p, w.room.ids[u].mapid) && ReplicaOk(lim, w, p)
    ensures ReplicaOk(lim, w', p)
  {
    hide Fold;
    var pos := PlayerOf(w'.room, u).pos;
    assert Heard(w', p) == Heard(w, p)[u := pos];
    assert View(w', p) == View(w, p)[u := pos];
    TruthGains(lim, w, w', u, p);
  }

  /** A move of an attached uid that does not play. */
  lemma OutsiderSeenBy(lim: Limits, w: World, w': World, u: int, dir: int, p: int)
    requires WorldShape(lim, w) && WorldShape(lim, w') && ValidUid(lim, u) && ValidUid(lim, p) && Moved(lim, w, w', u)
    requires w.phase[u] != Playing && PlayerOf(w'.room, u).pos == Stepped(PlayerOf(w.room, u), dir)
    requires p != u && PlayingOn(w, p, w.room.ids[u].mapid) && ReplicaOk(lim, w, p)
    ensures ReplicaOk(lim, w', p) <==> TellsTruth(lim, w, u, dir, p)
  {
    hide Fold, Stepped, Truth;
    var x, pos := PlayerOf(w.room, u).uid, PlayerOf(w'.room, u).pos;
    TruthSame(lim, w, w', p);
    assert Heard(w', p) == Heard(w, p)[x := pos];
    SetSame(Heard(w, p), x, pos, p);
    TruthAt(lim, w, p, x);
  }

  lemma SetSame(v: map<int, Pos>, x: int, pos: Pos, p: int)
    ensures v[x := pos] - {p} == v - {p} <==> x == p || (x in v - {p} && (v - {p})[x] == pos)
  {
    if x != p {
      assert x in v[x := pos] - {p} && (v[x := pos] - {p})[x] == pos;
    }
  }

  lemma TruthAt(lim: Limits, w: World, p: int, x: int)
    requires WorldShape(lim, w) && ValidUid(lim, p)
    ensures x in Truth(lim, w, p) <==> x != p && PlayingOn(w, x, w.room.ids[p].mapid)
    ensures x in Truth(lim, w, p) ==> Truth(lim, w, p)[x] == PlayerOf(w.room, x).pos
  {
  }

  lemma NobodyElse(lim: Limits, w: World, w': World, u: int)
    requires WorldShape(lim, w) && WorldShape(lim, w') && ValidUid(lim, u) && Converged(lim, w')
    requires forall q :: 0 <= q < lim.uids ==>
               (ReplicaOk(lim, w', q) ==> q == u || !PlayingOn(w, q, w.room.ids[u].mapid))
    ensures Truth(lim, w, u) == map[]
  {
    hide ReplicaOk;
    assert forall q :: q !in Truth(lim, w, u);
  }

  /** After the move of an attached uid all is in order iff it plays, or what its broadcast says is true to every
      playing client of the map. */
  lemma MoveReplica(lim: Limits, w: World, u: int, dir: int)
    requires AllConverged(lim, w) && ValidUid(lim, u) && w.room.ids[u].using
    ensures AllConverged(lim, Step(lim, w, Move(u, dir))) <==> ReplicaGuard(lim, w, Move(u, dir))
  {
    hide Handle, RouteInv, Told, WaitingOk, ReplicaOk, ListsOk, ListGuard, MapShape, TellsTruth, Stepped;
    var w' := Step(lim, w, Move(u, dir));
    assert PhaseOk(w, u);
    MoveTold(lim, w, u, dir);
    WorldKept(lim, w, Move(u, dir));
    forall p | 0 <= p < lim.uids
      ensures IdentityOk(lim, w', p) && WaitingOk(w', p)
      ensures ReplicaOk(lim, w', p) <==>
              w.phase[u] == Playing || !PlayingOn(w, p, w.room.ids[u].mapid) || TellsTruth(lim, w, u, dir, p)
    {
      assert IdentityOk(lim, w, p) && IdentityOk(lim, w, u) && WaitingOk(w, p) && ReplicaOk(lim, w, p);
      MoveReplicaAt(lim, w, w', u, dir, p);
    }
    assert Orderly(lim, w');
  }

  // ---------- close ----------

  ghost predicate Closed(lim: Limits, w: World, w': World, u: int)
    requires WorldShape(lim, w) && WorldShape(lim, w') && ValidUid(lim, u)
  {
    && Told(lim, w, w', w', w.room.ids[u].mapid, EnemyLeave(u))
    && w'.phase == w.phase[u := Absent] && w'.seen == w.seen
    && forall q :: 0 <= q < lim.uids ==>
         && w'.room.ids[q].mapid == w.room.ids[q].mapid
         && PlayerOf(w'.room, q).pos == PlayerOf(w.room, q).pos && PlayerOf(w'.room, q).uid == PlayerOf(w.room, q).uid
  }

  lemma CloseTold(lim: Limits, w: World, u: int)
    requires Orderly(lim, w) && ValidUid(lim, u) && w.phase[u] == Playing
    requires PlayersFirst(lim, w, u, w.room.ids[u].mapid)
    ensures var w' := Step(lim, w, Close(u));
            WorldShape(lim, w') && Closed(lim, w, w', u) && ListsOk(lim, w')
  {
    hide RouteInv, AddressedTo, ListGuard, PlayersFirst, Handle;
    RouteShape(lim, w.room);
    assert PhaseOk(w, u) && IdentityOk(lim, w, u) && ListOk(lim, w, w.room.ids[u].mapid);
    CloseTables(lim, w, u);
    CloseList(lim, w, u);
    ClosePlayers(lim, w.room, u);
    var m := w.room.ids[u].mapid;
    var w' := Step(lim, w, Close(u));
    assert ListOk(lim, w', m);
    var k := Packet(w'.room.maps[m].list[..w'.room.maps[m].num], EnemyLeave(u));
    assert [k] + [] == [k];
    BroadcastHeard(lim, w, w', w', m, k, []);
  }

  lemma ClosePlayers(lim: Limits, r: Room, u: int)
    requires RouteInv(lim, r) && ValidUid(lim, u) && r.ids[u].using && !r.fault
    ensures var r' := Handle(lim, r, Close(u)).0;
            && Shape(lim, r')
            && forall q :: 0 <= q < lim.uids ==>
                 && r'.ids[q].mapid == r.ids[q].mapid
                 && PlayerOf(r', q).pos == PlayerOf(r, q).pos && PlayerOf(r', q).uid == PlayerOf(r, q).uid
  {
    hide RouteInv;
    RouteShape(lim, r);
    CloseKept(lim, r, u);
    RouteShape(lim, Handle(lim, r, Close(u)).0);
  }

  lemma TruthLoses(lim: Limits, w: World, w': World, u: int, p: int)
    requires WorldShape(lim, w) && WorldShape(lim, w') && ValidUid(lim, u) && ValidUid(lim, p)
    requires w'.phase == w.phase[u := Absent]
    requires forall q :: 0 <= q < lim.uids ==> w'.room.ids[q].mapid == w.room.ids[q].mapid
    requires forall q :: 0 <= q < lim.uids ==> PlayerOf(w'.room, q).pos == PlayerOf(w.room, q).pos
    ensures Truth(lim, w', p) == Truth(lim, w, p) - {u}
  {
    hide Truth;
    var a, b := Truth(lim, w', p), Truth(lim, w, p) - {u};
    forall x ensures x in a <==> x in b
      ensures x in a ==> a[x] == b[x]
    {
      TruthAt(lim, w, p, x);
      TruthAt(lim, w', p, x);
    }
    assert a == b;
  }

  lemma CloseReplicaAt(lim: Limits, w: World, w': World, u: int, p: int)
    requires WorldShape(lim, w) && WorldShape(lim, w') && ValidUid(lim, u) && ValidUid(lim, p) && Closed(lim, w, w', u)
    requires w.phase[u] == Playing && WaitingOk(w, p) && ReplicaOk(lim, w, p)
    ensures WaitingOk(w', p) && ReplicaOk(lim, w', p)
  {
    hide Fold, Truth;
    if p != u {
      if PlayingOn(w', p, w.room.ids[u].mapid) {
        assert Heard(w', p) == Heard(w, p) - {u};
        assert View(w', p) == View(w, p) - {u};
        TruthLoses(lim, w, w', u, p);
      } else {
        assert Heard(w', p) == Heard(w, p);
        if w.phase[p] == Playing { TruthSame(lim, w, w', p); }
      }
    }
  }

  lemma PlayerCloses(lim: Limits, w: World, u: int)
    requires AllConverged(lim, w) && ValidUid(lim, u) && w.phase[u] == Playing
    requires PlayersFirst(lim, w, u, w.room.ids[u].mapid)
    ensures AllConverged(lim, Step(lim, w, Close(u)))
  {
    hide Handle, RouteInv, Told, WaitingOk, ReplicaOk, Truth, ListsOk, PlayersFirst, MapShape;
    var w' := Step(lim, w, Close(u));
    CloseTold(lim, w, u);
    WorldKept(lim, w, Close(u));
    forall p | 0 <= p < lim.uids
      ensures IdentityOk(lim, w', p) && WaitingOk(w', p) && ReplicaOk(lim, w', p)
    {
      assert IdentityOk(lim, w, p) && WaitingOk(w, p) && ReplicaOk(lim, w, p);
      CloseReplicaAt(lim, w, w', u, p);
    }
  }

  /** After the close of an attached uid all is in order iff it was playing and the players come first on its map. */
  lemma CloseReplica(lim: Limits, w: World, u: int)
    requires AllConverged(lim, w) && ValidUid(lim, u) && w.room.ids[u].using
    ensures AllConverged(lim, Step(lim, w, Close(u)))
            <==> w.phase[u] == Playing && PlayersFirst(lim, w, u, w.room.ids[u].mapid)
  {
    hide Step, RouteInv, ListsOk, Converged, PlayersFirst;
    CloseList(lim, w, u);
    if w.phase[u] == Playing && PlayersFirst(lim, w, u, w.room.ids[u].mapid) { PlayerCloses(lim, w, u); }
  }

  // ---------- login ----------

  /** LOG_RSP announcing k players, one ENEMY_MSG for each of the k playing uids of the map, with its
      true position, and LOGIN_END, all to u alone; only u's own slot changes. */
  ghost predicate Transcript(lim: Limits, w: World, u: int, r': Room, ps: seq<Packet>)
    requires WorldShape(lim, w) && ValidUid(lim, u)
  {
    var m := w.room.ids[u].mapid;
    && Greeting(u, w.room.maps[m].num, ps)
    && OnlyLoggedIn(lim, w, u, r')
    && (forall i :: 1 <= i < |ps| - 1 ==> Introduces(lim, w, m, r', ps[i].msg))
    && (forall q :: PlayingOn(w, q, m) ==> exists i :: 1 <= i < |ps| - 1 && ps[i].msg.EnemyMsg? && ps[i].msg.uid == q)
  }

  ghost predicate Greeting(u: int, k: int, ps: seq<Packet>) {
    && 0 <= k && |ps| == k + 2 && (forall i :: 0 <= i < |ps| ==> ps[i].to == [u])
    && ps[0].msg == LogRsp(u, Pos(0, 0), k) && ps[k + 1].msg == LoginEnd
    && (forall i :: 1 <= i <= k ==> ps[i].msg.EnemyMsg?)
    && (forall i, j :: 1 <= i < j <= k ==> ps[i].msg.uid != ps[j].msg.uid)
  }

  ghost predicate OnlyLoggedIn(lim: Limits, w: World, u: int, r': Room)
    requires WorldShape(lim, w) && ValidUid(lim, u)
  {
    && Shape(lim, r') && r'.ids == w.room.ids && !r'.fault
    && PlayerOf(r', u) == PlayerOf(w.room, u).(uid := u, pos := Pos(0, 0), step := START_STEP)
    && forall q :: 0 <= q < lim.uids && w.room.ids[q].using && q != u ==> PlayerOf(r', q) == PlayerOf(w.room, q)
  }

  ghost predicate Introduces(lim: Limits, w: World, m: int, r': Room, msg: Msg)
    requires WorldShape(lim, w) && Shape(lim, r')
  {
    && msg.EnemyMsg? && PlayingOn(w, msg.uid, m) && r'.ids[msg.uid].using
    && msg.pos == PlayerOf(r', msg.uid).pos
  }

  lemma LoginPackets(lim: Limits, w: World, u: int, r1: Room, enemies: seq<Packet>)
    requires WorldInv(lim, w) && ListsOk(lim, w) && ValidUid(lim, u) && w.room.ids[u].using
    requires r1 == SetPlayer(w.room, w.room.ids[u].mapid, w.room.ids[u].slot,
                             PlayerOf(w.room, u).(uid := u, pos := Pos(0, 0), step := START_STEP))
    requires Shape(lim, r1) && enemies == EnemyPackets(lim, r1, u, 0).0
    ensures var num := w.room.maps[w.room.ids[u].mapid].num;
            Handle(lim, w.room, Login(u)) ==
              (r1, [Packet([u], LogRsp(u, Pos(0, 0), num))] + enemies + [Packet([u], LoginEnd)])
    ensures var mr := w.room.maps[w.room.ids[u].mapid];
            && |enemies| == mr.num <= |mr.list|
            && forall i :: 0 <= i < mr.num ==>
                 && 0 <= mr.list[i] < |r1.ids|
                 && enemies[i] == Packet([u], EnemyMsg(mr.list[i], PlayerOf(r1, mr.list[i]).pos))
  {
    hide RouteInv, EnemyPackets;
    RouteShape(lim, w.room);
    assert ListOk(lim, w, w.room.ids[u].mapid);
    EnemiesFound(lim, w, r1, u, 0);
  }

  lemma LoginTranscript(lim: Limits, w: World, u: int)
    requires WorldInv(lim, w) && ListsOk(lim, w) && ValidUid(lim, u) && w.room.ids[u].using
    ensures Transcript(lim, w, u, Handle(lim, w.room, Login(u)).0, Handle(lim, w.room, Login(u)).1)
  {
    hide RouteInv, EnemyPackets, Handle;
    RouteShape(lim, w.room);
    var m := w.room.ids[u].mapid;
    var mr := w.room.maps[m];
    assert ListOk(lim, w, m);
    var x := PlayerOf(w.room, u).(uid := u, pos := Pos(0, 0), step := START_STEP);
    SetPlayerOnly(lim, w.room, u, x);
    var r1 := SetPlayer(w.room, m, w.room.ids[u].slot, x);
    var enemies := EnemyPackets(lim, r1, u, 0).0;
    LoginPackets(lim, w, u, r1, enemies);
    var ps := [Packet([u], LogRsp(u, Pos(0, 0), mr.num))] + enemies + [Packet([u], LoginEnd)];
    forall i | 1 <= i <= mr.num ensures ps[i].to == [u] && ps[i].msg.EnemyMsg? && ps[i].msg.uid == mr.list[i - 1]
      ensures Introduces(lim, w, m, r1, ps[i].msg)
    {
      assert ps[i] == enemies[i - 1];
      assert mr.list[i - 1] in mr.list[..mr.num];
      assert PhaseOk(w, mr.list[i - 1]);
    }
    forall q | PlayingOn(w, q, m) ensures exists i :: 1 <= i < |ps| - 1 && ps[i].msg.EnemyMsg? && ps[i].msg.uid == q {
      assert q in mr.list[..mr.num];
      var j :| 0 <= j < mr.num && mr.list[j] == q;
      assert ps[j + 1].msg.uid == q;
    }
  }

  /** What the transcript makes of the client's fold. */
  lemma TranscriptHeard(lim: Limits, w: World, u: int, r': Room, ps: seq<Packet>, v: map<int, Pos>)
    requires WorldShape(lim, w) && ValidUid(lim, u) && Transcript(lim, w, u, r', ps)
    requires forall q :: PlayingOn(w, q, w.room.ids[u].mapid) ==> w.room.ids[q].using
    ensures Fold(v, AddressedTo(ps, u)) - {u} == (v - {u}) + Truth(lim, w, u)
    ensures forall p :: p != u ==> AddressedTo(ps, p) == []
  {
    hide Shape, PlayingOn, Introduces;
    var k := |ps| - 2;
    var msgs := AddressedTo(ps, u);
    AddressedAll(ps, u, u);
    forall p | p != u ensures AddressedTo(ps, p) == [] { AddressedAll(ps, u, p); }
    var es := msgs[1..k + 1];
    assert msgs == [msgs[0]] + es + [LoginEnd];
    FoldOne(v, [], msgs[0]);
    FoldAppend(v, [msgs[0]], es);
    FoldOne(v, [msgs[0]] + es, LoginEnd);
    assert Fold(v, msgs) == Fold(v, es);
    IntroducedTruth(lim, w, u, r', ps, v, es);
  }

  lemma IntroducedTruth(lim: Limits, w: World, u: int, r': Room, ps: seq<Packet>, v: map<int, Pos>, es: seq<Msg>)
    requires WorldShape(lim, w) && ValidUid(lim, u) && Transcript(lim, w, u, r', ps)
    requires forall q :: PlayingOn(w, q, w.room.ids[u].mapid) ==> w.room.ids[q].using
    requires |es| == |ps| - 2 && forall k :: 0 <= k < |es| ==> es[k] == ps[k + 1].msg
    ensures Fold(v, es) - {u} == (v - {u}) + Truth(lim, w, u)
  {
    hide Fold;
    var m := w.room.ids[u].mapid;
    var told := Truth(lim, w, u);
    forall k | 0 <= k < |es| ensures es[k].EnemyMsg?
      ensures es[k].uid != u ==> es[k].uid in told && told[es[k].uid] == es[k].pos
    {
      assert Introduces(lim, w, m, r', ps[k + 1].msg);
    }
    forall q | q in told ensures exists k :: 0 <= k < |es| && es[k].uid == q {
      assert PlayingOn(w, q, m);
      var i :| 1 <= i < |ps| - 1 && ps[i].msg.EnemyMsg? && ps[i].msg.uid == q;
      assert es[i - 1].uid == q;
    }
    FoldMerges(v, es, told, u);
  }

  lemma FoldMerges(v: map<int, Pos>, es: seq<Msg>, told: map<int, Pos>, u: int)
    requires forall k :: 0 <= k < |es| ==> es[k].EnemyMsg?
    requires forall j, k :: 0 <= j < k < |es| ==> es[j].uid != es[k].uid
    requires forall k :: 0 <= k < |es| && es[k].uid != u ==> es[k].uid in told && told[es[k].uid] == es[k].pos
    requires u !in told && forall q :: q in told ==> exists k :: 0 <= k < |es| && es[k].uid == q
    ensures Fold(v, es) - {u} == (v - {u}) + told
  {
    hide Fold;
    FoldEnemies(v, es);
    var f, g := Fold(v, es) - {u}, (v - {u}) + told;
    forall q | q != u ensures q in f <==> q in g
      ensures q in f ==> f[q] == g[q]
    {
      if q in told {
        var k :| 0 <= k < |es| && es[k].uid == q;
      } else {
        assert forall k :: 0 <= k < |es| ==> es[k].uid != q;
      }
    }
    assert f == g;
  }

  ghost predicate LoggedInStep(lim: Limits, w: World, w': World, u: int)
    requires WorldShape(lim, w) && WorldShape(lim, w') && ValidUid(lim, u)
  {
    && OnlyLoggedIn(lim, w, u, w'.room)
    && w'.phase == w.phase[u := if w.phase[u] == Playing then Playing else LoggedIn]
    && w'.seen == w.seen[u := w.seen[u] + Truth(lim, w, u)]
    && View(w', u) == View(w, u) + Truth(lim, w, u)
    && forall p :: 0 <= p < lim.uids && p != u ==> View(w', p) == View(w, p)
  }

  lemma LoginTold(lim: Limits, w: World, u: int)
    requires Orderly(lim, w) && ValidUid(lim, u) && w.room.ids[u].using
    ensures var w' := Step(lim, w, Login(u));
            WorldShape(lim, w') && LoggedInStep(lim, w, w', u) && ListsOk(lim, w')
  {
    hide RouteInv, AddressedTo, ListGuard, Handle, Fold, Truth;
    RouteShape(lim, w.room);
    LoginTranscript(lim, w, u);
    QuietList(lim, w, Login(u));
    var (r', ps) := Handle(lim, w.room, Login(u));
    var w' := Step(lim, w, Login(u));
    forall q | PlayingOn(w, q, w.room.ids[u].mapid) ensures w.room.ids[q].using { assert PhaseOk(w, q); }
    TranscriptHeard(lim, w, u, r', ps, Heard(w, u));
    FoldAppend(map[], w.inbox[u], AddressedTo(ps, u));
    forall p | 0 <= p < lim.uids && p != u ensures View(w', p) == View(w, p) {
      assert w.inbox[p] + [] == w.inbox[p];
    }
  }

  lemma LoginReplicaAt(lim: Limits, w: World, w': World, u: int, p: int)
    requires WorldShape(lim, w) && WorldShape(lim, w') && ValidUid(lim, u) && ValidUid(lim, p)
    requires LoggedInStep(lim, w, w', u) && w.phase[u] != Absent
    requires WaitingOk(w, p) && ReplicaOk(lim, w, p) && PhaseOk(w, u)
    requires forall q :: 0 <= q < lim.uids ==> PhaseOk(w, q)
    ensures WaitingOk(w', p)
    ensures p == u || w.phase[u] != Playing || PlayerOf(w.room, u).pos == Pos(0, 0) ==> ReplicaOk(lim, w', p)
    ensures p != u && w.phase[u] == Playing && PlayerOf(w.room, u).pos != Pos(0, 0) ==>
              (ReplicaOk(lim, w', p) <==> !PlayingOn(w, p, w.room.ids[u].mapid))
  {
    hide View, Truth;
    if w.phase[p] == Playing {
      if p == u || w.phase[u] != Playing || w.room.ids[p].mapid != w.room.ids[u].mapid
         || PlayerOf(w.room, u).pos == Pos(0, 0)
      {
        assert forall q :: 0 <= q < lim.uids && w.phase[q] == Playing ==> PhaseOk(w, q);
        TruthSame(lim, w, w', p);
      } else {
        RelogTruth(lim, w, w', u, p);
      }
    }
  }

  lemma RelogTruth(lim: Limits, w: World, w': World, u: int, p: int)
    requires WorldShape(lim, w) && WorldShape(lim, w') && ValidUid(lim, u) && ValidUid(lim, p) && u != p
    requires w.phase[u] == Playing && w'.phase[u] == Playing && OnlyLoggedIn(lim, w, u, w'.room)
    requires w.room.ids[p].mapid == w.room.ids[u].mapid && PlayerOf(w.room, u).pos != Pos(0, 0)
    ensures Truth(lim, w', p) != Truth(lim, w, p)
  {
    assert PlayingOn(w, u, w.room.ids[p].mapid) && PlayingOn(w', u, w.room.ids[p].mapid);
    assert Truth(lim, w, p)[u] != Truth(lim, w', p)[u];
  }

  lemma LoginReplica(lim: Limits, w: World, u: int)
    requires Orderly(lim, w) && Converged(lim, w) && ValidUid(lim, u) && w.room.ids[u].using
    ensures var w' := Step(lim, w, Login(u));
            && Orderly(lim, w')
            && (Converged(lim, w') <==> ReplicaGuard(lim, w, Login(u)))
  {
    hide Handle, RouteInv, View, WaitingOk, ReplicaOk, Truth, ListsOk;
    var w' := Step(lim, w, Login(u));
    LoginTold(lim, w, u);
    WorldKept(lim, w, Login(u));
    assert PhaseOk(w, u);
    forall p | 0 <= p < lim.uids
      ensures IdentityOk(lim, w', p) && WaitingOk(w', p)
      ensures p == u || w.phase[u] != Playing || PlayerOf(w.room, u).pos == Pos(0, 0) ==> ReplicaOk(lim, w', p)
      ensures w.phase[u] == Playing && PlayerOf(w.room, u).pos != Pos(0, 0) ==>
                (ReplicaOk(lim, w', p) <==> p == u || !PlayingOn(w, p, w.room.ids[u].mapid))
    {
      assert IdentityOk(lim, w, p) && WaitingOk(w, p) && ReplicaOk(lim, w, p) && PhaseOk(w, p);
      LoginReplicaAt(lim, w, w', u, p);
    }
    assert Orderly(lim, w');
    if w.phase[u] == Playing && PlayerOf(w.room, u).pos != Pos(0, 0) {
      if Converged(lim, w') { NobodyElse(lim, w, w', u); }
      EmptyTruth(lim, w, u);
    }
  }

  lemma EmptyTruth(lim: Limits, w: World, u: int)
    requires WorldShape(lim, w) && ValidUid(lim, u)
    ensures Truth(lim, w, u) == map[] ==>
              forall q :: 0 <= q < lim.uids && q != u ==> !PlayingOn(w, q, w.room.ids[u].mapid)
  {
    if Truth(lim, w, u) == map[] {
      forall q | 0 <= q < lim.uids && q != u ensures !PlayingOn(w, q, w.room.ids[u].mapid) {
        assert q !in Truth(lim, w, u);
      }
    }
  }

  // ---------- the remaining calls ----------

  ghost predicate Quiet(w: World, e: Event)
    requires 0 <= e.uid < |w.room.ids|
  {
    w.room.ids[e.uid].using ==> !e.Login? && !e.Move? && !e.Close? && !(e.Start? && e.go)
  }

  /** What a quiet call leaves of client p. */
  ghost predicate Unmoved(lim: Limits, w: World, w': World, p: int)
    requires WorldShape(lim, w) && WorldShape(lim, w') && ValidUid(lim, p)
  {
    && w'.phase[p] == w.phase[p] && w'.seen[p] == w.seen[p] && View(w', p) == View(w, p)
    && w'.room.ids[p] == w.room.ids[p]
    && (w.phase[p] != Absent ==> PlayerOf(w'.room, p) == PlayerOf(w.room, p))
  }

  ghost predicate Joined(lim: Limits, w: World, w': World, p: int)
    requires WorldShape(lim, w) && WorldShape(lim, w') && ValidUid(lim, p)
  {
    && w.phase[p] == Absent
    && (w'.phase[p] == Absent || (w'.phase[p] == Attached && w'.inbox[p] == [] && w'.seen[p] == map[]))
  }

  lemma ConnectStep(lim: Limits, w: World, u: int, p: int)
    requires Orderly(lim, w) && ValidUid(lim, u) && ValidUid(lim, p)
    ensures var w' := Step(lim, w, Connect(u));
            && WorldShape(lim, w')
            && if p == u && w.phase[p] == Absent then Joined(lim, w, w', p) else Unmoved(lim, w, w', p)
  {
    hide RouteInv, Append;
    RouteShape(lim, w.room);
    assert PhaseOk(w, u) && PhaseOk(w, p);
    AttachedPlayers(lim, w.room, u, p);
    assert AddressedTo([], p) == [];
    assert w.inbox[p] + [] == w.inbox[p];
    assert [] + AddressedTo([], p) == [];
  }

  lemma IdleStep(lim: Limits, w: World, e: Event, p: int)
    requires Orderly(lim, w) && ValidUid(lim, e.uid) && ValidUid(lim, p) && Quiet(w, e) && !e.Connect?
    ensures var w' := Step(lim, w, e);
            WorldShape(lim, w') && Unmoved(lim, w, w', p)
  {
    hide RouteInv;
    RouteShape(lim, w.room);
    assert PhaseOk(w, e.uid);
    var ps := Handle(lim, w.room, e).1;
    assert ps == [] || (ps == [ps[0]] && ps[0].msg == LeaveRsp);
    IdleFold(w.inbox[p], ps, p);
  }

  lemma IdleFold(before: seq<Msg>, ps: seq<Packet>, p: int)
    requires ps == [] || (ps == [ps[0]] && ps[0].msg == LeaveRsp)
    ensures Fold(map[], before + AddressedTo(ps, p)) == Fold(map[], before)
  {
    if ps == [] {
      assert before + [] == before;
    } else {
      AddressedOne(ps[0], p);
      FoldOne(map[], before, LeaveRsp);
      assert before + [] == before;
    }
  }

  lemma AttachedPlayers(lim: Limits, r: Room, u: int, p: int)
    requires RouteInv(lim, r) && ValidUid(lim, u) && ValidUid(lim, p)
    ensures var r' := Append(lim, r, u);
            && Shape(lim, r')
            && (p != u || r.ids[u].using ==> r'.ids[p] == r.ids[p])
            && (r.ids[p].using ==> PlayerOf(r', p) == PlayerOf(r, p))
  {
    AppendKept(lim, r, u);
    LowestMapIs(lim, r.maps, 0);
    assert UidOk(r, p);
    if LowestMap(lim, r.maps, 0).Some? {
      LowestFreeIs(r.maps[LowestMap(lim, r.maps, 0).value].players, 0);
      if r.ids[p].using { assert SlotOk(r, r.ids[p].mapid, r.ids[p].slot); }
    }
  }

  lemma QuietReplica(lim: Limits, w: World, e: Event)
    requires Orderly(lim, w) && Converged(lim, w) && ValidUid(lim, e.uid) && Quiet(w, e)
    ensures var w' := Step(lim, w, e);
            Orderly(lim, w') && Converged(lim, w')
  {
    hide Step, RouteInv, ListsOk, Fold, Truth;
    var w' := Step(lim, w, e);
    WorldKept(lim, w, e);
    QuietList(lim, w, e);
    forall q | 0 <= q < lim.uids ensures Unmoved(lim, w, w', q) || Joined(lim, w, w', q) {
      if e.Connect? { ConnectStep(lim, w, e.uid, q); } else { IdleStep(lim, w, e, q); }
    }
    forall p | 0 <= p < lim.uids
      ensures IdentityOk(lim, w', p) && WaitingOk(w', p) && ReplicaOk(lim, w', p)
    {
      assert Unmoved(lim, w, w', p) || Joined(lim, w, w', p);
      assert IdentityOk(lim, w, p) && WaitingOk(w, p) && ReplicaOk(lim, w, p);
      if w'.phase[p] == Playing {
        forall q | 0 <= q < lim.uids
          ensures PlayingOn(w', q, w.room.ids[p].mapid) <==> PlayingOn(w, q, w.room.ids[p].mapid)
          ensures PlayingOn(w, q, w.room.ids[p].mapid) ==> PlayerOf(w'.room, q).pos == PlayerOf(w.room, q).pos
        {
          assert Unmoved(lim, w, w', q) || Joined(lim, w, w', q);
        }
        TruthSame(lim, w, w', p);
      }
      EmptyFold(w', p);
    }
  }

  lemma EmptyFold(w: World, p: int)
    requires 0 <= p < |w.inbox|
    ensures w.inbox[p] == [] ==> View(w, p) == map[]
  {
  }

  // ---------- convergence ----------

  /** From a room in order, every call leaves the lists exact and every replica equal to the real room iff the guards
      of the lists and of the replicas hold before it. */
  lemma ReplicaKeptIff(lim: Limits, w: World, e: Event)
    requires AllConverged(lim, w) && ValidUid(lim, e.uid)
    ensures AllConverged(lim, Step(lim, w, e)) <==> ListGuard(lim, w, e) && ReplicaGuard(lim, w, e)
  {
    hide Step, RouteInv, ListsOk, Converged, Truth, PlayersFirst, TellsTruth;
    assert PhaseOk(w, e.uid);
    if Quiet(w, e) {
      QuietReplica(lim, w, e);
    } else {
      match e
      case Login(u) => LoginReplica(lim, w, u);
      case Start(u, _) => StartReplica(lim, w, u);
      case Move(u, dir) => MoveReplica(lim, w, u, dir);
      case Close(u) => CloseReplica(lim, w, u);
    }
  }

  ghost predicate GuardsMet(lim: Limits, w: World, e: Event) {
    WorldInv(lim, w) && ValidUid(lim, e.uid) && ListGuard(lim, w, e) && ReplicaGuard(lim, w, e)
  }

  lemma ReplicaStep(lim: Limits, w: World, e: Event, w': World)
    requires Steps(lim, w, e, w') && AllConverged(lim, w)
    ensures AllConverged(lim, w') <==> GuardsMet(lim, w, e)
  {
    hide Step, AllConverged, ReplicaGuard, ListGuard;
    ReplicaKeptIff(lim, w, e);
  }

  /** On every run the lists are exact and all replicas equal the real room in every state iff every step met its
      guards. */
  lemma ReplicaOnRuns(lim: Limits, ws: seq<World>, es: seq<Event>)
    requires IsRun(lim, ws, es) && AllConverged(lim, ws[0])
    ensures (forall i :: 0 <= i <= |es| ==> AllConverged(lim, ws[i])) <==>
            (forall i :: 0 <= i < |es| ==> GuardsMet(lim, ws[i], es[i]))
  {
    hide Steps, AllConverged, GuardsMet;
    if forall i :: 0 <= i <= |es| ==> AllConverged(lim, ws[i]) {
      forall i | 0 <= i < |es| ensures GuardsMet(lim, ws[i], es[i]) {
        ReplicaStep(lim, ws[i], es[i], ws[i + 1]);
      }
    }
    if forall i :: 0 <= i < |es| ==> GuardsMet(lim, ws[i], es[i]) {
      for i := 0 to |es|
        invariant forall k :: 0 <= k <= i ==> AllConverged(lim, ws[k])
      {
        ReplicaStep(lim, ws[i], es[i], ws[i + 1]);
      }
    }
  }
}
