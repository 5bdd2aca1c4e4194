/** The broadcast lists: the first map_player_num entries of map_uid_list are exactly the playing uids.
    One handler call keeps this iff a guard on the tables before the call holds. */
module RoomLists {
  import opened Util
  import opened GameRoom
  import opened RouteTable
  import opened RoomWorld

  /** In slot order, no attached uid that is not playing comes before a playing one (uid itself aside). */
  ghost predicate PlayersFirst(lim: Limits, w: World, uid: int, m: int)
    requires WorldInv(lim, w) && 0 <= m < lim.maps
  {
    forall s, t :: 0 <= s < t < lim.perMap && Counts(w, m, s, uid) && Counts(w, m, t, uid)
                   && w.phase[w.room.maps[m].sock[t]] == Playing
                   ==> w.phase[w.room.maps[m].sock[s]] == Playing
  }

  ghost predicate Counts(w: World, m: int, s: int, uid: int)
    requires 0 <= m < |w.room.maps| && 0 <= s < |w.room.maps[m].sock|
  {
    && w.room.maps[m].sock[s] != NO_UID && w.room.maps[m].sock[s] != uid
    && 0 <= w.room.maps[m].sock[s] < |w.phase|
  }

  /** Every other attached uid of u's map plays. */
  ghost predicate EveryonePlays(lim: Limits, w: World, u: int)
    requires WorldShape(lim, w) && ValidUid(lim, u)
  {
    forall q :: 0 <= q < lim.uids && q != u && w.room.ids[q].using && w.room.ids[q].mapid == w.room.ids[u].mapid
                ==> w.phase[q] == Playing
  }

  ghost predicate ListGuard(lim: Limits, w: World, e: Event)
    requires WorldInv(lim, w) && ValidUid(lim, e.uid)
  {
    w.room.ids[e.uid].using ==>
      match e
      case Start(uid, go) => go ==> w.phase[uid] != Playing
      case Close(uid) => w.phase[uid] == Playing && PlayersFirst(lim, w, uid, w.room.ids[uid].mapid)
      case _ => true
  }

  /** Attached uids that all sit on map m, without repetition, number at most perMap. */
  lemma FitOnMap(lim: Limits, r: Room, m: nat, us: seq<int>)
    requires RouteInv(lim, r) && m < lim.maps && NoDup(us)
    requires forall i :: 0 <= i < |us| ==> 0 <= us[i] < lim.uids && r.ids[us[i]].using && r.ids[us[i]].mapid == m
    ensures |us| <= lim.perMap
  {
    var slots := seq(|us|, i requires 0 <= i < |us| => r.ids[us[i]].slot as int);
    forall i, j | 0 <= i < j < |us| ensures slots[i] != slots[j] {
      assert UidOk(r, us[i]) && UidOk(r, us[j]);
    }
    Pigeonhole(slots, lim.perMap);
  }

  /** A map with an attached uid that is not playing has room in its list. */
  lemma RoomToStart(lim: Limits, w: World, uid: int)
    requires WorldInv(lim, w) && ValidUid(lim, uid) && w.room.ids[uid].using && w.phase[uid] != Playing
    requires ListOk(lim, w, w.room.ids[uid].mapid)
    ensures w.room.maps[w.room.ids[uid].mapid].num < lim.perMap
  {
    hide RouteInv;
    RouteShape(lim, w.room);
    var m := w.room.ids[uid].mapid;
    var list := w.room.maps[m].list[..w.room.maps[m].num];
    forall i | 0 <= i < |list|
      ensures 0 <= list[i] < lim.uids && w.room.ids[list[i]].using && w.room.ids[list[i]].mapid == m && list[i] != uid
    {
      assert list[i] in list;
      assert PlayingOn(w, list[i], m);
      assert PhaseOk(w, list[i]);
    }
    FitOnMap(lim, w.room, m, list + [uid]);
  }

  lemma StartTables(lim: Limits, r: Room, uid: int)
    requires Shape(lim, r) && ValidUid(lim, uid) && r.ids[uid].using && !r.fault
    requires 0 <= r.maps[r.ids[uid].mapid].num <= lim.perMap
    ensures var m, p := r.ids[uid].mapid, PlayerOf(r, uid);
            var mr := r.maps[m];
            if mr.num < lim.perMap then
              Handle(lim, r, Start(uid, true)) ==
                (r.(maps := r.maps[m := mr.(num := mr.num + 1, list := mr.list[mr.num := uid])]),
                 [Packet(mr.list[..mr.num], NewEnemy(p.uid, p.pos)), Packet([uid], GameStartRsp)])
            else Handle(lim, r, Start(uid, true)).0.fault
  {
    var m, p := r.ids[uid].mapid, PlayerOf(r, uid);
    var mr := r.maps[m];
    if mr.num < lim.perMap {
      var hello, done := Packet(mr.list[..mr.num], NewEnemy(p.uid, p.pos)), Packet([uid], GameStartRsp);
      assert [hello] + [done] == [hello, done];
    }
  }

  lemma StartedList(lim: Limits, w: World, w': World, uid: int, k: int)
    requires Shape(lim, w.room) && Shape(lim, w'.room) && 0 <= k < lim.maps && ListOk(lim, w, k)
    requires ValidUid(lim, uid) && |w.phase| == lim.uids && w.phase[uid] != Playing
    requires w'.phase == w.phase[uid := Playing] && w'.room.ids == w.room.ids
    requires if k == w.room.ids[uid].mapid then
               && 0 <= w.room.maps[k].num < lim.perMap
               && w'.room.maps[k].num == w.room.maps[k].num + 1
               && w'.room.maps[k].list == w.room.maps[k].list[w.room.maps[k].num := uid]
             else w'.room.maps[k] == w.room.maps[k]
    ensures ListOk(lim, w', k)
  {
    var n := w.room.maps[k].num;
    if k == w.room.ids[uid].mapid {
      assert w'.room.maps[k].list[..n + 1] == w.room.maps[k].list[..n] + [uid];
      assert !PlayingOn(w, uid, k);
      forall u ensures u in w'.room.maps[k].list[..n + 1] <==> PlayingOn(w', u, k) {
        assert u in w.room.maps[k].list[..n] <==> PlayingOn(w, u, k);
      }
    } else {
      forall u ensures PlayingOn(w', u, k) <==> PlayingOn(w, u, k) {
      }
    }
  }

  lemma StartList(lim: Limits, w: World, uid: int)
    requires WorldInv(lim, w) && ValidUid(lim, uid) && w.room.ids[uid].using && ListsOk(lim, w)
    ensures ListsOk(lim, Step(lim, w, Start(uid, true))) <==> w.phase[uid] != Playing
  {
    hide Handle, RouteInv;
    RouteShape(lim, w.room);
    var m := w.room.ids[uid].mapid;
    assert ListOk(lim, w, m);
    StartTables(lim, w.room, uid);
    WorldKept(lim, w, Start(uid, true));
    var w' := Step(lim, w, Start(uid, true));
    var n := w.room.maps[m].num;
    if w.phase[uid] != Playing {
      RoomToStart(lim, w, uid);
      forall k | 0 <= k < lim.maps ensures ListOk(lim, w', k) {
        assert ListOk(lim, w, k);
        StartedList(lim, w, w', uid, k);
      }
    } else if ListsOk(lim, w') {
      assert ListOk(lim, w', m);
      SameElemsSameSize(w.room.maps[m].list[..n], w'.room.maps[m].list[..n + 1]);
    }
  }

  /** Others lists a map's attached uids by increasing slot. */
  lemma {:induction false} OthersOrdered(lim: Limits, r: Room, m: nat, uid: int, n: nat)
    requires RouteInv(lim, r) && m < lim.maps && n <= lim.perMap
    ensures var o := Others(r.maps[m].sock[..n], uid);
            && (forall i :: 0 <= i < |o| ==> 0 <= o[i] < lim.uids && o[i] != uid && r.ids[o[i]].using
                                             && r.ids[o[i]].mapid == m && r.ids[o[i]].slot < n)
            && (forall i, j :: 0 <= i < j < |o| ==> r.ids[o[i]].slot < r.ids[o[j]].slot)
  {
    if n > 0 {
      OthersOrdered(lim, r, m, uid, n - 1);
      assert SlotOk(r, m, n - 1);
      var sock, last := r.maps[m].sock[..n], r.maps[m].sock[n - 1];
      assert sock[..|sock| - 1] == r.maps[m].sock[..n - 1];
      assert Others(sock, uid) ==
             Others(r.maps[m].sock[..n - 1], uid) + if last != NO_UID && last != uid then [last] else [];
    }
  }

  /** What close does to the two rooms' tables of its map. */
  lemma CloseTables(lim: Limits, w: World, uid: int)
    requires WorldInv(lim, w) && ValidUid(lim, uid) && w.room.ids[uid].using && ListsOk(lim, w)
    ensures var m := w.room.ids[uid].mapid;
            var (r', packets) := Handle(lim, w.room, Close(uid));
            && !r'.fault && |r'.maps| == lim.maps && |r'.ids| == lim.uids
            && r'.ids == w.room.ids[uid := w.room.ids[uid].(using := false)]
            && (forall k :: 0 <= k < lim.maps && k != m ==> r'.maps[k] == w.room.maps[k])
            && r'.maps[m].num == w.room.maps[m].num - 1
            && |Others(w.room.maps[m].sock, uid)| <= |w.room.maps[m].list|
            && r'.maps[m].list == Overwrite(w.room.maps[m].list, Others(w.room.maps[m].sock, uid))
            && packets == [Packet(r'.maps[m].list[..Max0(r'.maps[m].num)], EnemyLeave(PlayerOf(w.room, uid).uid))]
  {
    var m := w.room.ids[uid].mapid;
    assert ListOk(lim, w, m);
    OthersLen(w.room.maps[m].sock, uid);
    DelKept(lim, w.room, uid);
  }

  lemma PlayersFirstIsOrder(lim: Limits, w: World, uid: int, m: nat, o: seq<int>)
    requires WorldInv(lim, w) && m < lim.maps && o == Others(w.room.maps[m].sock, uid)
    ensures forall i :: 0 <= i < |o| ==> 0 <= o[i] < lim.uids
    ensures PlayersFirst(lim, w, uid, m) <==> PlayersLead(w, o)
  {
    hide Others, PlayersFirst, PlayersLead;
    OthersAre(lim, w.room.maps[m].sock, uid);
    OthersBySlot(lim, w, uid, m, o);
    if PlayersFirst(lim, w, uid, m) { PlayersFirstLead(lim, w, uid, m, o); }
    if PlayersLead(w, o) { PlayersLeadFirst(lim, w, uid, m, o); }
  }

  /** In the list o no uid that is not playing stands before one that is. */
  ghost predicate PlayersLead(w: World, o: seq<int>)
    requires forall i :: 0 <= i < |o| ==> 0 <= o[i] < |w.phase|
  {
    forall i, j :: 0 <= i < j < |o| && w.phase[o[j]] == Playing ==> w.phase[o[i]] == Playing
  }

  lemma OthersBySlot(lim: Limits, w: World, uid: int, m: nat, o: seq<int>)
    requires WorldInv(lim, w) && m < lim.maps && o == Others(w.room.maps[m].sock, uid)
    ensures |w.phase| == lim.uids && |w.room.ids| == lim.uids
    ensures forall i :: 0 <= i < |o| ==> 0 <= o[i] < lim.uids && o[i] != uid && w.room.ids[o[i]].using
                                         && w.room.ids[o[i]].mapid == m && w.room.ids[o[i]].slot < lim.perMap
    ensures forall i, j :: 0 <= i < j < |o| ==> w.room.ids[o[i]].slot < w.room.ids[o[j]].slot
  {
    hide Others;
    var sock := w.room.maps[m].sock;
    RouteShape(lim, w.room);
    assert sock[..lim.perMap] == sock;
    OthersOrdered(lim, w.room, m, uid, lim.perMap);
  }

  lemma PlayersFirstLead(lim: Limits, w: World, uid: int, m: nat, o: seq<int>)
    requires WorldInv(lim, w) && m < lim.maps && o == Others(w.room.maps[m].sock, uid)
    requires forall i :: 0 <= i < |o| ==> 0 <= o[i] < lim.uids
    requires PlayersFirst(lim, w, uid, m)
    ensures PlayersLead(w, o)
  {
    hide Others;
    OthersBySlot(lim, w, uid, m, o);
    forall i, j | 0 <= i < j < |o| && w.phase[o[j]] == Playing ensures w.phase[o[i]] == Playing {
      assert UidOk(w.room, o[i]) && UidOk(w.room, o[j]);
      assert Counts(w, m, w.room.ids[o[i]].slot, uid) && Counts(w, m, w.room.ids[o[j]].slot, uid);
    }
  }

  lemma PlayersLeadFirst(lim: Limits, w: World, uid: int, m: nat, o: seq<int>)
    requires WorldInv(lim, w) && m < lim.maps && o == Others(w.room.maps[m].sock, uid)
    requires forall i :: 0 <= i < |o| ==> 0 <= o[i] < lim.uids
    requires PlayersLead(w, o)
    ensures PlayersFirst(lim, w, uid, m)
  {
    hide Others, RouteInv, PhaseOk, PlayersLead;
    RouteShape(lim, w.room);
    var sock := w.room.maps[m].sock;
    forall s, t | 0 <= s < t < lim.perMap && Counts(w, m, s, uid) && Counts(w, m, t, uid) && w.phase[sock[t]] == Playing
      ensures w.phase[sock[s]] == Playing
    {
      var i := ListedAt(lim, w, uid, m, o, s);
      var j := ListedAt(lim, w, uid, m, o, t);
      OthersBySlot(lim, w, uid, m, o);
      LeadsAt(w, o, i, j);
    }
  }

  lemma LeadsAt(w: World, o: seq<int>, i: nat, j: nat)
    requires forall k :: 0 <= k < |o| ==> 0 <= o[k] < |w.phase| && o[k] < |w.room.ids|
    requires forall k, l :: 0 <= k < l < |o| ==> w.room.ids[o[k]].slot < w.room.ids[o[l]].slot
    requires i < |o| && j < |o| && w.room.ids[o[i]].slot < w.room.ids[o[j]].slot
    requires PlayersLead(w, o) && w.phase[o[j]] == Playing
    ensures w.phase[o[i]] == Playing
  {
  }

  lemma ListedAt(lim: Limits, w: World, uid: int, m: nat, o: seq<int>, s: nat) returns (i: nat)
    requires WorldInv(lim, w) && m < lim.maps && s < lim.perMap && Counts(w, m, s, uid)
    requires o == Others(w.room.maps[m].sock, uid)
    ensures i < |o| && o[i] == w.room.maps[m].sock[s] && 0 <= o[i] < |w.room.ids| && w.room.ids[o[i]].slot == s
  {
    hide Others;
    var sock := w.room.maps[m].sock;
    OthersAre(lim, sock, uid);
    assert SlotOk(w.room, m, s);
    assert sock[s] in o;
    i :| 0 <= i < |o| && o[i] == sock[s];
  }

  /** The author's commented-out assert: rebuild counts map_player_num - 1 entries exactly when the closing uid
      plays and so does everybody else on its map. */
  lemma RebuiltCountIff(lim: Limits, w: World, uid: int)
    requires WorldInv(lim, w) && ListsOk(lim, w) && ValidUid(lim, uid) && w.room.ids[uid].using
    ensures var m := w.room.ids[uid].mapid;
            |Others(w.room.maps[m].sock, uid)| == w.room.maps[m].num - 1
            <==> w.phase[uid] == Playing && EveryonePlays(lim, w, uid)
  {
    hide RouteInv, Others, PhaseOk, EveryonePlays;
    RouteShape(lim, w.room);
    var m := w.room.ids[uid].mapid;
    assert ListOk(lim, w, m);
    var o := Others(w.room.maps[m].sock, uid);
    var list := w.room.maps[m].list[..w.room.maps[m].num];
    assert PlayingOn(w, uid, m) <==> uid in list;
    PlayersAmongOthers(lim, w, uid, m, o, Elems(list) - {uid});
    OneFewer(o, list, uid);
    AllOthersPlay(lim, w, uid, o, Elems(list) - {uid});
  }

  lemma OneFewer(o: seq<int>, list: seq<int>, uid: int)
    requires NoDup(o) && NoDup(list) && forall x :: x in Elems(list) - {uid} ==> x in o
    ensures |o| == |list| - 1 <==> uid in list && Elems(o) == Elems(list) - {uid}
  {
    var a := Elems(list) - {uid};
    NoDupSize(o);
    NoDupSize(list);
    SubsetSize(a, Elems(o));
    if uid !in list { assert a == Elems(list); }
  }

  lemma OtherListed(lim: Limits, w: World, uid: int, q: int)
    requires WorldInv(lim, w) && ValidUid(lim, uid) && ValidUid(lim, q) && w.room.ids[q].using && q != uid
    requires w.room.ids[q].mapid == w.room.ids[uid].mapid
    ensures q in Others(w.room.maps[w.room.ids[uid].mapid].sock, uid)
  {
    hide Others, PhaseOk;
    OthersAre(lim, w.room.maps[w.room.ids[uid].mapid].sock, uid);
    assert UidOk(w.room, q);
  }

  lemma AllOthersPlay(lim: Limits, w: World, uid: int, o: seq<int>, a: set<int>)
    requires WorldInv(lim, w) && ValidUid(lim, uid)
    requires o == Others(w.room.maps[w.room.ids[uid].mapid].sock, uid)
    requires forall x :: x in a ==> x in o
    requires forall i :: 0 <= i < |o| ==> 0 <= o[i] < lim.uids && (o[i] in a <==> w.phase[o[i]] == Playing)
    ensures Elems(o) == a <==> EveryonePlays(lim, w, uid)
  {
    hide Others, RouteInv, PhaseOk;
    RouteShape(lim, w.room);
    OthersBySlot(lim, w, uid, w.room.ids[uid].mapid, o);
    AllIn(o, a);
    if Elems(o) == a {
      forall q | 0 <= q < lim.uids && q != uid && w.room.ids[q].using && w.room.ids[q].mapid == w.room.ids[uid].mapid
        ensures w.phase[q] == Playing
      {
        OtherListed(lim, w, uid, q);
        var i :| 0 <= i < |o| && o[i] == q;
      }
    }
  }

  lemma AllIn(o: seq<int>, a: set<int>)
    requires forall x :: x in a ==> x in o
    ensures Elems(o) == a <==> forall i :: 0 <= i < |o| ==> o[i] in a
  {
    if Elems(o) == a {
      forall i | 0 <= i < |o| ensures o[i] in a { assert o[i] in Elems(o); }
    }
    if forall i :: 0 <= i < |o| ==> o[i] in a {
      assert forall x :: x in Elems(o) <==> x in a;
    }
  }

  lemma CloseList(lim: Limits, w: World, uid: int)
    requires WorldInv(lim, w) && ValidUid(lim, uid) && w.room.ids[uid].using && ListsOk(lim, w)
    ensures ListsOk(lim, Step(lim, w, Close(uid))) <==>
            w.phase[uid] == Playing && PlayersFirst(lim, w, uid, w.room.ids[uid].mapid)
  {
    hide Handle, RouteInv, Others, Overwrite, PlayersFirst;
    RouteShape(lim, w.room);
    var m := w.room.ids[uid].mapid;
    assert ListOk(lim, w, m);
    CloseTables(lim, w, uid);
    WorldKept(lim, w, Close(uid));
    var w' := Step(lim, w, Close(uid));
    var n := w.room.maps[m].num;
    forall k | 0 <= k < lim.maps && k != m ensures ListOk(lim, w', k) {
      assert ListOk(lim, w, k);
      forall u ensures PlayingOn(w', u, k) <==> PlayingOn(w, u, k) {
      }
    }
    if w.phase[uid] == Playing {
      ClosePlayerList(lim, w, uid, w');
    } else if ListOk(lim, w', m) {
      forall u ensures PlayingOn(w', u, m) <==> PlayingOn(w, u, m) {
      }
      SameElemsSameSize(w.room.maps[m].list[..n], w'.room.maps[m].list[..n - 1]);
    }
  }

  lemma ClosePlayerList(lim: Limits, w: World, uid: int, w': World)
    requires WorldInv(lim, w) && ValidUid(lim, uid) && w.phase[uid] == Playing && Shape(lim, w'.room)
    requires ListOk(lim, w, w.room.ids[uid].mapid)
    requires w'.room.maps[w.room.ids[uid].mapid].num == w.room.maps[w.room.ids[uid].mapid].num - 1
    requires |Others(w.room.maps[w.room.ids[uid].mapid].sock, uid)| <= lim.perMap
    requires w'.room.maps[w.room.ids[uid].mapid].list ==
             Overwrite(w.room.maps[w.room.ids[uid].mapid].list, Others(w.room.maps[w.room.ids[uid].mapid].sock, uid))
    requires w'.phase == w.phase[uid := Absent]
    requires w'.room.ids == w.room.ids[uid := w.room.ids[uid].(using := false)]
    ensures ListOk(lim, w', w.room.ids[uid].mapid) <==> PlayersFirst(lim, w, uid, w.room.ids[uid].mapid)
  {
    hide RouteInv, PhaseOk, Others, PlayersFirst, PlayersLead, ListOk, Overwrite, PlayingOn;
    RouteShape(lim, w.room);
    var m := w.room.ids[uid].mapid;
    var o := Others(w.room.maps[m].sock, uid);
    ListBound(lim, w, m);
    var a := Elems(w.room.maps[m].list[..w.room.maps[m].num]) - {uid};
    PlayersAmongOthers(lim, w, uid, m, o, a);
    PlayersFirstIsOrder(lim, w, uid, m, o);
    LeadMatches(w, o, a);
    PrefixExact(o, a);
    RemainingPlayers(lim, w, uid, w', m, a);
    OverwriteFront(w.room.maps[m].list, o);
    NewListIs(lim, w', m, o, a);
  }

  lemma OverwriteFront(list: seq<int>, o: seq<int>)
    requires |o| <= |list|
    ensures o == Overwrite(list, o)[..|o|]
  {
  }

  lemma ListBound(lim: Limits, w: World, m: nat)
    requires Shape(lim, w.room) && m < lim.maps && ListOk(lim, w, m)
    ensures 0 <= w.room.maps[m].num <= |w.room.maps[m].list|
  {
  }

  lemma LeadMatches(w: World, o: seq<int>, a: set<int>)
    requires forall i :: 0 <= i < |o| ==> 0 <= o[i] < |w.phase| && (o[i] in a <==> w.phase[o[i]] == Playing)
    ensures PlayersLead(w, o) <==> forall i, j :: 0 <= i < j < |o| && o[j] in a ==> o[i] in a
  {
  }

  /** After the close the playing uids are those of the old list without the closing one. */
  lemma RemainingPlayers(lim: Limits, w: World, uid: int, w': World, m: nat, a: set<int>)
    requires WorldInv(lim, w) && ValidUid(lim, uid) && w.phase[uid] == Playing && m == w.room.ids[uid].mapid
    requires m < lim.maps && ListOk(lim, w, m) && a == Elems(w.room.maps[m].list[..w.room.maps[m].num]) - {uid}
    requires w'.phase == w.phase[uid := Absent] && w'.room.ids == w.room.ids[uid := w.room.ids[uid].(using := false)]
    ensures |a| == w.room.maps[m].num - 1
    ensures forall u :: PlayingOn(w', u, m) <==> u in a
  {
    hide RouteInv, PhaseOk;
    var list := w.room.maps[m].list[..w.room.maps[m].num];
    assert PlayingOn(w, uid, m);
    assert uid in Elems(list);
    NoDupSize(list);
    forall u ensures PlayingOn(w', u, m) <==> u in a { assert PlayingOn(w, u, m) <==> u in list; }
  }

  lemma NewListIs(lim: Limits, w: World, m: nat, o: seq<int>, a: set<int>)
    requires Shape(lim, w.room) && m < lim.maps && NoDup(o) && |a| <= |o| <= lim.perMap
    requires w.room.maps[m].num == |a| && o == w.room.maps[m].list[..|o|]
    requires forall u :: PlayingOn(w, u, m) <==> u in a
    ensures ListOk(lim, w, m) <==> forall x :: x in o[..|a|] <==> x in a
  {
    assert w.room.maps[m].list[..|a|] == o[..|a|];
  }

  lemma PlayersAmongOthers(lim: Limits, w: World, uid: int, m: nat, o: seq<int>, a: set<int>)
    requires WorldInv(lim, w) && ValidUid(lim, uid) && m < lim.maps && ListOk(lim, w, m)
    requires o == Others(w.room.maps[m].sock, uid) && a == Elems(w.room.maps[m].list[..w.room.maps[m].num]) - {uid}
    ensures NoDup(o) && forall x :: x in a ==> x in o
    ensures forall i :: 0 <= i < |o| ==> 0 <= o[i] < lim.uids && (o[i] in a <==> w.phase[o[i]] == Playing)
  {
    var sock := w.room.maps[m].sock;
    assert sock[..lim.perMap] == sock;
    OthersOrdered(lim, w.room, m, uid, lim.perMap);
    OthersAre(lim, sock, uid);
    forall x | x in a ensures x in o {
      assert PlayingOn(w, x, m) && PhaseOk(w, x) && UidOk(w.room, x);
    }
    forall i | 0 <= i < |o| ensures o[i] in a <==> w.phase[o[i]] == Playing {
      assert PlayingOn(w, o[i], m) <==> w.phase[o[i]] == Playing;
    }
  }

  /** One handler call keeps every broadcast list exact iff the guard holds before the call. */
  lemma ListsKeptIff(lim: Limits, w: World, e: Event)
    requires WorldInv(lim, w) && ValidUid(lim, e.uid) && ListsOk(lim, w)
    ensures ListsOk(lim, Step(lim, w, e)) <==> ListGuard(lim, w, e)
  {
    var w' := Step(lim, w, e);
    WorldKept(lim, w, e);
    if w.room.ids[e.uid].using && e.Start? && e.go {
      StartList(lim, w, e.uid);
    } else if w.room.ids[e.uid].using && e.Close? {
      CloseList(lim, w, e.uid);
    } else {
      QuietList(lim, w, e);
    }
  }

  /** Every other call leaves the lists as they are, and never faults. */
  lemma QuietTables(lim: Limits, w: World, e: Event)
    requires WorldInv(lim, w) && ValidUid(lim, e.uid) && ListsOk(lim, w)
    requires w.room.ids[e.uid].using ==> !(e.Start? && e.go) && !e.Close?
    ensures var r' := Handle(lim, w.room, e).0;
            && !r'.fault && |r'.maps| == lim.maps
            && forall m :: 0 <= m < lim.maps ==>
                 r'.maps[m].num == w.room.maps[m].num && r'.maps[m].list == w.room.maps[m].list
  {
    var uid := e.uid;
    RouteShape(lim, w.room);
    if e.Connect? {
      AppendKept(lim, w.room, uid);
      hide RouteInv, Append;
    } else if w.room.ids[uid].using {
      var m, s := w.room.ids[uid].mapid, w.room.ids[uid].slot;
      assert ListOk(lim, w, m);
      if e.Login? {
        var greeted := w.room.maps[m].players[s].(uid := uid, pos := Pos(0, 0), step := START_STEP);
        EnemiesFound(lim, w, SetPlayer(w.room, m, s, greeted), uid, 0);
        hide RouteInv, EnemyPackets, PhaseOk, ListsOk, ListOk;
      } else {
        hide RouteInv, EnemyPackets, PhaseOk, ListsOk;
      }
    }
  }

  lemma QuietList(lim: Limits, w: World, e: Event)
    requires WorldInv(lim, w) && ValidUid(lim, e.uid) && ListsOk(lim, w)
    requires w.room.ids[e.uid].using ==> !(e.Start? && e.go) && !e.Close?
    ensures ListsOk(lim, Step(lim, w, e))
  {
    hide Handle, RouteInv;
    var w' := Step(lim, w, e);
    RouteShape(lim, w.room);
    assert PhaseOk(w, e.uid);
    WorldKept(lim, w, e);
    QuietTables(lim, w, e);
    HandleIds(lim, w.room, e);
    forall k | 0 <= k < lim.maps ensures ListOk(lim, w', k) {
      assert ListOk(lim, w, k);
      forall u ensures PlayingOn(w', u, k) <==> PlayingOn(w, u, k) {
      }
    }
  }

  /** With an exact list the ENEMY_MSG loop of a login never meets a missing player. */
  lemma {:induction false} EnemiesFound(lim: Limits, w: World, r: Room, uid: int, i: nat)
    requires WorldInv(lim, w) && Shape(lim, r) && ValidUid(lim, uid)
    requires r.ids == w.room.ids && ListOk(lim, w, r.ids[uid].mapid)
    requires r.maps[r.ids[uid].mapid].num == w.room.maps[r.ids[uid].mapid].num >= i
    requires r.maps[r.ids[uid].mapid].list == w.room.maps[r.ids[uid].mapid].list
    ensures !EnemyPackets(lim, r, uid, i).1
    ensures var mr := r.maps[r.ids[uid].mapid];
            var ps := EnemyPackets(lim, r, uid, i).0;
            && |ps| == mr.num - i
            && forall k :: 0 <= k < |ps| ==>
                 ps[k] == Packet([uid], EnemyMsg(mr.list[i + k], PlayerOf(r, mr.list[i + k]).pos))
    decreases r.maps[r.ids[uid].mapid].num - i
  {
    var mr := r.maps[r.ids[uid].mapid];
    if i < mr.num {
      assert mr.list[i] in mr.list[..mr.num];
      assert PhaseOk(w, mr.list[i]);
      EnemiesFound(lim, w, r, uid, i + 1);
    }
  }

  lemma OneStep(lim: Limits, w: World, e: Event, w': World)
    requires Steps(lim, w, e, w')
    ensures ListsOk(lim, w) ==> (ListsOk(lim, w') <==> StepGuard(lim, w, e))
  {
    if ListsOk(lim, w) { ListsKeptIff(lim, w, e); }
  }

  ghost predicate StepGuard(lim: Limits, w: World, e: Event) {
    WorldInv(lim, w) && ValidUid(lim, e.uid) && ListGuard(lim, w, e)
  }

  /** The lists are exact in every state of a run iff every step of the run met its guard. */
  lemma ListsOnRuns(lim: Limits, ws: seq<World>, es: seq<Event>)
    requires IsRun(lim, ws, es) && ListsOk(lim, ws[0])
    ensures (forall i :: 0 <= i <= |es| ==> ListsOk(lim, ws[i])) <==>
            (forall i :: 0 <= i < |es| ==> StepGuard(lim, ws[i], es[i]))
  {
    hide Steps, ListsOk, StepGuard;
    if forall i :: 0 <= i <= |es| ==> ListsOk(lim, ws[i]) {
      forall i | 0 <= i < |es| ensures StepGuard(lim, ws[i], es[i]) {
        OneStep(lim, ws[i], es[i], ws[i + 1]);
      }
    }
    if forall i :: 0 <= i < |es| ==> StepGuard(lim, ws[i], es[i]) {
      for i := 0 to |es|
        invariant forall k :: 0 <= k <= i ==> ListsOk(lim, ws[k])
      {
        OneStep(lim, ws[i], es[i], ws[i + 1]);
      }
    }
  }
}
