/** The route table of one game service on every run: `uid_2_playid`, the slot states and
    `map_player_socket_uid` are three views of one bijection, and `player_num` counts it. */
module RouteTable {
  import opened Util
  import opened GameRoom

  ghost predicate UidOk(r: Room, u: int)
    requires 0 <= u < |r.ids|
  {
    r.ids[u].using ==>
      && r.ids[u].mapid < |r.maps|
      && r.ids[u].slot < |r.maps[r.ids[u].mapid].sock|
      && r.maps[r.ids[u].mapid].sock[r.ids[u].slot] == u
  }

  ghost predicate SlotOk(r: Room, m: int, s: int)
    requires 0 <= m < |r.maps| && 0 <= s < |r.maps[m].sock| == |r.maps[m].players|
  {
    var u := r.maps[m].sock[s];
    && (r.maps[m].players[s].using <==> u != NO_UID)
    && (u != NO_UID ==>
          && 0 <= u < |r.ids| && r.ids[u].using
          && r.ids[u].mapid == m && r.ids[u].slot == s)
  }

  ghost function AttachedUids(r: Room): set<int> {
    set u | u in Below(|r.ids|) && r.ids[u].using
  }

  ghost function UsingSlots(lim: Limits, r: Room): set<(int, int)>
    requires Shape(lim, r)
  {
    set m, s | m in Below(lim.maps) && s in Below(lim.perMap) && r.maps[m].players[s].using :: (m, s)
  }

  ghost predicate RouteInv(lim: Limits, r: Room) {
    && Shape(lim, r)
    && (forall u :: 0 <= u < lim.uids ==> UidOk(r, u))
    && (forall m, s :: 0 <= m < lim.maps && 0 <= s < lim.perMap ==> SlotOk(r, m, s))
    && r.playerNum == |AttachedUids(r)| <= lim.Cap()
  }

  lemma RouteShape(lim: Limits, r: Room)
    requires RouteInv(lim, r)
    ensures Shape(lim, r) && |r.ids| == lim.uids && |r.maps| == lim.maps
  {
  }

  lemma InitRoute(lim: Limits, garbage: seq<seq<Player>>)
    requires 0 < lim.maps && 0 < lim.perMap && 0 < lim.uids
    requires |garbage| == lim.maps
    requires forall m :: 0 <= m < lim.maps ==> |garbage[m]| == lim.perMap
    ensures RouteInv(lim, Init(lim, garbage))
  {
    assert AttachedUids(Init(lim, garbage)) == {};
  }

  /** The views that the route table is about are the same in both rooms. */
  ghost predicate SameRoute(lim: Limits, r: Room, r': Room) {
    && r'.ids == r.ids && r'.playerNum == r.playerNum && Shape(lim, r) && Shape(lim, r')
    && (forall m :: 0 <= m < lim.maps ==> r'.maps[m].sock == r.maps[m].sock)
    && (forall m, s :: 0 <= m < lim.maps && 0 <= s < lim.perMap ==>
          r'.maps[m].players[s].using == r.maps[m].players[s].using)
  }

  lemma SameRouteKept(lim: Limits, r: Room, r': Room)
    requires RouteInv(lim, r) && SameRoute(lim, r, r')
    ensures RouteInv(lim, r')
  {
    forall u | 0 <= u < lim.uids ensures UidOk(r', u) { assert UidOk(r, u); }
    forall m, s | 0 <= m < lim.maps && 0 <= s < lim.perMap ensures SlotOk(r', m, s) { assert SlotOk(r, m, s); }
    assert AttachedUids(r') == AttachedUids(r);
  }

  lemma {:induction false} OthersAre(lim: Limits, sock: seq<int>, uid: int)
    ensures forall x :: x in Others(sock, uid) <==> x in sock && x != NO_UID && x != uid
  {
    if sock != [] {
      OthersAre(lim, sock[..|sock| - 1], uid);
      assert sock == sock[..|sock| - 1] + [sock[|sock| - 1]];
    }
  }

  lemma RebuildKept(lim: Limits, r: Room, uid: int)
    requires RouteInv(lim, r) && ValidUid(lim, uid)
    ensures RouteInv(lim, Rebuild(lim, r, uid))
  {
    var m := r.ids[uid].mapid;
    var front := Others(r.maps[m].sock, uid);
    OthersAre(lim, r.maps[m].sock, uid);
    OthersLen(r.maps[m].sock, uid);
    var r' := Rebuild(lim, r, uid);
    forall i | 0 <= i < lim.perMap ensures 0 <= r'.maps[m].list[i] < lim.uids {
      if i < |front| {
        assert front[i] in front;
        var s :| 0 <= s < lim.perMap && r.maps[m].sock[s] == front[i];
        assert SlotOk(r, m, s);
      }
    }
    SameRouteKept(lim, r, r');
  }

  /** A change that touches one uid and its slot keeps the table if it keeps both of them right. */
  lemma OneSlotChanged(lim: Limits, r: Room, r': Room, uid: int, m: nat, s: nat)
    requires RouteInv(lim, r) && Shape(lim, r') && ValidUid(lim, uid) && m < lim.maps && s < lim.perMap
    requires r.maps[m].sock[s] == NO_UID || r.maps[m].sock[s] == uid
    requires r.ids[uid].using ==> r.ids[uid] == PlayerId(true, m, s)
    requires forall u :: 0 <= u < lim.uids && u != uid ==> r'.ids[u] == r.ids[u]
    requires forall k, t :: 0 <= k < lim.maps && 0 <= t < lim.perMap && (k != m || t != s) ==>
               r'.maps[k].sock[t] == r.maps[k].sock[t] && r'.maps[k].players[t].using == r.maps[k].players[t].using
    requires UidOk(r', uid) && SlotOk(r', m, s)
    requires r'.playerNum == |AttachedUids(r')| <= lim.Cap()
    ensures RouteInv(lim, r')
  {
    forall u | 0 <= u < lim.uids ensures UidOk(r', u) { assert UidOk(r, u); }
    forall k, t | 0 <= k < lim.maps && 0 <= t < lim.perMap ensures SlotOk(r', k, t) { assert SlotOk(r, k, t); }
  }

  lemma AttachKept(lim: Limits, r: Room, uid: int, m: nat, s: nat)
    requires RouteInv(lim, r) && ValidUid(lim, uid) && !r.ids[uid].using && r.playerNum < lim.Cap()
    requires m < lim.maps && s < lim.perMap && !r.maps[m].players[s].using
    ensures RouteInv(lim, Attach(r, uid, m, s))
    ensures AttachedUids(Attach(r, uid, m, s)) == AttachedUids(r) + {uid}
  {
    var r' := Attach(r, uid, m, s);
    assert AttachedUids(r') == AttachedUids(r) + {uid};
    assert SlotOk(r, m, s);
    OneSlotChanged(lim, r, r', uid, m, s);
  }

  /** game_route_append never finds a socket uid in a free slot, so a connect either attaches the uid
      to the lowest free slot of the lowest map below its limit, or leaves every table unchanged. */
  lemma AppendKept(lim: Limits, r: Room, uid: int)
    requires RouteInv(lim, r) && ValidUid(lim, uid)
    ensures RouteInv(lim, Append(lim, r, uid))
    ensures var r' := Append(lim, r, uid);
            if !r.ids[uid].using && r'.ids[uid].using then
              var m, s := r'.ids[uid].mapid, r'.ids[uid].slot;
              && LowestMap(lim, r.maps, 0) == Some(m) && LowestFree(r.maps[m].players, 0) == Some(s)
              && s < lim.perMap && r' == Attach(r, uid, m, s)
              && AttachedUids(r') == AttachedUids(r) + {uid}
            else r' == r
  {
    if !r.ids[uid].using && r.playerNum < lim.Cap() {
      LowestMapIs(lim, r.maps, 0);
      if LowestMap(lim, r.maps, 0).Some? {
        var m := LowestMap(lim, r.maps, 0).value;
        LowestFreeIs(r.maps[m].players, 0);
        if LowestFree(r.maps[m].players, 0).Some? {
          var s := LowestFree(r.maps[m].players, 0).value;
          assert SlotOk(r, m, s);
          AttachKept(lim, r, uid, m, s);
        }
      }
    }
  }

  /** game_route_del always finds the uid in its slot, and detaches exactly that uid. */
  lemma DelKept(lim: Limits, r: Room, uid: int)
    requires RouteInv(lim, r) && ValidUid(lim, uid) && r.ids[uid].using
    ensures RouteInv(lim, Del(lim, r, uid))
    ensures AttachedUids(Del(lim, r, uid)) == AttachedUids(r) - {uid}
    ensures r.maps[r.ids[uid].mapid].sock[r.ids[uid].slot] == uid
  {
    var r' := Del(lim, r, uid);
    assert UidOk(r, uid);
    assert AttachedUids(r') == AttachedUids(r) - {uid};
    assert uid in AttachedUids(r);
    assert SlotOk(r, r.ids[uid].mapid, r.ids[uid].slot);
    OneSlotChanged(lim, r, r', uid, r.ids[uid].mapid, r.ids[uid].slot);
  }

  /** Every queue message, in any order, keeps the three views a bijection. */
  lemma RouteKept(lim: Limits, r: Room, e: Event)
    requires RouteInv(lim, r) && ValidUid(lim, e.uid)
    ensures RouteInv(lim, Handle(lim, r, e).0)
  {
    if !r.fault && e.Connect? {
      AppendKept(lim, r, e.uid);
    } else if !r.fault && r.ids[e.uid].using && e.Close? {
      CloseKept(lim, r, e.uid);
    } else {
      OtherSame(lim, r, e);
      SameRouteKept(lim, r, Handle(lim, r, e).0);
    }
  }

  lemma CloseKept(lim: Limits, r: Room, uid: int)
    requires RouteInv(lim, r) && ValidUid(lim, uid) && r.ids[uid].using && !r.fault
    ensures RouteInv(lim, Handle(lim, r, Close(uid)).0)
  {
    RebuildKept(lim, r, uid);
    DelKept(lim, Rebuild(lim, r, uid), uid);
    var r2 := Del(lim, Rebuild(lim, r, uid), uid);
    hide RouteInv, Rebuild, Del;
    RouteShape(lim, r2);
    SameRouteKept(lim, r2, Handle(lim, r, Close(uid)).0);
  }

  lemma OtherSame(lim: Limits, r: Room, e: Event)
    requires Shape(lim, r) && ValidUid(lim, e.uid)
    requires r.fault || (!e.Connect? && (e.Close? ==> !r.ids[e.uid].using))
    ensures SameRoute(lim, r, Handle(lim, r, e).0)
  {
    hide DisposeLogin, DisposeStart, DisposeMove;
    if !r.fault && r.ids[e.uid].using {
      match e
      case Login(uid) => LoginSame(lim, r, uid);
      case Start(uid, go) => StartSame(lim, r, uid, go);
      case Move(uid, dir) => MoveSame(lim, r, uid, dir);
      case Leave(uid) =>
    }
  }

  lemma LoginSame(lim: Limits, r: Room, uid: int)
    requires Shape(lim, r) && ValidUid(lim, uid)
    ensures SameRoute(lim, r, DisposeLogin(lim, r, uid).0)
  {
    hide EnemyPackets;
  }

  lemma StartSame(lim: Limits, r: Room, uid: int, go: bool)
    requires Shape(lim, r) && ValidUid(lim, uid)
    ensures SameRoute(lim, r, DisposeStart(lim, r, uid, go).0)
  {
  }

  lemma MoveSame(lim: Limits, r: Room, uid: int, dir: int)
    requires Shape(lim, r) && ValidUid(lim, uid)
    ensures SameRoute(lim, r, DisposeMove(lim, r, uid, dir).0)
  {
    hide Stepped;
  }

  /** A slot is in use iff its socket uid is set iff exactly one attached uid maps to it, the uid stored there;
      and the attached uids, the used slots and player_num are equal in number. */
  lemma Bijection(lim: Limits, r: Room)
    requires RouteInv(lim, r)
    ensures forall m, s :: 0 <= m < lim.maps && 0 <= s < lim.perMap ==>
              && (r.maps[m].players[s].using <==> r.maps[m].sock[s] != NO_UID)
              && (r.maps[m].players[s].using <==>
                    exists u :: 0 <= u < lim.uids && r.ids[u] == PlayerId(true, m, s))
    ensures forall u, v :: 0 <= u < lim.uids && 0 <= v < lim.uids && r.ids[u].using && r.ids[v] == r.ids[u] ==> u == v
    ensures forall u :: 0 <= u < lim.uids && r.ids[u].using ==> r.maps[r.ids[u].mapid].sock[r.ids[u].slot] == u
    ensures |UsingSlots(lim, r)| == |AttachedUids(r)| == r.playerNum <= lim.Cap()
  {
    forall m, s | 0 <= m < lim.maps && 0 <= s < lim.perMap
      ensures r.maps[m].players[s].using <==> r.maps[m].sock[s] != NO_UID
      ensures r.maps[m].players[s].using <==> exists u :: 0 <= u < lim.uids && r.ids[u] == PlayerId(true, m, s)
    {
      assert SlotOk(r, m, s);
      assert forall u :: 0 <= u < lim.uids && r.ids[u] == PlayerId(true, m, s) ==> UidOk(r, u);
      if r.maps[m].players[s].using {
        assert r.ids[r.maps[m].sock[s]] == PlayerId(true, m, s);
      }
    }
    forall u | 0 <= u < lim.uids && r.ids[u].using
      ensures r.maps[r.ids[u].mapid].sock[r.ids[u].slot] == u
    {
      assert UidOk(r, u);
    }
    SlotCount(lim, r, AttachedUids(r), UsingSlots(lim, r));
  }

  lemma SlotsHaveUids(lim: Limits, r: Room, us: set<int>, slots: set<(int, int)>)
    requires Shape(lim, r)
    requires forall m, s :: (m, s) in slots ==>
               0 <= m < lim.maps && 0 <= s < lim.perMap && r.maps[m].sock[s] in us
    ensures slots != {} ==> us != {}
  {
    if slots != {} {
      var p :| p in slots;
      var (m, s) := p;
      assert (m, s) in slots;
      assert r.maps[m].sock[s] in us;
    }
  }

  lemma {:induction false} SlotCount(lim: Limits, r: Room, us: set<int>, slots: set<(int, int)>)
    requires RouteInv(lim, r) && us <= AttachedUids(r)
    requires forall m, s :: (m, s) in slots <==>
               0 <= m < lim.maps && 0 <= s < lim.perMap && r.maps[m].sock[s] != NO_UID && r.maps[m].sock[s] in us
    ensures |slots| == |us|
    decreases us
  {
    if us == {} {
      SlotsHaveUids(lim, r, us, slots);
    } else {
      var u :| u in us;
      assert UidOk(r, u);
      var p := (r.ids[u].mapid as int, r.ids[u].slot as int);
      assert (p.0, p.1) in slots;
      forall m, s ensures (m, s) in slots - {p} <==>
          0 <= m < lim.maps && 0 <= s < lim.perMap && r.maps[m].sock[s] != NO_UID && r.maps[m].sock[s] in us - {u}
      {
        if (m, s) in slots { assert SlotOk(r, m, s); }
      }
      SlotCount(lim, r, us - {u}, slots - {p});
    }
  }
}
