/** When a connecting client gets a place. */
module Admission {
  import opened Util
  import opened GameRoom
  import opened RouteTable
  import opened RoomWorld

  ghost function Row(m: int, perMap: nat): (r: set<(int, int)>)
    ensures |r| == perMap
    ensures forall k, s :: (k, s) in r <==> k == m && 0 <= s < perMap
  {
    if perMap == 0 then {} else Row(m, perMap - 1) + {(m, perMap - 1)}
  }

  ghost function Cells(maps: nat, perMap: nat): (r: set<(int, int)>)
    ensures forall m, s :: (m, s) in r <==> 0 <= m < maps && 0 <= s < perMap
  {
    if maps == 0 then {} else Cells(maps - 1, perMap) + Row(maps - 1, perMap)
  }

  lemma RowsApart(maps: nat, perMap: nat)
    ensures Cells(maps, perMap) !! Row(maps, perMap)
  {
    hide Cells, Row;
    var a, b := Cells(maps, perMap), Row(maps, perMap);
    forall p | p in a ensures p !in b {
      var (m, s) := p;
      assert (m, s) in a;
    }
  }

  lemma {:induction false} CellsSize(maps: nat, perMap: nat)
    ensures |Cells(maps, perMap)| == maps * perMap
  {
    hide Row;
    if maps > 0 {
      CellsSize(maps - 1, perMap);
      RowsApart(maps - 1, perMap);
      assert (maps - 1) * perMap + perMap == maps * perMap;
    }
  }

  /** The cap is reached exactly when no slot is free. */
  lemma FullIffNoFreeSlot(lim: Limits, r: Room)
    requires RouteInv(lim, r)
    ensures r.playerNum == lim.Cap() <==>
            forall m, s :: 0 <= m < lim.maps && 0 <= s < lim.perMap ==> r.maps[m].players[s].using
  {
    hide RouteInv, Cells, AttachedUids, UsingSlots;
    RouteShape(lim, r);
    UsedCells(lim, r);
    Bijection(lim, r);
    CellsSize(lim.maps, lim.perMap);
    SubsetSize(UsingSlots(lim, r), Cells(lim.maps, lim.perMap));
  }

  lemma UsedCells(lim: Limits, r: Room)
    requires Shape(lim, r)
    ensures UsingSlots(lim, r) <= Cells(lim.maps, lim.perMap)
    ensures UsingSlots(lim, r) == Cells(lim.maps, lim.perMap) <==>
            forall m, s :: 0 <= m < lim.maps && 0 <= s < lim.perMap ==> r.maps[m].players[s].using
  {
    hide Cells;
    var used, all := UsingSlots(lim, r), Cells(lim.maps, lim.perMap);
    forall p | p in used ensures p in all {
      var (m, s) := p;
      assert (m, s) in used;
    }
    if used == all {
      forall m, s | 0 <= m < lim.maps && 0 <= s < lim.perMap ensures r.maps[m].players[s].using {
        assert (m, s) in used;
      }
    }
    if forall m, s :: 0 <= m < lim.maps && 0 <= s < lim.perMap ==> r.maps[m].players[s].using {
      forall p | p in all ensures p in used {
        var (m, s) := p;
        assert (m, s) in all;
      }
    }
  }

  /** The socket uids of a map whose slots are all used: perMap distinct attached uids. */
  lemma FullMapUids(lim: Limits, r: Room, m: nat)
    requires RouteInv(lim, r) && m < lim.maps
    requires forall s :: 0 <= s < lim.perMap ==> r.maps[m].players[s].using
    ensures NoDup(r.maps[m].sock)
    ensures forall x :: x in r.maps[m].sock ==> 0 <= x < lim.uids && r.ids[x].using && r.ids[x].mapid == m
  {
    forall s | 0 <= s < lim.perMap
      ensures var x := r.maps[m].sock[s];
              0 <= x < lim.uids && r.ids[x].using && r.ids[x].mapid == m && r.ids[x].slot == s
    {
      assert SlotOk(r, m, s);
    }
  }

  /** When all attached players have started, a map counts perMap players iff all its slots are used. */
  lemma CountIsFull(lim: Limits, w: World, m: nat)
    requires WorldInv(lim, w) && ListsOk(lim, w) && m < lim.maps
    requires forall u :: 0 <= u < lim.uids && w.room.ids[u].using ==> w.phase[u] == Playing
    ensures w.room.maps[m].num == lim.perMap <==>
            forall s :: 0 <= s < lim.perMap ==> w.room.maps[m].players[s].using
  {
    var mr := w.room.maps[m];
    assert ListOk(lim, w, m);
    var list := mr.list[..mr.num];
    if forall s :: 0 <= s < lim.perMap ==> mr.players[s].using {
      FullMapUids(lim, w.room, m);
      forall x | x in mr.sock ensures x in list {
        assert PlayingOn(w, x, m);
      }
      SubElemsSize(mr.sock, list);
    }
    if mr.num == lim.perMap {
      var slots := seq(|list|, i requires 0 <= i < |list| && 0 <= list[i] < lim.uids =>
                         w.room.ids[list[i]].slot as int);
      ListSlots(lim, w, m, list, slots);
      Pigeonhole(slots, lim.perMap);
      forall s | 0 <= s < lim.perMap ensures mr.players[s].using {
        assert s in Elems(slots);
        var i :| 0 <= i < |slots| && slots[i] == s;
        assert SlotOk(w.room, m, s) && UidOk(w.room, list[i]) && PhaseOk(w, list[i]) && list[i] in list;
      }
    }
  }

  lemma ListSlots(lim: Limits, w: World, m: nat, list: seq<int>, slots: seq<int>)
    requires WorldInv(lim, w) && m < lim.maps && NoDup(list)
    requires forall u :: u in list <==> PlayingOn(w, u, m)
    requires |slots| == |list|
    requires forall i :: 0 <= i < |list| && 0 <= list[i] < lim.uids ==> slots[i] == w.room.ids[list[i]].slot
    ensures NoDup(slots)
    ensures forall i :: 0 <= i < |slots| ==> 0 <= slots[i] < lim.perMap && 0 <= list[i] < lim.uids
  {
    forall i | 0 <= i < |list|
      ensures 0 <= list[i] < lim.uids && slots[i] < lim.perMap && w.room.maps[m].sock[slots[i]] == list[i]
    {
      assert list[i] in list;
      assert PlayingOn(w, list[i], m) && PhaseOk(w, list[i]) && UidOk(w.room, list[i]);
    }
  }

  /** With exact lists and all attached players started, an absent uid is admitted exactly when the service is
      below its cap, and it gets the lowest map that has a free slot, and there the lowest free slot. */
  lemma AdmissionComplete(lim: Limits, w: World, uid: int)
    requires WorldInv(lim, w) && ListsOk(lim, w) && ValidUid(lim, uid) && !w.room.ids[uid].using
    requires forall u :: 0 <= u < lim.uids && w.room.ids[u].using ==> w.phase[u] == Playing
    ensures var r' := Handle(lim, w.room, Connect(uid)).0;
            && |r'.ids| == lim.uids
            && (r'.ids[uid].using <==> w.room.playerNum < lim.Cap())
            && (r'.ids[uid].using ==>
                  var m, s := r'.ids[uid].mapid, r'.ids[uid].slot;
                  && m < lim.maps && s < lim.perMap && !w.room.maps[m].players[s].using
                  && (forall k, t :: 0 <= k < m && 0 <= t < lim.perMap ==> w.room.maps[k].players[t].using)
                  && (forall t :: 0 <= t < s ==> w.room.maps[m].players[t].using))
  {
    var r := w.room;
    AppendKept(lim, r, uid);
    LowestMapIs(lim, r.maps, 0);
    FullIffNoFreeSlot(lim, r);
    forall m | 0 <= m < lim.maps
      ensures 0 <= r.maps[m].num <= lim.perMap
      ensures r.maps[m].num == lim.perMap <==> forall s :: 0 <= s < lim.perMap ==> r.maps[m].players[s].using
    {
      assert ListOk(lim, w, m);
      CountIsFull(lim, w, m);
    }
    hide RouteInv;
    match LowestMap(lim, r.maps, 0)
    case None =>
    case Some(m) => LowestFreeIs(r.maps[m].players, 0); FreeCell(lim, r, uid, m);
  }

  lemma FreeCell(lim: Limits, r: Room, uid: int, m: nat)
    requires RouteInv(lim, r) && ValidUid(lim, uid) && !r.ids[uid].using && r.playerNum < lim.Cap()
    requires LowestMap(lim, r.maps, 0) == Some(m) && m < lim.maps && LowestFree(r.maps[m].players, 0).Some?
    ensures |Append(lim, r, uid).ids| == lim.uids && Append(lim, r, uid).ids[uid].using
  {
    LowestFreeIs(r.maps[m].players, 0);
    assert SlotOk(r, m, LowestFree(r.maps[m].players, 0).value);
  }

  /** The lowest map that counts fewer than perMap started players has a free slot. */
  ghost predicate HasPlace(lim: Limits, r: Room)
    requires Shape(lim, r)
  {
    exists m :: 0 <= m < lim.maps && LowestCounted(lim, r, m) && FreeSlotOn(lim, r, m)
  }

  ghost predicate LowestCounted(lim: Limits, r: Room, m: int)
    requires Shape(lim, r) && 0 <= m < lim.maps
  {
    r.maps[m].num < lim.perMap && forall k :: 0 <= k < m ==> lim.perMap <= r.maps[k].num
  }

  ghost predicate FreeSlotOn(lim: Limits, r: Room, m: int)
    requires Shape(lim, r) && 0 <= m < lim.maps
  {
    exists s :: 0 <= s < lim.perMap && !r.maps[m].players[s].using
  }

  /** In every state: an absent uid is admitted exactly when the service is below its cap and the lowest map that counts
      fewer than perMap started players has a free slot; otherwise nothing changes. The gap to the intention is that
      players who are attached but have not started hold slots that the count does not see. */
  lemma AdmissionIff(lim: Limits, r: Room, uid: int)
    requires RouteInv(lim, r) && !r.fault && ValidUid(lim, uid) && !r.ids[uid].using
    ensures var r' := Handle(lim, r, Connect(uid)).0;
            && |r'.ids| == lim.uids
            && (r'.ids[uid].using <==> r.playerNum < lim.Cap() && HasPlace(lim, r))
            && (!r'.ids[uid].using ==> r' == r)
  {
    AppendKept(lim, r, uid);
    LowestMapIs(lim, r.maps, 0);
    hide RouteInv;
    RouteShape(lim, r);
    match LowestMap(lim, r.maps, 0)
    case None =>
    case Some(m) =>
      assert LowestCounted(lim, r, m);
      LowestFreeIs(r.maps[m].players, 0);
      if FreeSlotOn(lim, r, m) && r.playerNum < lim.Cap() { FreeCell(lim, r, uid, m); }
  }
}
