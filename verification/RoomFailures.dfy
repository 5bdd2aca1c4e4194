/** Runs from the empty room on which the code misses its intentions. */
module RoomFailures {
  import opened Util
  import opened GameRoom
  import opened RouteTable
  import opened RoomWorld
  import opened RoomLists
  import opened Replica
  import opened Handshake
  import opened Admission
  import opened Positions

  ghost predicate Sized(lim: Limits, garbage: seq<seq<Player>>) {
    && 0 < lim.maps && 0 < lim.perMap && 0 < lim.uids
    && |garbage| == lim.maps && forall m :: 0 <= m < lim.maps ==> |garbage[m]| == lim.perMap
  }

  lemma InitIsInv(lim: Limits, garbage: seq<seq<Player>>)
    requires Sized(lim, garbage)
    ensures WorldInv(lim, InitWorld(lim, garbage)) && InStep(lim, InitWorld(lim, garbage))
  {
    InitInStep(lim, garbage);
  }

  /** The states of the run that the events es lead through. */
  ghost function States(lim: Limits, garbage: seq<seq<Player>>, es: seq<Event>): (ws: seq<World>)
    requires Sized(lim, garbage) && ValidEvents(lim, es)
    ensures IsRun(lim, ws, es) && ws[0] == InitWorld(lim, garbage)
  {
    InitIsInv(lim, garbage);
    Run(lim, InitWorld(lim, garbage), es)
  }

  // ---------- admission ----------

  /** The uids us, and nobody else, sit in the first slots of map 0, and none of them has started. */
  ghost predicate Crowd(lim: Limits, r: Room, us: seq<int>) {
    && RouteInv(lim, r) && !r.fault && |us| <= lim.perMap && r.playerNum == |us| && r.maps[0].num == 0
    && (forall s :: 0 <= s < lim.perMap ==> (r.maps[0].players[s].using <==> s < |us|))
    && (forall u :: 0 <= u < lim.uids && u !in us ==> !r.ids[u].using)
  }

  lemma CrowdGrows(lim: Limits, r: Room, us: seq<int>, u: int)
    requires Crowd(lim, r, us) && |us| < lim.perMap && ValidUid(lim, u) && u !in us
    ensures Crowd(lim, Handle(lim, r, Connect(u)).0, us + [u])
  {
    hide RouteInv, Attach, HasPlace, Crowd, Append, LowestFree, LowestMap;
    CrowdShape(lim, r, us, u);
    CrowdPlace(lim, r, us);
    AppendKept(lim, r, u);
    AdmissionIff(lim, r, u);
    CrowdAttached(lim, r, us, u);
  }

  lemma CrowdShape(lim: Limits, r: Room, us: seq<int>, u: int)
    requires Crowd(lim, r, us) && |us| < lim.perMap && ValidUid(lim, u) && u !in us
    ensures RouteInv(lim, r) && Shape(lim, r) && !r.fault && !r.ids[u].using
    ensures LowestMap(lim, r.maps, 0) == Some(0) && LowestFree(r.maps[0].players, 0) == Some(|us|)
  {
    hide RouteInv;
    RouteShape(lim, r);
    LowestFreeIs(r.maps[0].players, 0);
    assert |r.maps[0].players| == lim.perMap && !r.maps[0].players[|us|].using;
    assert LowestFree(r.maps[0].players, 0).Some?;
    assert !(LowestFree(r.maps[0].players, 0).value < |us|);
  }

  lemma CrowdPlace(lim: Limits, r: Room, us: seq<int>)
    requires Crowd(lim, r, us) && |us| < lim.perMap
    ensures r.playerNum < lim.Cap() && HasPlace(lim, r)
  {
    hide RouteInv;
    RouteShape(lim, r);
    assert !r.maps[0].players[|us|].using;
    assert LowestCounted(lim, r, 0) && FreeSlotOn(lim, r, 0);
    assert lim.perMap <= lim.maps * lim.perMap;
  }

  lemma CrowdAttached(lim: Limits, r: Room, us: seq<int>, u: int)
    requires Crowd(lim, r, us) && |us| < lim.perMap && ValidUid(lim, u) && RouteInv(lim, Attach(r, u, 0, |us|))
    ensures Crowd(lim, Attach(r, u, 0, |us|), us + [u])
  {
    hide RouteInv;
    RouteShape(lim, r);
  }

  function Connects(us: seq<int>): seq<Event> {
    seq(|us|, i requires 0 <= i < |us| => Connect(us[i]))
  }

  /** Any distinct clients, as many as fit on one map, connect and none of them starts: then the next client is refused,
      whatever the number of maps. */
  lemma WaitingClientsBlock(lim: Limits, garbage: seq<seq<Player>>, us: seq<int>)
    requires Sized(lim, garbage) && |us| == lim.perMap + 1 && NoDup(us)
    requires forall i :: 0 <= i < |us| ==> ValidUid(lim, us[i])
    ensures ValidEvents(lim, Connects(us))
    ensures var ws := States(lim, garbage, Connects(us));
            ws[lim.perMap].room.playerNum == lim.perMap && ws[lim.perMap + 1].room == ws[lim.perMap].room
  {
    hide Step, States, RouteInv;
    var es := Connects(us);
    var ws := States(lim, garbage, es);
    NobodyYet(lim, garbage);
    assert us[..0] == [];
    for k := 0 to lim.perMap
      invariant Crowd(lim, ws[k].room, us[..k])
    {
      assert Steps(lim, ws[k], es[k], ws[k + 1]);
      StepRoom(lim, ws[k], es[k], ws[k + 1]);
      CrowdGrows(lim, ws[k].room, us[..k], us[k]);
      assert us[..k + 1] == us[..k] + [us[k]];
    }
    assert Steps(lim, ws[lim.perMap], es[lim.perMap], ws[lim.perMap + 1]);
    StepRoom(lim, ws[lim.perMap], es[lim.perMap], ws[lim.perMap + 1]);
    CrowdBlocks(lim, ws[lim.perMap].room, us[..lim.perMap], us[lim.perMap]);
  }

  lemma NobodyYet(lim: Limits, garbage: seq<seq<Player>>)
    requires Sized(lim, garbage)
    ensures Crowd(lim, InitWorld(lim, garbage).room, [])
  {
    InitRoute(lim, garbage);
  }

  lemma StepRoom(lim: Limits, w: World, e: Event, w': World)
    requires Steps(lim, w, e, w')
    ensures RouteInv(lim, w.room) && ValidUid(lim, e.uid) && w'.room == Handle(lim, w.room, e).0
  {
    hide Handle, RouteInv;
  }

  lemma CrowdBlocks(lim: Limits, r: Room, us: seq<int>, uid: int)
    requires Crowd(lim, r, us) && |us| == lim.perMap && ValidUid(lim, uid) && uid !in us
    ensures Handle(lim, r, Connect(uid)).0 == r
  {
    AdmissionIff(lim, r, uid);
    forall m | 0 <= m < lim.maps && LowestCounted(lim, r, m) ensures !FreeSlotOn(lim, r, m) {
    }
  }

  /** In the server: any ten waiting clients, and the eleventh is refused, at 10 of 200 places. */
  lemma EleventhClientRefused(garbage: seq<seq<Player>>, us: seq<int>)
    requires |garbage| == 20 && forall m :: 0 <= m < 20 ==> |garbage[m]| == 10
    requires |us| == 11 && NoDup(us) && forall i :: 0 <= i < 11 ==> ValidUid(SERVICE, us[i])
    ensures ValidEvents(SERVICE, Connects(us)) && SERVICE.Cap() == 200
    ensures var ws := States(SERVICE, garbage, Connects(us));
            ws[10].room.playerNum == 10 && ws[11].room == ws[10].room
  {
    WaitingClientsBlock(SERVICE, garbage, us);
  }

  // ---------- lists and replicas ----------

  lemma FirstPlace(lim: Limits, garbage: seq<seq<Player>>)
    requires Sized(lim, garbage)
    ensures var r := InitWorld(lim, garbage).room;
            RouteInv(lim, r) && r.playerNum < lim.Cap() && HasPlace(lim, r) && FreeSlotOn(lim, r, 0)
  {
    InitRoute(lim, garbage);
    var r := InitWorld(lim, garbage).room;
    assert !r.maps[0].players[0].using;
    assert LowestCounted(lim, r, 0) && FreeSlotOn(lim, r, 0);
    assert lim.maps * lim.perMap > 0;
  }

  /** Client a connects, logs in and starts, each in turn and with nobody else there. */
  lemma FirstClient(lim: Limits, garbage: seq<seq<Player>>, a: int, w1: World, w2: World, w3: World)
    requires Sized(lim, garbage) && ValidUid(lim, a)
    requires Steps(lim, InitWorld(lim, garbage), Connect(a), w1) && Steps(lim, w1, Login(a), w2)
    requires Steps(lim, w2, Start(a, true), w3)
    ensures InStep(lim, w1) && InStep(lim, w2) && InStep(lim, w3)
    ensures w1.phase[a] == Attached && w2.phase[a] == LoggedIn && w3.phase[a] == Playing
    ensures w1.room.ids[a].using && w3.room.ids[a].using && w3.room.ids[a].mapid == 0
    ensures w3.phase[a] == Playing && PlayerOf(w3.room, a).pos == Pos(0, 0) && PlayerOf(w3.room, a).step == START_STEP
    ensures forall q :: 0 <= q < lim.uids && q != a ==> w3.phase[q] == Absent && !w3.room.ids[q].using
  {
    hide InStep, Handle, RouteInv, HasPlace, Steps;
    var w0 := InitWorld(lim, garbage);
    FirstPlace(lim, garbage);
    InitIsInv(lim, garbage);
    AdmissionIff(lim, w0.room, a);
    OnMapZero(lim, w0, a);
    Phases(lim, w0, Connect(a), w1);
    DisciplinedStep(lim, w0, Connect(a), w1);
    Phases(lim, w1, Login(a), w2);
    DisciplinedStep(lim, w1, Login(a), w2);
    HandlePlayers(lim, w1.room, Login(a), a);
    Phases(lim, w2, Start(a, true), w3);
    DisciplinedStep(lim, w2, Start(a, true), w3);
    HandlePlayers(lim, w2.room, Start(a, true), a);
  }

  /** While all attached players play and map 0 has a free slot, the next client sits on map 0. */
  lemma OnMapZero(lim: Limits, w: World, uid: int)
    requires InStep(lim, w) && ValidUid(lim, uid) && !w.room.ids[uid].using && FreeSlotOn(lim, w.room, 0)
    requires forall u :: 0 <= u < lim.uids && w.room.ids[u].using ==> w.phase[u] == Playing
    ensures var r' := Handle(lim, w.room, Connect(uid)).0;
            |r'.ids| == lim.uids && r'.ids[uid].using && r'.ids[uid].mapid == 0
  {
    hide Handle;
    InStepMeans(lim, w, uid);
    AdmissionComplete(lim, w, uid);
    FullIffNoFreeSlot(lim, w.room);
  }

  /** What a step does to the phases and the uid table. */
  lemma Phases(lim: Limits, w: World, e: Event, w': World)
    requires Steps(lim, w, e, w') && InStep(lim, w)
    ensures WorldInv(lim, w) && WorldInv(lim, w') && !w.room.fault && ValidUid(lim, e.uid)
    ensures w'.room == Handle(lim, w.room, e).0
    ensures w'.phase == w.phase[e.uid := NextPhase(w.room, w'.room, e, w.phase[e.uid])]
    ensures forall u :: 0 <= u < lim.uids && (u != e.uid || !(e.Connect? || e.Close?)) ==>
              w'.room.ids[u] == w.room.ids[u]
    ensures forall u :: 0 <= u < lim.uids ==> (w.phase[u] != Absent <==> w.room.ids[u].using)
    ensures forall u :: 0 <= u < lim.uids ==> (w'.phase[u] != Absent <==> w'.room.ids[u].using)
  {
    hide Handle, RouteInv;
    RouteShape(lim, w.room);
    WorldKept(lim, w, e);
    HandleIds(lim, w.room, e);
    forall u | 0 <= u < lim.uids
      ensures (w.phase[u] != Absent <==> w.room.ids[u].using) && (w'.phase[u] != Absent <==> w'.room.ids[u].using)
    {
      assert PhaseOk(w, u) && PhaseOk(w', u);
    }
  }

  /** Any client that starts twice breaks the list of its map. */
  lemma SecondStartBreaksList(lim: Limits, garbage: seq<seq<Player>>, a: int)
    requires Sized(lim, garbage) && ValidUid(lim, a)
    ensures var es := [Connect(a), Login(a), Start(a, true), Start(a, true)];
            && ValidEvents(lim, es)
            && ListsOk(lim, States(lim, garbage, es)[3]) && !ListsOk(lim, States(lim, garbage, es)[4])
  {
    hide Step, InStep, ListsOk, States;
    var es := [Connect(a), Login(a), Start(a, true), Start(a, true)];
    var ws := States(lim, garbage, es);
    assert Steps(lim, ws[0], es[0], ws[1]) && Steps(lim, ws[1], es[1], ws[2]);
    assert Steps(lim, ws[2], es[2], ws[3]) && Steps(lim, ws[3], es[3], ws[4]);
    FirstClient(lim, garbage, a, ws[1], ws[2], ws[3]);
    InStepMeans(lim, ws[3], a);
    StartList(lim, ws[3], a);
  }

  /** So does any client that connects and closes without having started. */
  lemma EarlyCloseBreaksList(lim: Limits, garbage: seq<seq<Player>>, a: int)
    requires Sized(lim, garbage) && ValidUid(lim, a)
    ensures var es := [Connect(a), Close(a)];
            && ValidEvents(lim, es)
            && ListsOk(lim, States(lim, garbage, es)[1]) && !ListsOk(lim, States(lim, garbage, es)[2])
  {
    hide Step, InStep, ListsOk, States, Handle, HasPlace, RouteInv;
    var es := [Connect(a), Close(a)];
    var ws := States(lim, garbage, es);
    assert Steps(lim, ws[0], es[0], ws[1]) && Steps(lim, ws[1], es[1], ws[2]);
    InitIsInv(lim, garbage);
    FirstPlace(lim, garbage);
    AdmissionIff(lim, ws[0].room, a);
    Phases(lim, ws[0], es[0], ws[1]);
    DisciplinedStep(lim, ws[0], es[0], ws[1]);
    InStepMeans(lim, ws[1], a);
    CloseList(lim, ws[1], a);
  }

  /** With nobody but uid a attached, one of the first two slots of map 0 is free. */
  lemma OneSeatTaken(lim: Limits, r: Room, a: int)
    requires RouteInv(lim, r) && 2 <= lim.perMap
    requires forall q :: 0 <= q < lim.uids && q != a ==> !r.ids[q].using
    ensures FreeSlotOn(lim, r, 0)
  {
    assert SlotOk(r, 0, 0) && SlotOk(r, 0, 1);
    assert !r.maps[0].players[0].using || !r.maps[0].players[1].using;
  }

  /** Client b connects and logs in while client a plays and stands still. */
  lemma SecondClient(lim: Limits, a: int, b: int, w3: World, w4: World, w5: World)
    requires 2 <= lim.perMap && ValidUid(lim, a) && ValidUid(lim, b) && a != b && InStep(lim, w3)
    requires Steps(lim, w3, Connect(b), w4) && Steps(lim, w4, Login(b), w5)
    requires w3.phase[a] == Playing && w3.room.ids[a].using && w3.room.ids[a].mapid == 0
    requires PlayerOf(w3.room, a).pos == Pos(0, 0) && PlayerOf(w3.room, a).step == START_STEP
    requires forall q :: 0 <= q < lim.uids && q != a ==> w3.phase[q] == Absent && !w3.room.ids[q].using
    ensures InStep(lim, w5) && w5.phase[a] == Playing && w5.phase[b] == LoggedIn
    ensures w5.room.ids[a].using && w5.room.ids[a].mapid == 0 && w5.room.ids[b].using && w5.room.ids[b].mapid == 0
    ensures PlayerOf(w5.room, a).pos == Pos(0, 0) && PlayerOf(w5.room, a).step == START_STEP
  {
    hide InStep, Handle, RouteInv, Steps;
    Phases(lim, w3, Connect(b), w4);
    OneSeatTaken(lim, w3.room, a);
    OnMapZero(lim, w3, b);
    DisciplinedStep(lim, w3, Connect(b), w4);
    HandlePlayers(lim, w3.room, Connect(b), a);
    Phases(lim, w4, Login(b), w5);
    DisciplinedStep(lim, w4, Login(b), w5);
    HandlePlayers(lim, w4.room, Login(b), a);
  }

  /** Client a moves: all replicas stay right, but what client b was told at its login is no longer true. */
  lemma MovedMeanwhile(lim: Limits, a: int, b: int, w5: World, w6: World)
    requires ValidUid(lim, a) && ValidUid(lim, b) && a != b && InStep(lim, w5)
    requires Steps(lim, w5, Move(a, MOVE_RIGHT), w6)
    requires w5.phase[a] == Playing && w5.phase[b] == LoggedIn
    requires w5.room.ids[a].using && w5.room.ids[a].mapid == 0 && w5.room.ids[b].using && w5.room.ids[b].mapid == 0
    requires PlayerOf(w5.room, a).pos == Pos(0, 0) && PlayerOf(w5.room, a).step == START_STEP
    ensures AllConverged(lim, w6) && w6.phase[b] == LoggedIn && w6.room.ids[b].using
    ensures w6.seen[b] != Truth(lim, w6, b)
  {
    hide Handle, RouteInv, Orderly, Converged, Truth;
    Phases(lim, w5, Move(a, MOVE_RIGHT), w6);
    ReplicaStep(lim, w5, Move(a, MOVE_RIGHT), w6);
    HandlePlayers(lim, w5.room, Move(a, MOVE_RIGHT), a);
    assert FreshOk(lim, w5, b);
    TruthAt(lim, w5, b, a);
    TruthAt(lim, w6, b, a);
    assert PlayingOn(w5, a, 0) && PlayingOn(w6, a, 0);
  }

  lemma StaleStart(lim: Limits, b: int, w6: World, w7: World)
    requires ValidUid(lim, b) && AllConverged(lim, w6) && Steps(lim, w6, Start(b, true), w7)
    requires w6.phase[b] == LoggedIn && w6.seen[b] != Truth(lim, w6, b)
    ensures w7.phase[b] == Playing && View(w7, b) != Truth(lim, w7, b)
  {
    hide Handle, RouteInv, Truth, View, Told, Step;
    assert IdentityOk(lim, w6, b) && WaitingOk(w6, b) && ReplicaOk(lim, w6, b);
    StartTold(lim, w6, b);
    StartReplicaAt(lim, w6, w7, b, b);
  }

  /** Any two clients on one map; the first moves between the second's login and its start, and the second never
      learns. */
  lemma MoveDuringLoginIsMissed(lim: Limits, garbage: seq<seq<Player>>, a: int, b: int)
    requires Sized(lim, garbage) && 2 <= lim.perMap && ValidUid(lim, a) && ValidUid(lim, b) && a != b
    ensures var es := [Connect(a), Login(a), Start(a, true), Connect(b), Login(b), Move(a, MOVE_RIGHT), Start(b, true)];
            && ValidEvents(lim, es)
            && AllConverged(lim, States(lim, garbage, es)[6])
            && var w := States(lim, garbage, es)[7];
               w.phase[b] == Playing && View(w, b) != Truth(lim, w, b)
  {
    hide Step, InStep, ListsOk, States, Truth, View, Handle, RouteInv, Steps, AllConverged;
    var es := [Connect(a), Login(a), Start(a, true), Connect(b), Login(b), Move(a, MOVE_RIGHT), Start(b, true)];
    var ws := States(lim, garbage, es);
    assert Steps(lim, ws[0], es[0], ws[1]) && Steps(lim, ws[1], es[1], ws[2]) && Steps(lim, ws[2], es[2], ws[3]);
    FirstClient(lim, garbage, a, ws[1], ws[2], ws[3]);
    assert Steps(lim, ws[3], es[3], ws[4]) && Steps(lim, ws[4], es[4], ws[5]);
    SecondClient(lim, a, b, ws[3], ws[4], ws[5]);
    assert Steps(lim, ws[5], es[5], ws[6]) && Steps(lim, ws[6], es[6], ws[7]);
    MovedMeanwhile(lim, a, b, ws[5], ws[6]);
    StaleStart(lim, b, ws[6], ws[7]);
  }
}
