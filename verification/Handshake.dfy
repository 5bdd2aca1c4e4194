/** The handshake that the client follows: log in once, start once with nobody's room changing in between,
    then move and close. Runs that follow it keep every replica equal to the real room. */
module Handshake {
  import opened GameRoom
  import opened RouteTable
  import opened RoomWorld
  import opened RoomLists
  import opened Replica

  /** No other uid of u's map has logged in without having started. */
  ghost predicate NobodyPending(lim: Limits, w: World, u: int)
    requires WorldShape(lim, w) && ValidUid(lim, u)
  {
    forall q :: 0 <= q < lim.uids && q != u && w.phase[q] == LoggedIn ==> w.room.ids[q].mapid != w.room.ids[u].mapid
  }

  ghost predicate Disciplined(lim: Limits, w: World, e: Event) {
    && WorldInv(lim, w) && ValidUid(lim, e.uid)
    && (w.room.ids[e.uid].using ==>
          match e
          case Login(u) => w.phase[u] == Attached
          case Start(u, go) => go ==> w.phase[u] == LoggedIn && NobodyPending(lim, w, u)
          case Move(u, _) => w.phase[u] == Playing && NobodyPending(lim, w, u)
          case Close(u) => w.phase[u] == Playing && EveryonePlays(lim, w, u)
          case _ => true)
  }

  /** A client that is about to start has seen the room as it is. */
  ghost predicate FreshOk(lim: Limits, w: World, u: int)
    requires WorldShape(lim, w) && ValidUid(lim, u)
  {
    && (w.phase[u] == Attached ==> w.seen[u] == map[])
    && (w.phase[u] == LoggedIn ==> w.seen[u] == Truth(lim, w, u))
  }

  ghost predicate InStep(lim: Limits, w: World) {
    AllConverged(lim, w) && forall u :: 0 <= u < lim.uids ==> FreshOk(lim, w, u)
  }

  lemma DisciplineMeetsGuards(lim: Limits, w: World, e: Event)
    requires InStep(lim, w) && Disciplined(lim, w, e)
    ensures GuardsMet(lim, w, e)
  {
    hide RouteInv, ListsOk, Truth, Converged, TellsTruth;
    assert PhaseOk(w, e.uid) && FreshOk(lim, w, e.uid) && IdentityOk(lim, w, e.uid);
    if e.Close? && w.room.ids[e.uid].using {
      PlayersFirstWhenAllPlay(lim, w, e.uid);
    }
  }

  lemma PlayersFirstWhenAllPlay(lim: Limits, w: World, u: int)
    requires WorldInv(lim, w) && ValidUid(lim, u) && EveryonePlays(lim, w, u)
    ensures PlayersFirst(lim, w, u, w.room.ids[u].mapid)
  {
    var m := w.room.ids[u].mapid;
    forall s, t | 0 <= s < t < lim.perMap && Counts(w, m, s, u) && Counts(w, m, t, u)
                  && w.phase[w.room.maps[m].sock[t]] == Playing
      ensures w.phase[w.room.maps[m].sock[s]] == Playing
    {
      assert SlotOk(w.room, m, s);
    }
  }

  /** The truth about the map of q does not change while nobody there starts, moves or closes. */
  lemma FreshKept(lim: Limits, w: World, e: Event, q: int)
    requires InStep(lim, w) && Disciplined(lim, w, e) && ValidUid(lim, q)
    ensures FreshOk(lim, Step(lim, w, e), q)
  {
    hide Step, RouteInv, ListsOk, ListGuard, Told, View, Truth;
    assert PhaseOk(w, e.uid) && FreshOk(lim, w, q) && PhaseOk(w, q);
    var w' := Step(lim, w, e);
    var u := e.uid;
    if Quiet(w, e) {
      FreshQuiet(lim, w, e, q);
    } else {
      match e
      case Login(_) =>
        LoginTold(lim, w, u);
        if w'.phase[q] == LoggedIn {
          assert forall p :: 0 <= p < lim.uids && w.phase[p] == Playing ==> PhaseOk(w, p);
          TruthSame(lim, w, w', q);
        }
      case Start(_, _) =>
        assert IdentityOk(lim, w, u);
        StartTold(lim, w, u);
        if w'.phase[q] == LoggedIn { TruthSame(lim, w, w', q); }
      case Move(_, dir) =>
        MoveTold(lim, w, u, dir);
        if w'.phase[q] == LoggedIn { TruthSame(lim, w, w', q); }
      case Close(_) =>
        PlayersFirstWhenAllPlay(lim, w, u);
        CloseTold(lim, w, u);
        if w'.phase[q] == LoggedIn { TruthSame(lim, w, w', q); }
    }
  }

  lemma FreshQuiet(lim: Limits, w: World, e: Event, q: int)
    requires InStep(lim, w) && Disciplined(lim, w, e) && ValidUid(lim, q) && Quiet(w, e)
    ensures FreshOk(lim, Step(lim, w, e), q)
  {
    hide Step, RouteInv, ListsOk, ListGuard, View, Truth;
    var w' := Step(lim, w, e);
    forall p | 0 <= p < lim.uids ensures Unmoved(lim, w, w', p) || Joined(lim, w, w', p) {
      if e.Connect? { ConnectStep(lim, w, e.uid, p); } else { IdleStep(lim, w, e, p); }
    }
    assert FreshOk(lim, w, q) && (Unmoved(lim, w, w', q) || Joined(lim, w, w', q));
    if w'.phase[q] == LoggedIn {
      forall p | 0 <= p < lim.uids
        ensures PlayingOn(w', p, w.room.ids[q].mapid) <==> PlayingOn(w, p, w.room.ids[q].mapid)
        ensures PlayingOn(w, p, w.room.ids[q].mapid) ==> PlayerOf(w'.room, p).pos == PlayerOf(w.room, p).pos
      {
        assert Unmoved(lim, w, w', p) || Joined(lim, w, w', p);
      }
      TruthSame(lim, w, w', q);
    }
  }

  lemma DisciplinedStep(lim: Limits, w: World, e: Event, w': World)
    requires Steps(lim, w, e, w') && InStep(lim, w) && Disciplined(lim, w, e)
    ensures InStep(lim, w')
  {
    hide Step, Orderly, Converged, ReplicaGuard, ListGuard, Disciplined, RouteInv;
    DisciplineMeetsGuards(lim, w, e);
    ReplicaStep(lim, w, e, w');
    forall q | 0 <= q < lim.uids ensures FreshOk(lim, w', q) { FreshKept(lim, w, e, q); }
  }

  lemma InitInStep(lim: Limits, garbage: seq<seq<Player>>)
    requires 0 < lim.maps && 0 < lim.perMap && 0 < lim.uids
    requires |garbage| == lim.maps
    requires forall m :: 0 <= m < lim.maps ==> |garbage[m]| == lim.perMap
    ensures InStep(lim, InitWorld(lim, garbage))
  {
    InitRoute(lim, garbage);
    var w := InitWorld(lim, garbage);
    forall u | 0 <= u < lim.uids
      ensures PhaseOk(w, u) && IdentityOk(lim, w, u) && WaitingOk(w, u) && FreshOk(lim, w, u)
    {
    }
    forall m | 0 <= m < lim.maps ensures ListOk(lim, w, m) {
      assert w.room.maps[m].list[..0] == [];
    }
  }

  /** Replica convergence: on every run that follows the handshake, in every state and for every playing uid p,
      folding what was sent to p since it was attached gives exactly the other playing uids of p's map and
      their true positions. */
  lemma ReplicasConverge(lim: Limits, garbage: seq<seq<Player>>, ws: seq<World>, es: seq<Event>, i: nat, p: int)
    requires 0 < lim.maps && 0 < lim.perMap && 0 < lim.uids
    requires |garbage| == lim.maps && forall m :: 0 <= m < lim.maps ==> |garbage[m]| == lim.perMap
    requires IsRun(lim, ws, es) && ws[0] == InitWorld(lim, garbage)
    requires forall k :: 0 <= k < |es| ==> Disciplined(lim, ws[k], es[k])
    requires i <= |es| && ValidUid(lim, p)
    ensures WorldInv(lim, ws[i]) && ListsOk(lim, ws[i])
    ensures ws[i].phase[p] == Playing ==> Fold(map[], ws[i].inbox[p]) - {p} == Truth(lim, ws[i], p)
  {
    hide Steps, Disciplined, InStep, InitWorld, WorldInv, ListsOk, Truth, Fold;
    InitInStep(lim, garbage);
    for k := 0 to i
      invariant InStep(lim, ws[k])
    {
      DisciplinedStep(lim, ws[k], es[k], ws[k + 1]);
    }
    InStepMeans(lim, ws[i], p);
  }

  lemma InStepMeans(lim: Limits, w: World, p: int)
    requires InStep(lim, w) && ValidUid(lim, p)
    ensures WorldInv(lim, w) && ListsOk(lim, w)
    ensures w.phase[p] == Playing ==> Fold(map[], w.inbox[p]) - {p} == Truth(lim, w, p)
  {
    assert ReplicaOk(lim, w, p);
  }

  /** On every run that follows the handshake the commented-out assert of rebuild holds at every close. */
  lemma RebuildAssertHolds(lim: Limits, garbage: seq<seq<Player>>, ws: seq<World>, es: seq<Event>, i: nat)
    requires 0 < lim.maps && 0 < lim.perMap && 0 < lim.uids
    requires |garbage| == lim.maps && forall m :: 0 <= m < lim.maps ==> |garbage[m]| == lim.perMap
    requires IsRun(lim, ws, es) && ws[0] == InitWorld(lim, garbage)
    requires forall k :: 0 <= k < |es| ==> Disciplined(lim, ws[k], es[k])
    requires i < |es| && es[i].Close?
    ensures WorldInv(lim, ws[i]) && ValidUid(lim, es[i].uid)
    ensures var r, uid := ws[i].room, es[i].uid;
            r.ids[uid].using ==>
              |Others(r.maps[r.ids[uid].mapid].sock, uid)| == r.maps[r.ids[uid].mapid].num - 1
  {
    hide Steps, InStep, InitWorld, WorldInv, ListsOk, Others, EveryonePlays;
    ReplicasConverge(lim, garbage, ws, es, i, 0);
    assert Disciplined(lim, ws[i], es[i]);
    InRange(lim, ws[i], es[i].uid);
    if ws[i].room.ids[es[i].uid].using { RebuiltCountIff(lim, ws[i], es[i].uid); }
  }

  lemma InRange(lim: Limits, w: World, uid: int)
    requires WorldInv(lim, w) && ValidUid(lim, uid)
    ensures |w.room.ids| == lim.uids && |w.room.maps| == lim.maps && w.room.ids[uid].mapid < lim.maps
  {
  }
}
