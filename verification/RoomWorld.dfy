/** A game service together with its clients: how far each uid has come and what was sent to it. */
module RoomWorld {
  import opened Util
  import opened GameRoom
  import opened RouteTable

  datatype Phase = Absent | Attached | LoggedIn | Playing

  /** inbox: the messages addressed to a uid since it was attached.
      seen: the other players and their positions in the room at the uid's login. */
  datatype World = World(room: Room, phase: seq<Phase>, inbox: seq<seq<Msg>>, seen: seq<map<int, Pos>>)

  function NextPhase(r: Room, r': Room, e: Event, ph: Phase): Phase
    requires 0 <= e.uid < |r.ids| == |r'.ids|
  {
    if r.fault then ph
    else if e.Connect? then (if !r.ids[e.uid].using && r'.ids[e.uid].using then Attached else ph)
    else if !r.ids[e.uid].using then ph
    else match e
      case Login(_) => if ph == Playing then Playing else LoggedIn
      case Start(_, go) => if go then Playing else ph
      case Close(_) => Absent
      case _ => ph
  }

  /** The messages of `packets` that are addressed to p, in order. */
  function AddressedTo(packets: seq<Packet>, p: int): seq<Msg> {
    if packets == [] then []
    else
      var last := packets[|packets| - 1];
      AddressedTo(packets[..|packets| - 1], p) + if p in last.to then [last.msg] else []
  }

  ghost predicate WorldShape(lim: Limits, w: World) {
    Shape(lim, w.room) && |w.phase| == |w.inbox| == |w.seen| == lim.uids
  }

  ghost predicate PlayingOn(w: World, u: int, m: int) {
    && 0 <= u < |w.phase| && u < |w.room.ids|
    && w.phase[u] == Playing && w.room.ids[u].mapid == m
  }

  /** The other playing uids on p's map, with their positions. */
  ghost function Truth(lim: Limits, w: World, p: int): map<int, Pos>
    requires WorldShape(lim, w) && ValidUid(lim, p)
  {
    map q | q in Below(lim.uids) && q != p && PlayingOn(w, q, w.room.ids[p].mapid) :: PlayerOf(w.room, q).pos
  }

  ghost function NextSeen(lim: Limits, w: World, e: Event, joined: bool): seq<map<int, Pos>>
    requires WorldShape(lim, w) && ValidUid(lim, e.uid)
  {
    if joined then w.seen[e.uid := map[]]
    else if !w.room.fault && e.Login? && w.room.ids[e.uid].using then
      w.seen[e.uid := w.seen[e.uid] + Truth(lim, w, e.uid)]
    else w.seen
  }

  ghost function Step(lim: Limits, w: World, e: Event): (w': World)
    requires WorldShape(lim, w) && ValidUid(lim, e.uid) && RouteInv(lim, w.room)
    ensures WorldShape(lim, w') && RouteInv(lim, w'.room)
  {
    RouteKept(lim, w.room, e);
    var (r', packets) := Handle(lim, w.room, e);
    var phase := w.phase[e.uid := NextPhase(w.room, r', e, w.phase[e.uid])];
    var joined := e.Connect? && w.phase[e.uid] == Absent && phase[e.uid] == Attached;
    World(r', phase,
          seq(lim.uids, p requires 0 <= p < lim.uids =>
            (if joined && p == e.uid then [] else w.inbox[p]) + AddressedTo(packets, p)),
          NextSeen(lim, w, e, joined))
  }

  ghost predicate PhaseOk(w: World, u: int)
    requires 0 <= u < |w.phase| == |w.room.ids|
  {
    w.phase[u] != Absent <==> w.room.ids[u].using
  }

  /** Holds on every run. */
  ghost predicate WorldInv(lim: Limits, w: World) {
    && WorldShape(lim, w)
    && RouteInv(lim, w.room)
    && forall u :: 0 <= u < lim.uids ==> PhaseOk(w, u)
  }

  function InitWorld(lim: Limits, garbage: seq<seq<Player>>): World
    requires |garbage| == lim.maps
    requires forall m :: 0 <= m < lim.maps ==> |garbage[m]| == lim.perMap
  {
    World(Init(lim, garbage), seq(lim.uids, _ => Absent), seq(lim.uids, _ => []), seq(lim.uids, _ => map[]))
  }

  /** Only connect and close change the uid table, and only the entry of their own uid. */
  lemma HandleIds(lim: Limits, r: Room, e: Event)
    requires RouteInv(lim, r) && ValidUid(lim, e.uid)
    ensures var r' := Handle(lim, r, e).0;
            && |r'.ids| == lim.uids
            && (forall u :: 0 <= u < lim.uids && u != e.uid ==> r'.ids[u] == r.ids[u])
            && (r.fault || !(e.Connect? || e.Close?) ==> r'.ids == r.ids)
            && (e.Connect? && r.ids[e.uid].using ==> r' == r)
            && (e.Close? && !r.fault ==> r'.ids[e.uid] == r.ids[e.uid].(using := false))
  {
    if !r.fault && e.Connect? {
      AppendKept(lim, r, e.uid);
      hide RouteInv, Append;
    } else if !r.fault && e.Close? && r.ids[e.uid].using {
      hide RouteInv;
      RouteShape(lim, r);
    } else {
      RouteShape(lim, r);
      OtherSame(lim, r, e);
      hide Handle, RouteInv;
    }
  }

  lemma WorldKept(lim: Limits, w: World, e: Event)
    requires WorldInv(lim, w) && ValidUid(lim, e.uid)
    ensures WorldInv(lim, Step(lim, w, e))
  {
    hide Handle, Shape, RouteInv;
    var w' := Step(lim, w, e);
    RouteKept(lim, w.room, e);
    HandleIds(lim, w.room, e);
    assert RouteInv(lim, w'.room);
    RouteShape(lim, w.room);
    RouteShape(lim, w'.room);
    forall u | 0 <= u < lim.uids ensures PhaseOk(w', u) { assert PhaseOk(w, u); }
  }

  ghost predicate ListOk(lim: Limits, w: World, m: int)
    requires Shape(lim, w.room) && 0 <= m < lim.maps
  {
    var mr := w.room.maps[m];
    && 0 <= mr.num <= lim.perMap
    && NoDup(mr.list[..mr.num])
    && forall u :: u in mr.list[..mr.num] <==> PlayingOn(w, u, m)
  }

  /** The service has not run off a table, and every map's broadcast list names exactly its playing uids. */
  ghost predicate ListsOk(lim: Limits, w: World) {
    Shape(lim, w.room) && !w.room.fault && forall m :: 0 <= m < lim.maps ==> ListOk(lim, w, m)
  }

  ghost predicate ValidEvents(lim: Limits, es: seq<Event>) {
    forall i :: 0 <= i < |es| ==> ValidUid(lim, es[i].uid)
  }

  ghost predicate Steps(lim: Limits, w: World, e: Event, w': World) {
    WorldInv(lim, w) && ValidUid(lim, e.uid) && w' == Step(lim, w, e)
  }

  ghost predicate IsRun(lim: Limits, ws: seq<World>, es: seq<Event>) {
    |ws| == |es| + 1 && forall i :: 0 <= i < |es| ==> Steps(lim, ws[i], es[i], ws[i + 1])
  }

  lemma ExtendRun(lim: Limits, ws: seq<World>, es: seq<Event>)
    requires ValidEvents(lim, es) && es != []
    requires IsRun(lim, ws, es[..|es| - 1]) && WorldInv(lim, ws[|es| - 1])
    ensures IsRun(lim, ws + [Step(lim, ws[|es| - 1], es[|es| - 1])], es)
    ensures WorldInv(lim, Step(lim, ws[|es| - 1], es[|es| - 1]))
  {
    hide RouteInv, Handle, PhaseOk;
    WorldKept(lim, ws[|es| - 1], es[|es| - 1]);
  }

  /** The states that the events es lead through, the first and the last included. */
  ghost function Run(lim: Limits, w: World, es: seq<Event>): (ws: seq<World>)
    requires WorldInv(lim, w) && ValidEvents(lim, es)
    ensures IsRun(lim, ws, es) && ws[0] == w && WorldInv(lim, ws[|es|])
    decreases |es|
  {
    if es == [] then [w]
    else
      hide Step, RouteInv;
      var before := Run(lim, w, es[..|es| - 1]);
      ExtendRun(lim, before, es);
      before + [Step(lim, before[|es| - 1], es[|es| - 1])]
  }

  /** The tables after a queue of events, and everything sent on the way. */
  ghost function HandleAll(lim: Limits, r: Room, es: seq<Event>): (res: (Room, seq<Packet>))
    requires RouteInv(lim, r) && ValidEvents(lim, es)
    ensures RouteInv(lim, res.0)
    decreases |es|
  {
    if es == [] then (r, [])
    else
      hide Handle, RouteInv;
      var n := |es| - 1;
      var (before, sent) := HandleAll(lim, r, es[..n]);
      RouteKept(lim, before, es[n]);
      var (after, more) := Handle(lim, before, es[n]);
      (after, sent + more)
  }

  /** Everything the service sends while it goes through the rooms ws, from the k-th message on. */
  ghost function SentFrom(lim: Limits, ws: seq<World>, es: seq<Event>, k: nat): seq<Packet>
    requires IsRun(lim, ws, es) && k <= |es|
    decreases |es| - k
  {
    if k == |es| then []
    else
      RunSteps(lim, ws, es, k);
      Handle(lim, ws[k].room, es[k]).1 + SentFrom(lim, ws, es, k + 1)
  }

  lemma RunSteps(lim: Limits, ws: seq<World>, es: seq<Event>, k: nat)
    requires IsRun(lim, ws, es) && k < |es|
    ensures Steps(lim, ws[k], es[k], ws[k + 1])
  {
  }

  /** The last event of a run adds its own packets at the end. */
  lemma {:induction false} SentLast(lim: Limits, ws: seq<World>, es: seq<Event>, k: nat)
    requires IsRun(lim, ws, es) && k < |es|
    ensures IsRun(lim, ws[..|es|], es[..|es| - 1]) && Steps(lim, ws[|es| - 1], es[|es| - 1], ws[|es|])
    ensures SentFrom(lim, ws, es, k) ==
            SentFrom(lim, ws[..|es|], es[..|es| - 1], k) + Handle(lim, ws[|es| - 1].room, es[|es| - 1]).1
    decreases |es| - k
  {
    hide Steps, Handle;
    var n := |es| - 1;
    forall i | 0 <= i < |es| ensures Steps(lim, ws[i], es[i], ws[i + 1]) { }
    forall i | 0 <= i < n ensures Steps(lim, ws[..n + 1][i], es[..n][i], ws[..n + 1][i + 1]) { }
    if k < n {
      SentLast(lim, ws, es, k + 1);
    }
  }

  /** The service's tables go through a run's rooms, and what it sends is, in order, what it sends for each event in the
      room that the events before it have led to. */
  lemma {:induction false} RunHandles(lim: Limits, w: World, es: seq<Event>)
    requires WorldInv(lim, w) && ValidEvents(lim, es)
    ensures Run(lim, w, es)[|es|].room == HandleAll(lim, w.room, es).0
    ensures SentFrom(lim, Run(lim, w, es), es, 0) == HandleAll(lim, w.room, es).1
    decreases |es|
  {
    hide RouteInv, Handle, WorldInv;
    if es != [] {
      var n := |es| - 1;
      RunHandles(lim, w, es[..n]);
      assert Run(lim, w, es)[..|es|] == Run(lim, w, es[..n]);
      assert Run(lim, w, es)[n] == Run(lim, w, es[..n])[n];
      assert Steps(lim, Run(lim, w, es)[n], es[n], Run(lim, w, es)[n + 1]);
      SentLast(lim, Run(lim, w, es), es, 0);
    }
  }

  lemma {:induction false} AddressedAppend(a: seq<Packet>, b: seq<Packet>, p: int)
    ensures AddressedTo(a + b, p) == AddressedTo(a, p) + AddressedTo(b, p)
  {
    if b == [] {
      assert a + b == a;
    } else {
      AddressedAppend(a, b[..|b| - 1], p);
      assert (a + b)[..|a + b| - 1] == a + b[..|b| - 1];
    }
  }

  /** The step from w to w' attaches p. */
  ghost predicate Joins(w: World, e: Event, w': World, p: int) {
    0 <= p < |w.phase| == |w'.phase| && e == Connect(p) && w.phase[p] == Absent && w'.phase[p] == Attached
  }

  /** From any state of a run on, what p is sent is, in order, what is addressed to it of all that the service sends,
      as long as p is not attached anew. */
  lemma {:induction false} InboxSince(lim: Limits, ws: seq<World>, es: seq<Event>, k: nat, p: int)
    requires IsRun(lim, ws, es) && k <= |es| && ValidUid(lim, p) && WorldShape(lim, ws[k])
    requires forall i :: k <= i < |es| ==> !Joins(ws[i], es[i], ws[i + 1], p)
    ensures WorldShape(lim, ws[|es|])
    ensures ws[|es|].inbox[p] == ws[k].inbox[p] + AddressedTo(SentFrom(lim, ws, es, k), p)
    decreases |es| - k
  {
    hide Handle, RouteInv, Shape, PhaseOk;
    if k == |es| {
      assert ws[k].inbox[p] + [] == ws[k].inbox[p];
    } else {
      RunSteps(lim, ws, es, k);
      RouteKept(lim, ws[k].room, es[k]);
      assert !Joins(ws[k], es[k], ws[k + 1], p);
      var ps, rest := Handle(lim, ws[k].room, es[k]).1, SentFrom(lim, ws, es, k + 1);
      InboxSince(lim, ws, es, k + 1, p);
      AddressedAppend(ps, rest, p);
    }
  }

  /** So a client gets, after what it had, exactly what is addressed to it of the packets that draining the queue sends,
      unless the queue attaches it anew. */
  lemma DrainReaches(lim: Limits, w: World, es: seq<Event>, p: int)
    requires WorldInv(lim, w) && ValidEvents(lim, es) && ValidUid(lim, p)
    requires forall i :: 0 <= i < |es| ==> !Joins(Run(lim, w, es)[i], es[i], Run(lim, w, es)[i + 1], p)
    ensures Run(lim, w, es)[|es|].inbox[p] == w.inbox[p] + AddressedTo(HandleAll(lim, w.room, es).1, p)
  {
    hide Handle, RouteInv, Shape, PhaseOk, Run, AddressedTo, Joins;
    RunHandles(lim, w, es);
    InboxSince(lim, Run(lim, w, es), es, 0, p);
  }
}
