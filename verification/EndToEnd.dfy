/** A game service and the way of its messages to one client, together: what the client has received, once everything is
    through, gives it the real room. */
module EndToEnd {
  import opened Util
  import opened GameRoom
  import opened RouteTable
  import opened RoomWorld
  import opened RoomLists
  import opened Replica
  import Framing
  import D = Delivery
  import P = SocketPool
  import S = Sender

  // ---------- every packet names its recipients once ----------

  ghost predicate NamedOnce(packets: seq<Packet>) {
    forall k :: 0 <= k < |packets| ==> NoDup(packets[k].to)
  }

  /** While the lists are exact before and after, a service sends nobody a message twice. */
  lemma RecipientsDistinct(lim: Limits, w: World, e: Event, w': World)
    requires Steps(lim, w, e, w') && ListsOk(lim, w) && ListsOk(lim, w')
    ensures NamedOnce(Handle(lim, w.room, e).1)
  {
    hide RouteInv, ListOk, Handle, PhaseOk, Shape;
    RouteShape(lim, w.room);
    NoFault(lim, w');
    var uid := e.uid;
    if w.room.ids[uid].using && !e.Connect? {
      match e
      case Login(_) => LoginOnce(lim, w, uid);
      case Start(_, go) => if go { StartOnce(lim, w, uid); } else { OthersOnce(lim, w, e); }
      case Move(_, dir) => MoveOnce(lim, w, uid, dir);
      case Close(_) => CloseOnce(lim, w, w', uid);
      case Leave(_) => OthersOnce(lim, w, e);
    } else {
      OthersOnce(lim, w, e);
    }
  }

  lemma NoFault(lim: Limits, w: World)
    requires ListsOk(lim, w)
    ensures !w.room.fault
  {
  }

  lemma LoginOnce(lim: Limits, w: World, uid: int)
    requires WorldInv(lim, w) && ListsOk(lim, w) && ValidUid(lim, uid) && w.room.ids[uid].using
    ensures NamedOnce(Handle(lim, w.room, Login(uid)).1)
  {
    hide Handle, RouteInv, Shape;
    LoginTranscript(lim, w, uid);
  }

  lemma ListOnce(lim: Limits, w: World, m: nat)
    requires Shape(lim, w.room) && m < lim.maps && ListsOk(lim, w)
    ensures 0 <= w.room.maps[m].num <= lim.perMap && NoDup(w.room.maps[m].list[..w.room.maps[m].num])
  {
    assert ListOk(lim, w, m);
  }

  lemma StartOnce(lim: Limits, w: World, uid: int)
    requires WorldInv(lim, w) && ListsOk(lim, w) && ValidUid(lim, uid) && w.room.ids[uid].using
    requires !Handle(lim, w.room, Start(uid, true)).0.fault
    ensures NamedOnce(Handle(lim, w.room, Start(uid, true)).1)
  {
    hide Handle, RouteInv, ListOk;
    ListOnce(lim, w, w.room.ids[uid].mapid);
    StartTables(lim, w.room, uid);
  }

  lemma MoveOnce(lim: Limits, w: World, uid: int, dir: int)
    requires WorldInv(lim, w) && ListsOk(lim, w) && ValidUid(lim, uid) && w.room.ids[uid].using
    ensures NamedOnce(Handle(lim, w.room, Move(uid, dir)).1)
  {
    hide RouteInv, ListOk, Stepped;
    ListOnce(lim, w, w.room.ids[uid].mapid);
  }

  lemma CloseOnce(lim: Limits, w: World, w': World, uid: int)
    requires WorldInv(lim, w) && ListsOk(lim, w) && ValidUid(lim, uid) && w.room.ids[uid].using
    requires ListsOk(lim, w') && w'.room == Handle(lim, w.room, Close(uid)).0
    ensures NamedOnce(Handle(lim, w.room, Close(uid)).1)
  {
    hide Handle, RouteInv, ListOk;
    RouteShape(lim, w.room);
    CloseTables(lim, w, uid);
    ListOnce(lim, w', w.room.ids[uid].mapid);
  }

  lemma OthersOnce(lim: Limits, w: World, e: Event)
    requires WorldInv(lim, w) && ValidUid(lim, e.uid)
    requires e.Connect? || !w.room.ids[e.uid].using || e.Leave? || (e.Start? && !e.go)
    ensures NamedOnce(Handle(lim, w.room, e).1)
  {
    hide RouteInv, Append;
  }

  // ---------- the messages of one client ----------

  lemma {:induction false} OneCopy(to: seq<int>, p: int)
    requires NoDup(to)
    ensures D.Copies(to, p) == if p in to then 1 else 0
  {
    if to != [] {
      assert forall j :: 0 <= j < |to| - 1 ==> to[1..][j] == to[j + 1];
      OneCopy(to[1..], p);
      assert to == [to[0]] + to[1..];
    }
  }

  lemma {:induction false} MailIsAddressed(packets: seq<Packet>, p: int)
    requires NamedOnce(packets)
    ensures D.Mail(packets, p) == AddressedTo(packets, p)
  {
    if packets != [] {
      var front, last := packets[..|packets| - 1], packets[|packets| - 1];
      MailIsAddressed(front, p);
      assert packets == front + [last];
      D.MailAppend(front, [last], p);
      OneCopy(last.to, p);
      assert D.Mail([last], p) == D.Repeat(last.msg, D.Copies(last.to, p)) + D.Mail([], p);
      assert D.Repeat(last.msg, 1) == [last.msg] + D.Repeat(last.msg, 0);
    }
  }

  // ---------- a service and the way to its clients, interleaved ----------

  datatype Joint = Joint(w: World, n: D.Net)

  datatype Act =
    | Serve(e: Event)       // client p's service handles a message and pushes what it sends
    | Other(a: D.Action)    // another service sends, the router packs, the IO thread works

  /** Pushing packets one after the other. */
  ghost function SendAll(n: D.Net, packets: seq<Packet>): D.Net {
    n.(toRouter := n.toRouter + packets,
       owed := seq(|n.owed|, i requires 0 <= i < |n.owed| => n.owed[i] + D.Mail(packets, i)))
  }

  ghost predicate AllAddressed(n: D.Net, packets: seq<Packet>) {
    forall k :: 0 <= k < |packets| ==> D.Addressed(n, packets[k])
  }

  lemma SendOneMore(pack: D.Packing, n: D.Net, front: seq<Packet>, last: Packet)
    requires D.Enabled(SendAll(n, front), D.Send(last))
    ensures SendAll(n, front + [last]) == D.Next(pack, SendAll(n, front), D.Send(last))
  {
    hide D.Mail, D.Sized;
    var a, b := SendAll(n, front + [last]), D.Next(pack, SendAll(n, front), D.Send(last));
    assert a.toRouter == b.toRouter;
    forall i | 0 <= i < |n.owed| ensures a.owed[i] == b.owed[i] {
      D.MailAppend(front, [last], i);
      D.Regroup(n.owed[i], D.Mail(front, i), D.Mail([last], i));
    }
    assert a.owed == b.owed;
  }

  lemma {:induction false} SendAllKept(pack: D.Packing, n: D.Net, packets: seq<Packet>)
    requires D.Inv(pack, n) && AllAddressed(n, packets)
    ensures D.Inv(pack, SendAll(n, packets))
  {
    hide D.Inv, D.Next, D.Mail;
    if packets == [] {
      SendNothing(n);
    } else {
      var front, last := packets[..|packets| - 1], packets[|packets| - 1];
      SendAllKept(pack, n, front);
      assert D.Addressed(n, last);
      CanSend(pack, SendAll(n, front), n, last);
      SendOneMore(pack, n, front, last);
      D.SendStep(pack, SendAll(n, front), last);
      assert packets == front + [last];
    }
  }

  lemma SendNothing(n: D.Net)
    ensures SendAll(n, []) == n
  {
    assert forall i :: 0 <= i < |n.owed| ==> n.owed[i] + D.Mail([], i) == n.owed[i];
    assert SendAll(n, []).owed == n.owed;
  }

  lemma CanSend(pack: D.Packing, n': D.Net, n: D.Net, packet: Packet)
    requires D.Inv(pack, n') && D.Addressed(n, packet) && n'.pool == n.pool
    ensures D.Enabled(n', D.Send(packet))
  {
  }

  ghost predicate StepOf(pack: D.Packing, lim: Limits, p: int, s: Joint, act: Act, s': Joint) {
    match act
    case Serve(e) =>
      && Steps(lim, s.w, e, s'.w) && AllAddressed(s.n, Handle(lim, s.w.room, e).1)
      && s'.n == SendAll(s.n, Handle(lim, s.w.room, e).1)
    case Other(a) =>
      && s'.w == s.w && D.Enabled(s.n, a) && s'.n == D.Next(pack, s.n, a)
      && (a.Send? ==> p !in a.packet.to)
  }

  /** Client p is attached to the service and connected, and its connection owes it exactly its inbox. */
  ghost predicate Linked(pack: D.Packing, lim: Limits, p: int, s: Joint) {
    && D.Inv(pack, s.n) && WorldInv(lim, s.w) && ValidUid(lim, p) && |s.n.owed| == lim.uids
    && s.w.phase[p] != Absent && D.Connected(s.n.pool, p) && s.n.owed[p] == s.w.inbox[p]
  }

  /** p is still attached and connected, the service's lists are exact, and the IO thread's pool is in order. */
  ghost predicate Healthy(lim: Limits, p: int, s: Joint) {
    && WorldInv(lim, s.w) && ValidUid(lim, p) && ListsOk(lim, s.w)
    && s.w.phase[p] != Absent && D.Connected(s.n.pool, p) && P.Inv(s.n.pool)
  }

  lemma ServeLinked(pack: D.Packing, lim: Limits, p: int, s: Joint, e: Event, s': Joint)
    requires Linked(pack, lim, p, s) && StepOf(pack, lim, p, s, Serve(e), s')
    requires Healthy(lim, p, s) && Healthy(lim, p, s')
    ensures Linked(pack, lim, p, s')
  {
    hide D.Inv, P.Inv, RouteInv, Handle, ListsOk, D.Mail, AddressedTo;
    var packets := Handle(lim, s.w.room, e).1;
    SendAllKept(pack, s.n, packets);
    RecipientsDistinct(lim, s.w, e, s'.w);
    MailIsAddressed(packets, p);
  }

  lemma OtherLinked(pack: D.Packing, lim: Limits, p: int, s: Joint, a: D.Action, s': Joint)
    requires Linked(pack, lim, p, s) && StepOf(pack, lim, p, s, Other(a), s')
    requires Healthy(lim, p, s) && Healthy(lim, p, s')
    ensures Linked(pack, lim, p, s')
  {
    hide D.Inv, P.Inv, RouteInv, D.Mail, D.Enabled;
    D.DeliveryKeptIff(pack, s.n, a);
    if a.Send? { NotForP(a.packet, p); }
    OwedStays(pack, s.n, a, p);
  }

  lemma NotForP(packet: Packet, p: int)
    requires p !in packet.to
    ensures D.Mail([packet], p) == []
  {
    NoCopy(packet.to, p);
  }

  lemma {:induction false} NoCopy(to: seq<int>, p: int)
    requires p !in to
    ensures D.Copies(to, p) == 0
  {
    if to != [] { NoCopy(to[1..], p); }
  }

  lemma OwedStays(pack: D.Packing, n: D.Net, a: D.Action, p: int)
    requires D.Enabled(n, a) && 0 <= p < |n.owed| && D.Connected(n.pool, p)
    requires a.Send? ==> D.Mail([a.packet], p) == []
    ensures |D.Next(pack, n, a).owed| == |n.owed| && D.Next(pack, n, a).owed[p] == n.owed[p]
  {
    hide D.Mail, P.Next, P.Broadcast, P.Inv, P.Enabled;
    assert n.owed[p] + [] == n.owed[p];
  }

  ghost predicate IsRun(pack: D.Packing, lim: Limits, p: int, acts: seq<Act>, ss: seq<Joint>) {
    && |ss| == |acts| + 1
    && forall j :: 0 <= j < |acts| ==> StepOf(pack, lim, p, ss[j], acts[j], ss[j + 1])
  }

  /** From when the client is attached, with nothing owed to it, as long as it stays attached and connected: whatever
      the interleaving of its service, the other services, the router and the IO thread, its connection owes it exactly
      its inbox, the messages its service has sent it. */
  lemma InboxIsOwed(pack: D.Packing, lim: Limits, p: int, acts: seq<Act>, ss: seq<Joint>, i: nat)
    requires IsRun(pack, lim, p, acts, ss) && i < |ss| && Linked(pack, lim, p, ss[0])
    requires forall j :: 0 <= j < |ss| ==> Healthy(lim, p, ss[j])
    ensures Linked(pack, lim, p, ss[i])
  {
    hide Linked, Healthy, StepOf;
    for j := 0 to i
      invariant Linked(pack, lim, p, ss[j])
    {
      match acts[j]
      case Serve(e) => ServeLinked(pack, lim, p, ss[j], e, ss[j + 1]);
      case Other(a) => OtherLinked(pack, lim, p, ss[j], a, ss[j + 1]);
    }
  }

  // ---------- what the client makes of it ----------

  ghost function Unpacked(unpack: Framing.Message -> Msg, ms: seq<Framing.Message>): (r: seq<Msg>) {
    seq(|ms|, k requires 0 <= k < |ms| => unpack(ms[k]))
  }

  /** Each of the messages fits a frame and survives packing. */
  ghost predicate Packable(pack: D.Packing, unpack: Framing.Message -> Msg, msgs: seq<Msg>) {
    forall k :: 0 <= k < |msgs| ==> unpack(pack(msgs[k])) == msgs[k] && |pack(msgs[k]).payload| <= 254
  }

  lemma UnpackedPacked(pack: D.Packing, unpack: Framing.Message -> Msg, msgs: seq<Msg>)
    requires Packable(pack, unpack, msgs)
    ensures Unpacked(unpack, D.Packed(pack, msgs)) == msgs
  {
  }

  /** p plays in a room in order, everything sent has come through to its socket, and nothing was lost on the way. */
  ghost predicate Through(lim: Limits, p: int, s: Joint) {
    && Healthy(lim, p, s) && AllConverged(lim, s.w) && s.w.phase[p] == Playing
    && S.AllLossless(s.n.pool.slots[p].log) && D.UnderWay(s.n) == [] && s.n.pool.slots[p].conn.backlog == []
  }

  /** The bytes p has received decode to messages whose fold is the other players of its map at their true positions. */
  ghost predicate SeesRoom(unpack: Framing.Message -> Msg, lim: Limits, p: int, s: Joint) {
    && WorldInv(lim, s.w) && ValidUid(lim, p) && D.Connected(s.n.pool, p)
    && match Framing.Decode(s.n.pool.slots[p].conn.accepted)
       case None => false
       case Some(got) => Fold(map[], Unpacked(unpack, got)) - {p} == Truth(lim, s.w, p)
  }

  /** The whole way: on such a run, once everything sent has come through to a playing client without loss, the bytes it
      has received give it the real room. */
  lemma ClientSeesRoom(pack: D.Packing, unpack: Framing.Message -> Msg, lim: Limits, p: int, acts: seq<Act>,
                       ss: seq<Joint>, i: nat)
    requires IsRun(pack, lim, p, acts, ss) && i < |ss| && Linked(pack, lim, p, ss[0])
    requires forall j :: 0 <= j < |ss| ==> Healthy(lim, p, ss[j])
    requires Through(lim, p, ss[i]) && p < |ss[i].w.inbox| && Packable(pack, unpack, ss[i].w.inbox[p])
    ensures SeesRoom(unpack, lim, p, ss[i])
  {
    hide Linked, Healthy, StepOf, Through, SeesRoom;
    InboxIsOwed(pack, lim, p, acts, ss, i);
    ThroughSees(pack, unpack, lim, p, ss[i]);
  }

  lemma ThroughSees(pack: D.Packing, unpack: Framing.Message -> Msg, lim: Limits, p: int, s: Joint)
    requires Linked(pack, lim, p, s) && Through(lim, p, s) && Packable(pack, unpack, s.w.inbox[p])
    ensures SeesRoom(unpack, lim, p, s)
  {
    hide D.Inv, P.Inv, RouteInv, S.AllLossless, D.UnderWay, Framing.Decode, Fold, Truth;
    D.ClientReceives(pack, s.n, p);
    UnpackedPacked(pack, unpack, s.w.inbox[p]);
    assert ReplicaOk(lim, s.w, p);
  }

  lemma LinkedHealthy(pack: D.Packing, lim: Limits, p: int, w: World, n: D.Net, n': D.Net)
    requires Linked(pack, lim, p, Joint(w, n)) && ListsOk(lim, w)
    requires D.Inv(pack, n') && D.Connected(n'.pool, p)
    ensures Healthy(lim, p, Joint(w, n'))
  {
    hide P.Inv, RouteInv, ListsOk;
  }

  /** And everything can come through: from any such state of the repaired code in which p plays, its room is in order
      and nothing has been lost on the way to it, the router and the IO thread alone can bring p to see its room. */
  lemma RoomCanBeSeen(pack: D.Packing, unpack: Framing.Message -> Msg, lim: Limits, p: int, s: Joint)
    returns (acts: seq<Act>, ss: seq<Joint>)
    requires Linked(pack, lim, p, s) && AllConverged(lim, s.w) && s.w.phase[p] == Playing && s.n.pool.v == Repaired
    requires S.AllLossless(s.n.pool.slots[p].log) && Packable(pack, unpack, s.w.inbox[p])
    ensures IsRun(pack, lim, p, acts, ss) && ss[0] == s
    ensures forall j :: 0 <= j < |acts| ==> acts[j].Other? && !acts[j].a.Send?
    ensures ss[|acts|].w == s.w && SeesRoom(unpack, lim, p, ss[|acts|])
  {
    hide D.Inv, P.Inv, RouteInv, S.AllLossless, Fold, Truth, D.Next, D.Enabled, SeesRoom, ListsOk, D.UnderWay;
    var actions, nets := D.EverythingGetsThrough(pack, s.n, p);
    acts := seq(|actions|, j requires 0 <= j < |actions| => Other(actions[j]));
    ss := seq(|nets|, j requires 0 <= j < |nets| => Joint(s.w, nets[j]));
    forall j | 0 <= j < |nets| ensures Healthy(lim, p, ss[j]) {
      LinkedHealthy(pack, lim, p, s.w, s.n, nets[j]);
    }
    forall j | 0 <= j < |acts| ensures StepOf(pack, lim, p, ss[j], acts[j], ss[j + 1]) { }
    ClientSeesRoom(pack, unpack, lim, p, acts, ss, |acts|);
  }
}
