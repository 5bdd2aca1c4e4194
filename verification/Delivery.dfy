/** From the game services to the clients: packets pass the queue to the router, are packed into frames, pass the queue
    to the IO thread, and are broadcast to the recipients' sockets, all threads interleaving. */
module Delivery {
  import opened Util
  import Framing
  import G = GameRoom
  import P = SocketPool
  import S = Sender

  /** How the router packs a message: its type byte and its payload, which is generated code and left open. */
  type Packing = G.Msg -> Framing.Message

  /** packet: what buf was packed from. */
  datatype Parcel = Parcel(packet: G.Packet, buf: seq<byte>)

  /** toRouter, toIo: the two queues. owed: per socket, the messages addressed to it that were under way when its client
      was accepted, and all that were sent since. */
  datatype Net = Net(pool: P.Pool, toRouter: seq<G.Packet>, toIo: seq<Parcel>, owed: seq<seq<G.Msg>>)

  datatype Action =
    | Send(packet: G.Packet)                          // a game service pushes a packet
    | Pack                                            // the router packs the next packet
    | Broadcast(answers: seq<S.WriteResult>)          // the IO thread sends the next frame to its recipients
    | Io(event: P.Action)                             // any other event of the IO thread

  // ---------- who gets what ----------

  function Copies(to: seq<int>, i: int): nat {
    if to == [] then 0 else (if to[0] == i then 1 else 0) + Copies(to[1..], i)
  }

  function Repeat<T>(x: T, n: nat): seq<T> {
    if n == 0 then [] else [x] + Repeat(x, n - 1)
  }

  /** The messages that socket i is to get out of the packets. */
  function Mail(packets: seq<G.Packet>, i: int): seq<G.Msg> {
    if packets == [] then []
    else Repeat(packets[0].msg, Copies(packets[0].to, i)) + Mail(packets[1..], i)
  }

  ghost function Frames(pack: Packing, msgs: seq<G.Msg>): seq<byte> {
    if msgs == [] then [] else Framing.Frame(pack(msgs[0])) + Frames(pack, msgs[1..])
  }

  lemma Regroup<T>(x: seq<T>, y: seq<T>, z: seq<T>)
    ensures x + y + z == x + (y + z)
  {
  }

  lemma {:induction false} MailAppend(a: seq<G.Packet>, b: seq<G.Packet>, i: int)
    ensures Mail(a + b, i) == Mail(a, i) + Mail(b, i)
  {
    hide Repeat, Copies;
    if a == [] {
      assert a + b == b;
    } else {
      MailAppend(a[1..], b, i);
      assert (a + b)[1..] == a[1..] + b && (a + b)[0] == a[0];
      Regroup(Repeat(a[0].msg, Copies(a[0].to, i)), Mail(a[1..], i), Mail(b, i));
    }
  }

  lemma {:induction false} FramesAppend(pack: Packing, a: seq<G.Msg>, b: seq<G.Msg>)
    ensures Frames(pack, a + b) == Frames(pack, a) + Frames(pack, b)
  {
    hide Framing.Frame;
    if a == [] {
      assert a + b == b;
    } else {
      FramesAppend(pack, a[1..], b);
      assert (a + b)[1..] == a[1..] + b && (a + b)[0] == a[0];
      Regroup(Framing.Frame(pack(a[0])), Frames(pack, a[1..]), Frames(pack, b));
    }
  }

  function Packets(parcels: seq<Parcel>): seq<G.Packet> {
    seq(|parcels|, k requires 0 <= k < |parcels| => parcels[k].packet)
  }

  /** Everything between the services and the sockets, oldest first. */
  function UnderWay(n: Net): seq<G.Packet> {
    Packets(n.toIo) + n.toRouter
  }

  // ---------- the steps ----------

  ghost predicate Sized(n: Net) {
    && P.Inv(n.pool) && |n.owed| == |n.pool.slots|
    && forall k :: 0 <= k < |UnderWay(n)| ==> Addressed(n, UnderWay(n)[k])
  }

  ghost predicate Addressed(n: Net, packet: G.Packet) {
    forall j :: 0 <= j < |packet.to| ==> 0 <= packet.to[j] < |n.pool.slots|
  }

  ghost predicate Enabled(n: Net, a: Action) {
    && Sized(n)
    && match a
       case Send(packet) => Addressed(n, packet)
       case Pack => n.toRouter != []
       case Broadcast(answers) => n.toIo != [] && |answers| == |n.toIo[0].packet.to|
       case Io(event) => P.Enabled(n.pool, event) && !event.SendOne?
  }

  ghost function Nats(to: seq<int>): (r: seq<nat>)
    requires forall j :: 0 <= j < |to| ==> 0 <= to[j]
    ensures |r| == |to| && forall j :: 0 <= j < |to| ==> r[j] == to[j]
  {
    seq(|to|, j requires 0 <= j < |to| => to[j])
  }

  ghost function Next(pack: Packing, n: Net, a: Action): Net
    requires Enabled(n, a)
  {
    match a
    case Send(packet) =>
      n.(toRouter := n.toRouter + [packet],
         owed := seq(|n.owed|, i requires 0 <= i < |n.owed| => n.owed[i] + Mail([packet], i)))
    case Pack =>
      n.(toRouter := n.toRouter[1..],
         toIo := n.toIo + [Parcel(n.toRouter[0], Framing.Frame(pack(n.toRouter[0].msg)))])
    case Broadcast(answers) =>
      FirstAddressed(n);
      n.(toIo := n.toIo[1..],
         pool := P.Broadcast(n.pool, Nats(n.toIo[0].packet.to), n.toIo[0].buf, answers))
    case Io(event) =>
      var pool := P.Next(n.pool, event);
      n.(pool := pool,
         owed := seq(|n.owed|, i requires 0 <= i < |n.owed| =>
           if Connected(pool, i) && !Connected(n.pool, i) then Mail(UnderWay(n), i) else n.owed[i]))
  }

  lemma FirstAddressed(n: Net)
    requires Sized(n) && n.toIo != []
    ensures Addressed(n, n.toIo[0].packet)
  {
    assert UnderWay(n)[0] == n.toIo[0].packet;
  }

  ghost predicate Connected(p: P.Pool, i: int) {
    0 <= i < |p.slots| && p.slots[i].kind.ConnectAdd?
  }

  // ---------- the invariant ----------

  /** What was submitted to the sender of a connected client, and then what is under way to it, is what it is owed. */
  ghost predicate ClientOk(pack: Packing, n: Net, i: int)
    requires 0 <= i < |n.owed|
  {
    Connected(n.pool, i) ==>
      S.Submitted(n.pool.slots[i].log) + Frames(pack, Mail(UnderWay(n), i)) == Frames(pack, n.owed[i])
  }

  ghost predicate PackedOk(pack: Packing, n: Net) {
    forall k :: 0 <= k < |n.toIo| ==> n.toIo[k].buf == Framing.Frame(pack(n.toIo[k].packet.msg))
  }

  ghost predicate Inv(pack: Packing, n: Net) {
    Sized(n) && PackedOk(pack, n) && forall i :: 0 <= i < |n.owed| ==> ClientOk(pack, n, i)
  }

  // ---------- a broadcast ----------

  lemma {:induction false} SubmitsAppend(log: seq<S.Event>, e: S.Event)
    ensures S.Run(log + [e]) == S.Step(S.Run(log), e)
    ensures S.Submitted(log + [e]) == S.Submitted(log) + if e.Submit? && S.Run(log).open then e.buf else []
  {
    assert (log + [e])[..|log|] == log;
  }

  ghost predicate InLog(slot: P.Slot) {
    slot.kind.ConnectAdd? ==> slot.conn.open && slot.conn == S.Run(slot.log)
  }

  lemma {:induction false} SlotAfterSubmits(v: Variant, slot: P.Slot, i: int, max: nat, uids: seq<nat>, to: seq<int>,
                                            msg: G.Msg, pack: Packing, answers: seq<S.WriteResult>)
    requires 0 < max && |answers| == |uids| == |to| && InLog(slot)
    requires forall j :: 0 <= j < |to| ==> to[j] == uids[j] < max
    ensures var slot' := P.SlotAfter(v, slot, i, max, uids, Framing.Frame(pack(msg)), answers);
            && InLog(slot')
            && (slot'.kind.ConnectAdd? ==>
                  && slot.kind.ConnectAdd?
                  && S.Submitted(slot'.log) == S.Submitted(slot.log) + Frames(pack, Repeat(msg, Copies(to, i))))
    decreases |uids|
  {
    hide S.Step, S.Run, S.Submitted, Framing.Frame;
    var buf := Framing.Frame(pack(msg));
    if uids == [] {
      assert S.Submitted(slot.log) + [] == S.Submitted(slot.log);
    } else {
      assert uids[0] % max == uids[0];
      var slot1 := if uids[0] % max == i then P.SentSlot(v, slot, buf, answers[0]) else slot;
      SubmitsAppend(slot.log, S.Submit(buf, answers[0]));
      SlotAfterSubmits(v, slot1, i, max, uids[1..], to[1..], msg, pack, answers[1..]);
      if slot.kind.ConnectAdd? && uids[0] == i && slot1.kind.ConnectAdd? {
        var rest := Repeat(msg, Copies(to[1..], i));
        assert Repeat(msg, Copies(to, i)) == [msg] + rest;
        assert ([msg] + rest)[1..] == rest;
      }
    }
  }

  lemma {:induction false} BroadcastKept(p: P.Pool, uids: seq<nat>, buf: seq<byte>, answers: seq<S.WriteResult>)
    requires P.Inv(p) && |answers| == |uids|
    ensures P.Inv(P.Broadcast(p, uids, buf, answers)) <==> !P.Broadcast(p, uids, buf, answers).fault
    ensures p.v == Repaired ==> P.Inv(P.Broadcast(p, uids, buf, answers))
    decreases |uids|
  {
    hide P.SendTo, P.Inv;
    Alive(p);
    if uids != [] {
      P.PoolKeptIff(p, P.SendOne(uids[0], buf, answers[0]));
      P.SendToIs(p, uids[0], buf, answers[0]);
      var p1 := P.SendTo(p, uids[0], buf, answers[0]);
      if p1.fault {
        Dead(P.Broadcast(p1, uids[1..], buf, answers[1..]));
      } else {
        BroadcastKept(p1, uids[1..], buf, answers[1..]);
      }
    }
  }

  lemma Alive(p: P.Pool)
    requires P.Inv(p)
    ensures 0 < |p.slots| && !p.fault
  {
  }

  lemma Dead(p: P.Pool)
    requires p.fault
    ensures !P.Inv(p)
  {
  }

  lemma OldLog(p: P.Pool, i: int)
    requires P.Inv(p) && 0 <= i < |p.slots|
    ensures InLog(p.slots[i])
  {
    assert P.SlotOk(p.slots[i], i);
  }

  // ---------- the other events of the IO thread ----------

  /** A connected client's log goes on, at most by a drain, or it is the empty log of a client just accepted. */
  lemma EventLogs(p: P.Pool, e: P.Action, i: int)
    requires P.Inv(p) && P.Enabled(p, e) && !e.SendOne? && P.Inv(P.Next(p, e)) && 0 <= i < |p.slots|
    ensures var p' := P.Next(p, e);
            && |p'.slots| == |p.slots|
            && (Connected(p', i) && !Connected(p, i) ==> p'.slots[i].log == [])
            && (Connected(p', i) && Connected(p, i) ==>
                  p'.slots[i].log == p.slots[i].log
                  || exists script :: p'.slots[i].log == p.slots[i].log + [S.Writable(script)])
  {
    hide P.SlotOk, P.SweepOk, P.Enter, P.Accept, P.ApplyId, P.LowestFree, S.Step;
    P.RejectedKept(p);
    match e
    case Listen(fd) => P.EnterIs(p, fd, P.ListenNotAdd, false);
    case NetLogicConnect(fd, epollFails) => P.EnterIs(p, fd, P.NetLogic, epollFails);
    case ClientConnects(fd, nonblockFails, epollFails) => ClientLogs(p, fd, nonblockFails, epollFails, i);
    case StartListen(_, _) =>
    case Readable(_, _, _) =>
    case CanWrite(_, _) =>
    case Expel(_) =>
  }

  lemma ClientLogs(p: P.Pool, fd: int, nonblockFails: bool, epollFails: bool, i: int)
    requires P.Inv(p) && P.Inv(P.Accept(p, fd, nonblockFails, epollFails)) && 0 <= i < |p.slots|
    ensures var p' := P.Accept(p, fd, nonblockFails, epollFails);
            && |p'.slots| == |p.slots|
            && (p'.slots[i] == p.slots[i] || (!Connected(p, i) && p'.slots[i].log == []))
  {
    hide P.SlotOk, P.SweepOk, P.Enter, P.Accept, P.ApplyId, P.LowestFree;
    P.AcceptIs(p, fd, nonblockFails, epollFails);
    P.RejectedKept(p);
    P.EnterIs(p, fd, P.ConnectNotAdd, false);
  }

  // ---------- every step ----------

  lemma SendStep(pack: Packing, n: Net, packet: G.Packet)
    requires Inv(pack, n) && Enabled(n, Send(packet))
    ensures Inv(pack, Next(pack, n, Send(packet)))
  {
    hide P.Inv, Mail, Frames, S.Submitted;
    var n' := Next(pack, n, Send(packet));
    assert UnderWay(n') == UnderWay(n) + [packet];
    forall i | 0 <= i < |n'.owed| ensures ClientOk(pack, n', i) {
      assert ClientOk(pack, n, i);
      MailAppend(UnderWay(n), [packet], i);
      FramesAppend(pack, Mail(UnderWay(n), i), Mail([packet], i));
      FramesAppend(pack, n.owed[i], Mail([packet], i));
      if Connected(n.pool, i) {
        Regroup(S.Submitted(n.pool.slots[i].log), Frames(pack, Mail(UnderWay(n), i)), Frames(pack, Mail([packet], i)));
      }
    }
    forall k | 0 <= k < |UnderWay(n')| ensures Addressed(n', UnderWay(n')[k]) {
      if k < |UnderWay(n)| { assert Addressed(n, UnderWay(n)[k]); }
    }
  }

  lemma PackStep(pack: Packing, n: Net)
    requires Inv(pack, n) && Enabled(n, Pack)
    ensures Inv(pack, Next(pack, n, Pack))
  {
    hide P.Inv, Mail, Frames, S.Submitted, Framing.Frame;
    var n' := Next(pack, n, Pack);
    assert UnderWay(n') == UnderWay(n);
    forall i | 0 <= i < |n'.owed| ensures ClientOk(pack, n', i) { assert ClientOk(pack, n, i); }
    forall k | 0 <= k < |UnderWay(n')| ensures Addressed(n', UnderWay(n')[k]) { assert Addressed(n, UnderWay(n)[k]); }
  }

  lemma BroadcastStep(pack: Packing, n: Net, answers: seq<S.WriteResult>)
    requires Inv(pack, n) && Enabled(n, Broadcast(answers))
    ensures Inv(pack, Next(pack, n, Broadcast(answers))) <==> P.Inv(Next(pack, n, Broadcast(answers)).pool)
    ensures n.pool.v == Repaired ==> P.Inv(Next(pack, n, Broadcast(answers)).pool)
  {
    hide P.Inv, Mail, Frames, S.Submitted, Framing.Frame, P.Broadcast, P.SlotAfter, Repeat, Copies;
    Alive(n.pool);
    FirstAddressed(n);
    var packet, to := n.toIo[0].packet, Nats(n.toIo[0].packet.to);
    var n' := Next(pack, n, Broadcast(answers));
    BroadcastKept(n.pool, to, n.toIo[0].buf, answers);
    if P.Inv(n'.pool) {
      Alive(n'.pool);
      P.BroadcastSlots(n.pool, to, n.toIo[0].buf, answers);
      assert UnderWay(n) == [packet] + UnderWay(n');
      forall i | 0 <= i < |n'.owed| ensures ClientOk(pack, n', i) {
        assert ClientOk(pack, n, i);
        OldLog(n.pool, i);
        SlotAfterSubmits(n.pool.v, n.pool.slots[i], i, |n.pool.slots|, to, packet.to, packet.msg, pack, answers);
        FirstMail(packet, UnderWay(n'), i);
        FramesAppend(pack, Repeat(packet.msg, Copies(packet.to, i)), Mail(UnderWay(n'), i));
        Regroup(S.Submitted(n.pool.slots[i].log), Frames(pack, Repeat(packet.msg, Copies(packet.to, i))),
                Frames(pack, Mail(UnderWay(n'), i)));
      }
      forall k | 0 <= k < |UnderWay(n')| ensures Addressed(n', UnderWay(n')[k]) {
        assert Addressed(n, UnderWay(n)[k + 1]);
      }
    }
  }

  lemma FirstMail(packet: G.Packet, rest: seq<G.Packet>, i: int)
    ensures Mail([packet] + rest, i) == Repeat(packet.msg, Copies(packet.to, i)) + Mail(rest, i)
  {
    assert ([packet] + rest)[1..] == rest;
  }

  lemma IoStep(pack: Packing, n: Net, e: P.Action)
    requires Inv(pack, n) && Enabled(n, Io(e))
    ensures Inv(pack, Next(pack, n, Io(e))) <==> P.Inv(Next(pack, n, Io(e)).pool)
    ensures n.pool.v == Repaired ==> P.Inv(Next(pack, n, Io(e)).pool)
  {
    hide P.Inv, Mail, Frames, S.Submitted, S.Run, P.Next, P.Enabled, P.Faults;
    Alive(n.pool);
    P.PoolKeptIff(n.pool, e);
    NoFaults(n.pool, e);
    var n' := Next(pack, n, Io(e));
    if P.Inv(n'.pool) {
      EventLogs(n.pool, e, 0);
      assert UnderWay(n') == UnderWay(n);
      forall i | 0 <= i < |n.owed| ensures ClientOk(pack, n', i) {
        EventLogs(n.pool, e, i);
        assert ClientOk(pack, n, i);
        if Connected(n'.pool, i) { LogGoesOn(pack, n, n', i); }
      }
      forall k | 0 <= k < |UnderWay(n')| ensures Addressed(n', UnderWay(n')[k]) {
        assert Addressed(n, UnderWay(n)[k]);
      }
    }
  }

  lemma NoFaults(p: P.Pool, e: P.Action)
    requires P.Enabled(p, e)
    ensures p.v == Repaired ==> !P.Faults(p, e)
  {
  }

  lemma LogGoesOn(pack: Packing, n: Net, n': Net, i: int)
    requires 0 <= i < |n.owed| == |n.pool.slots| == |n'.owed| == |n'.pool.slots| && UnderWay(n') == UnderWay(n)
    requires ClientOk(pack, n, i) && Connected(n'.pool, i)
    requires n'.owed[i] == if Connected(n.pool, i) then n.owed[i] else Mail(UnderWay(n), i)
    requires !Connected(n.pool, i) ==> n'.pool.slots[i].log == []
    requires Connected(n.pool, i) ==>
               n'.pool.slots[i].log == n.pool.slots[i].log
               || exists script :: n'.pool.slots[i].log == n.pool.slots[i].log + [S.Writable(script)]
    ensures ClientOk(pack, n', i)
  {
    hide Mail, Frames, S.Run;
    var log, log' := n.pool.slots[i].log, n'.pool.slots[i].log;
    if Connected(n.pool, i) {
      if script :| log' == log + [S.Writable(script)] {
        SubmitsAppend(log, S.Writable(script));
        assert S.Submitted(log) + [] == S.Submitted(log);
      }
    } else {
      assert S.Submitted([]) == [];
      assert [] + Frames(pack, Mail(UnderWay(n), i)) == Frames(pack, Mail(UnderWay(n), i));
    }
  }

  /** Every step of every thread keeps all accounts iff it leaves the IO thread's pool in order, which the repaired code
      always does. */
  lemma DeliveryKeptIff(pack: Packing, n: Net, a: Action)
    requires Inv(pack, n) && Enabled(n, a)
    ensures Inv(pack, Next(pack, n, a)) <==> P.Inv(Next(pack, n, a).pool)
    ensures n.pool.v == Repaired ==> P.Inv(Next(pack, n, a).pool)
  {
    hide Next, P.Inv, ClientOk, PackedOk;
    match a
    case Send(packet) => SendStep(pack, n, packet); PoolOf(pack, n, a);
    case Pack => PackStep(pack, n); PoolOf(pack, n, a);
    case Broadcast(answers) => BroadcastStep(pack, n, answers);
    case Io(e) => IoStep(pack, n, e);
  }

  lemma PoolOf(pack: Packing, n: Net, a: Action)
    requires Enabled(n, a) && (a.Send? || a.Pack?)
    ensures Next(pack, n, a).pool == n.pool
  {
  }

  // ---------- whole runs ----------

  function Init(v: Variant, max: nat): Net {
    Net(P.Init(v, max), [], [], seq(max, _ => []))
  }

  ghost predicate IsRun(pack: Packing, v: Variant, max: nat, actions: seq<Action>, nets: seq<Net>) {
    && |nets| == |actions| + 1 && nets[0] == Init(v, max)
    && forall j :: 0 <= j < |actions| ==>
         Enabled(nets[j], actions[j]) && nets[j + 1] == Next(pack, nets[j], actions[j])
  }

  lemma InitInv(pack: Packing, v: Variant, max: nat)
    requires 0 < max
    ensures Inv(pack, Init(v, max))
  {
    hide P.Inv, Mail, Frames, S.Run, S.Submitted;
    P.InitInv(v, max);
  }

  /** On every run all accounts are right in every state iff the IO thread's pool is in order in every state. */
  lemma DeliveryOnRuns(pack: Packing, v: Variant, max: nat, actions: seq<Action>, nets: seq<Net>)
    requires 0 < max && IsRun(pack, v, max, actions, nets)
    ensures (forall j :: 0 <= j < |nets| ==> Inv(pack, nets[j]))
            <==> (forall j :: 0 <= j < |nets| ==> P.Inv(nets[j].pool))
    ensures v == Repaired ==> forall j :: 0 <= j < |nets| ==> Inv(pack, nets[j])
  {
    hide Next, Enabled, Init, P.Inv, ClientOk, PackedOk;
    InitInv(pack, v, max);
    assert nets[0].pool.v == v by { InitVariant(v, max); }
    if v == Repaired || forall j :: 0 <= j < |nets| ==> P.Inv(nets[j].pool) {
      for j := 0 to |actions|
        invariant forall k :: 0 <= k <= j ==> Inv(pack, nets[k])
        invariant nets[j].pool.v == v
      {
        DeliveryKeptIff(pack, nets[j], actions[j]);
        SameVariant(pack, nets[j], actions[j]);
        assert P.Inv(nets[j + 1].pool);
      }
    }
  }

  lemma InitVariant(v: Variant, max: nat)
    ensures Init(v, max).pool.v == v
  {
  }

  lemma SameVariant(pack: Packing, n: Net, a: Action)
    requires Enabled(n, a)
    ensures Next(pack, n, a).pool.v == n.pool.v
  {
    hide P.Next, P.Broadcast, P.Enabled;
    match a
    case Send(_) =>
    case Pack =>
    case Broadcast(answers) =>
      FirstAddressed(n);
      Alive(n.pool);
      BroadcastVariant(n.pool, Nats(n.toIo[0].packet.to), n.toIo[0].buf, answers);
    case Io(e) => P.SameVariant(n.pool, e);
  }

  lemma {:induction false} BroadcastVariant(p: P.Pool, uids: seq<nat>, buf: seq<byte>, answers: seq<S.WriteResult>)
    requires 0 < |p.slots| && |answers| == |uids|
    ensures P.Broadcast(p, uids, buf, answers).v == p.v
    decreases |uids|
  {
    hide P.SendTo;
    if uids != [] && !p.fault {
      P.SendToIs(p, uids[0], buf, answers[0]);
      BroadcastVariant(P.SendTo(p, uids[0], buf, answers[0]), uids[1..], buf, answers[1..]);
    }
  }

  // ---------- what a client has received ----------

  lemma {:induction false} FramesEncode(pack: Packing, msgs: seq<G.Msg>)
    ensures Frames(pack, msgs) == Framing.Encode(Packed(pack, msgs))
  {
    hide Framing.Frame;
    if msgs != [] {
      FramesEncode(pack, msgs[1..]);
      assert Packed(pack, msgs)[1..] == Packed(pack, msgs[1..]);
    }
  }

  function Packed(pack: Packing, msgs: seq<G.Msg>): (r: seq<Framing.Message>) {
    seq(|msgs|, k requires 0 <= k < |msgs| => pack(msgs[k]))
  }

  /** What the kernel has taken for a connected client is a prefix of the frames of all it is owed, in order, as long as
      nothing was lost on the way to the kernel; and once nothing is under way and no block waits, what the client has
      received decodes to exactly the messages it is owed. */
  lemma ClientReceives(pack: Packing, n: Net, i: int)
    requires Inv(pack, n) && 0 <= i < |n.owed| && Connected(n.pool, i) && S.AllLossless(n.pool.slots[i].log)
    ensures n.pool.slots[i].conn.accepted <= Frames(pack, n.owed[i])
    ensures UnderWay(n) == [] && n.pool.slots[i].conn.backlog == []
            && (forall k :: 0 <= k < |n.owed[i]| ==> |pack(n.owed[i][k]).payload| <= 254)
            ==> Framing.Decode(n.pool.slots[i].conn.accepted) == Some(Packed(pack, n.owed[i]))
  {
    hide P.Inv, S.AllLossless, S.Submitted, S.Run, Frames, Mail, Framing.Decode, Framing.Encode;
    assert ClientOk(pack, n, i);
    var slot := n.pool.slots[i];
    OldLog(n.pool, i);
    S.ConservationIff(slot.log);
    assert S.Flow(slot.conn) == S.Submitted(slot.log);
    FramesEncode(pack, n.owed[i]);
    Framing.RoundTripIff(Packed(pack, n.owed[i]));
    if UnderWay(n) == [] && slot.conn.backlog == [] {
      NothingLeft(pack, i);
      assert S.Flow(slot.conn) == slot.conn.accepted;
    }
  }

  lemma NothingLeft(pack: Packing, i: int)
    ensures Frames(pack, Mail([], i)) == []
  {
  }

  // ---------- how everything gets through ----------

  /** The actions from n on; all states are in order, and client i stays connected and is owed no more. */
  ghost predicate Continues(pack: Packing, n: Net, i: int, actions: seq<Action>, nets: seq<Net>) {
    && |nets| == |actions| + 1 && nets[0] == n && 0 <= i < |n.owed|
    && (forall j :: 0 <= j < |actions| ==>
          Enabled(nets[j], actions[j]) && !actions[j].Send? && nets[j + 1] == Next(pack, nets[j], actions[j]))
    && (forall j :: 0 <= j < |nets| ==>
          && Inv(pack, nets[j]) && nets[j].pool.v == n.pool.v && |nets[j].owed| == |n.owed|
          && Connected(nets[j].pool, i) && nets[j].owed[i] == n.owed[i])
  }

  /** Nothing waits for client i, and nothing has been lost on the way to it. */
  ghost predicate Clear(n: Net, i: int) {
    Connected(n.pool, i) && n.pool.slots[i].conn.backlog == [] && S.AllLossless(n.pool.slots[i].log)
  }

  lemma GoOn(pack: Packing, n: Net, i: int, a: Action, actions: seq<Action>, nets: seq<Net>)
    requires Inv(pack, n) && 0 <= i < |n.owed| && Connected(n.pool, i) && Enabled(n, a) && !a.Send?
    requires Continues(pack, Next(pack, n, a), i, actions, nets)
    requires Next(pack, n, a).pool.v == n.pool.v
    requires |Next(pack, n, a).owed| == |n.owed| && Next(pack, n, a).owed[i] == n.owed[i]
    ensures Continues(pack, n, i, [a] + actions, [n] + nets)
  {
    hide Inv, Next, Enabled;
  }

  /** The kernel takes all that waits for a connected client. */
  lemma DrainClient(pack: Packing, n: Net, i: int) returns (e: P.Action)
    requires Inv(pack, n) && n.pool.v == Repaired && 0 <= i < |n.owed| && Connected(n.pool, i)
    requires S.AllLossless(n.pool.slots[i].log)
    ensures Enabled(n, Io(e))
    ensures var n' := Next(pack, n, Io(e));
            && Inv(pack, n') && Clear(n', i) && n'.pool.v == Repaired
            && n'.toRouter == n.toRouter && n'.toIo == n.toIo && |n'.owed| == |n.owed| && n'.owed[i] == n.owed[i]
  {
    hide P.SlotOk, P.SweepOk, S.AllLossless, S.SendBuffer, S.NoHalf, S.Run, S.Step, Mail, ClientOk, PackedOk;
    var slot := n.pool.slots[i];
    var script := S.TakeAll(slot.conn.backlog);
    e := P.CanWrite(i, script);
    OldLog(n.pool, i);
    S.TakeAllDrains(slot.conn);
    S.LosslessFront(slot.log + [S.Writable(script)]);
    assert (slot.log + [S.Writable(script)])[..|slot.log|] == slot.log;
    DeliveryKeptIff(pack, n, Io(e));
    P.SameVariant(n.pool, e);
    P.SentKept(n.pool, i, S.Writable(script));
    P.SentLogs(n.pool, i, S.Writable(script));
    DrainIs(slot.conn, script);
  }

  lemma DrainIs(c: S.Conn, script: seq<S.WriteResult>)
    requires c.open
    ensures S.Step(c, S.Writable(script)) == S.SendBuffer(c, script)
    ensures S.Lossless(c, S.Writable(script)) <==> S.NoHalf(c, script)
  {
  }

  /** A kernel that takes a frame whole for each of k recipients. */
  function Whole(k: nat, buf: seq<byte>): seq<S.WriteResult> {
    seq(k, _ => S.Accepts(|buf|))
  }

  lemma WholeSubmit(c: S.Conn, log: seq<S.Event>, buf: seq<byte>)
    requires c.open && c.backlog == [] && c == S.Run(log) && S.AllLossless(log)
    ensures var e := S.Submit(buf, S.Accepts(|buf|));
            && S.Step(c, e).open && S.Step(c, e).backlog == []
            && S.Step(c, e) == S.Run(log + [e]) && S.AllLossless(log + [e])
  {
    hide S.AllLossless, S.Run, S.StrNCpy;
    var e := S.Submit(buf, S.Accepts(|buf|));
    SubmitsAppend(log, e);
    S.LosslessFront(log + [e]);
    assert (log + [e])[..|log|] == log;
  }

  lemma {:induction false} WholeBroadcast(v: Variant, slot: P.Slot, i: int, max: nat, uids: seq<nat>, buf: seq<byte>)
    requires 0 < max && InLog(slot) && slot.kind.ConnectAdd?
    requires slot.conn.backlog == [] && S.AllLossless(slot.log)
    ensures var slot' := P.SlotAfter(v, slot, i, max, uids, buf, Whole(|uids|, buf));
            && InLog(slot') && slot'.kind.ConnectAdd?
            && slot'.conn.backlog == [] && S.AllLossless(slot'.log)
    decreases |uids|
  {
    hide S.Step, S.Run, S.AllLossless;
    if uids != [] {
      WholeSubmit(slot.conn, slot.log, buf);
      assert Whole(|uids|, buf)[1..] == Whole(|uids[1..]|, buf);
      WholeBroadcast(v, if uids[0] % max == i then P.SentSlot(v, slot, buf, S.Accepts(|buf|)) else slot, i, max,
                     uids[1..], buf);
    }
  }

  /** The next frame reaches all its recipients' kernels. */
  lemma BroadcastWhole(pack: Packing, n: Net, i: int)
    requires Inv(pack, n) && n.pool.v == Repaired && 0 <= i < |n.owed| && Clear(n, i) && n.toIo != []
    ensures var a := Broadcast(Whole(|n.toIo[0].packet.to|, n.toIo[0].buf));
            && Enabled(n, a)
            && Inv(pack, Next(pack, n, a)) && Clear(Next(pack, n, a), i) && Next(pack, n, a).pool.v == Repaired
            && Next(pack, n, a).toRouter == n.toRouter && Next(pack, n, a).toIo == n.toIo[1..]
            && Next(pack, n, a).owed == n.owed
  {
    hide P.Inv, Mail, ClientOk, PackedOk, S.AllLossless, S.Run, P.Broadcast, P.SlotAfter;
    var a := Broadcast(Whole(|n.toIo[0].packet.to|, n.toIo[0].buf));
    Alive(n.pool);
    FirstAddressed(n);
    DeliveryKeptIff(pack, n, a);
    SameVariant(pack, n, a);
    var to := Nats(n.toIo[0].packet.to);
    P.BroadcastSlots(n.pool, to, n.toIo[0].buf, a.answers);
    Alive(Next(pack, n, a).pool);
    OldLog(n.pool, i);
    WholeBroadcast(Repaired, n.pool.slots[i], i, |n.pool.slots|, to, n.toIo[0].buf);
  }

  lemma Packs(pack: Packing, n: Net)
    requires Inv(pack, n) && n.toRouter != []
    ensures Enabled(n, Pack)
    ensures var n' := Next(pack, n, Pack);
            && Inv(pack, n') && n'.pool == n.pool && n'.owed == n.owed
            && |n'.toRouter| == |n.toRouter| - 1 && |n'.toIo| == |n.toIo| + 1
  {
    hide P.Inv, ClientOk, PackedOk;
    PackStep(pack, n);
  }

  /** With a client for whom nothing waits: the router packs all packets, and the IO thread broadcasts all frames. */
  lemma {:induction false} Flush(pack: Packing, n: Net, i: int) returns (actions: seq<Action>, nets: seq<Net>)
    requires Inv(pack, n) && n.pool.v == Repaired && 0 <= i < |n.owed| && Clear(n, i)
    ensures Continues(pack, n, i, actions, nets)
    ensures var n' := nets[|actions|]; UnderWay(n') == [] && Clear(n', i)
    decreases 2 * |n.toRouter| + |n.toIo|
  {
    hide Inv, Next, Enabled;
    if n.toRouter == [] && n.toIo == [] {
      actions, nets := [], [n];
    } else {
      var a := if n.toRouter != [] then Pack else Broadcast(Whole(|n.toIo[0].packet.to|, n.toIo[0].buf));
      if n.toRouter != [] { Packs(pack, n); } else { BroadcastWhole(pack, n, i); }
      var more, rest := Flush(pack, Next(pack, n, a), i);
      GoOn(pack, n, i, a, more, rest);
      actions, nets := [a] + more, [n] + rest;
    }
  }

  /** From any state in order everything can get through to any connected client to whom nothing has been lost: its
      socket is drained, the router packs all packets, the IO thread broadcasts all frames, and no service need do
      anything. The client is then owed what it was owed before, and its kernel has taken all of it. */
  lemma EverythingGetsThrough(pack: Packing, n: Net, i: int) returns (actions: seq<Action>, nets: seq<Net>)
    requires Inv(pack, n) && n.pool.v == Repaired && 0 <= i < |n.owed| && Connected(n.pool, i)
    requires S.AllLossless(n.pool.slots[i].log)
    ensures Continues(pack, n, i, actions, nets)
    ensures var n' := nets[|actions|];
            && UnderWay(n') == [] && Clear(n', i)
            && n'.pool.slots[i].conn.accepted == Frames(pack, n.owed[i])
  {
    hide Inv, Next, Enabled;
    var e := DrainClient(pack, n, i);
    var more, rest := Flush(pack, Next(pack, n, Io(e)), i);
    GoOn(pack, n, i, Io(e), more, rest);
    actions, nets := [Io(e)] + more, [n] + rest;
    AllAccepted(pack, nets[|actions|], i);
  }

  lemma AllAccepted(pack: Packing, n: Net, i: int)
    requires Inv(pack, n) && 0 <= i < |n.owed| && Clear(n, i) && UnderWay(n) == []
    ensures n.pool.slots[i].conn.accepted == Frames(pack, n.owed[i])
  {
    hide P.Inv, S.AllLossless, S.Submitted, S.Run, Frames, Mail;
    assert ClientOk(pack, n, i);
    var slot := n.pool.slots[i];
    OldLog(n.pool, i);
    S.ConservationIff(slot.log);
    NothingLeft(pack, i);
    assert S.Flow(slot.conn) == slot.conn.accepted;
  }
}
