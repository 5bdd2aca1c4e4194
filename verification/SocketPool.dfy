/** The IO thread's pool of sockets: the rotating id allocator and the life of each session. */
module SocketPool {
  import opened Util
  import opened Sender
  import Framing

  datatype SocketType = Invalid | ListenNotAdd | ListenAdd | ConnectNotAdd | ConnectAdd | NetLogic

  datatype Report = Success | Data(content: seq<byte>) | Close

  /** conn is the sender of the slot. The rest is history of the slot's current or last session: trace, the types
      it went through; reports, what the router was told about its id; log, what its sender did. */
  datatype Slot = Slot(fd: int, id: int, kind: SocketType, conn: Conn,
                       trace: seq<SocketType>, reports: seq<Report>, log: seq<Sender.Event>)

  /** v: which code runs the pool; repaired, it refuses a client for whom there is no id, skips a recipient that is not
      connected, and reports a close after a write error for the socket's own id.
      allocId: the cursor. handed: the ids given out since the cursor was last reset.
      zeroReports: closes reported for id 0. fault: an assert failed, or the pool was indexed out of bounds. */
  datatype Pool = Pool(v: Variant, slots: seq<Slot>, allocId: nat, handed: seq<int>, zeroReports: nat, fault: bool)

  const MAX_SOCKET := 32 * 1024

  const EMPTY := Slot(0, 0, Invalid, Sender.Close(FRESH), [], [], [])

  function Init(v: Variant, max: nat): Pool {
    Pool(v, seq(max, _ => EMPTY), 0, [], 0, false)
  }

  // ---------- the code ----------

  function LowestFree(slots: seq<Slot>, from: nat): Option<nat>
    decreases |slots| - from
  {
    if |slots| <= from then None
    else if slots[from].kind.Invalid? then Some(from)
    else LowestFree(slots, from + 1)
  }

  /** apply_id. A cursor at the end is reset, but this call still searches behind the end and answers -1. */
  function ApplyId(p: Pool): (Pool, int) {
    var p1 := if p.allocId >= |p.slots| - 1 then p.(allocId := 0, handed := []) else p;
    match LowestFree(p.slots, p.allocId + 1)
    case None => var none: int := -1; (p1, none)
    case Some(id) => (p1.(allocId := id, handed := p1.handed + [id]), id)
  }

  /** apply_socket; the flag says whether a slot was returned. */
  function ApplySocket(p: Pool, fd: int, id: int, epollFails: bool): (Pool, bool) {
    if !(0 <= id < |p.slots|) || !p.slots[id].kind.Invalid? then (p.(fault := true), false)
    else if epollFails then (p, false)
    else (p.(slots := p.slots[id := Slot(fd, id, Invalid, FRESH, [], [], [])]), true)
  }

  function SetType(p: Pool, i: int, kind: SocketType): Pool
    requires 0 <= i < |p.slots|
  {
    p.(slots := p.slots[i := p.slots[i].(kind := kind, trace := p.slots[i].trace + [kind])])
  }

  function Tell(p: Pool, i: int, report: Report): Pool
    requires 0 <= i < |p.slots|
  {
    p.(slots := p.slots[i := p.slots[i].(reports := p.slots[i].reports + [report])])
  }

  /** Takes a fresh id and gives its slot the type; the id is the one the caller goes on with. */
  function Enter(p: Pool, fd: int, kind: SocketType, epollFails: bool): (Pool, Option<int>) {
    var (p1, id) := ApplyId(p);
    var (p2, ok) := if p.v == Repaired && id == -1 then (p1, false) else ApplySocket(p1, fd, id, epollFails);
    if ok then (SetType(p2, id, kind), Some(id)) else (p2, None)
  }

  /** socket_server_start; the flag says whether the socket is now watched. */
  function Start(p: Pool, i: int, epollFails: bool): (Pool, bool)
    requires 0 <= i < |p.slots|
  {
    var kind := p.slots[i].kind;
    if kind.ConnectNotAdd? || kind.ListenNotAdd? then
      if epollFails then (SetType(p, i, Invalid), false)
      else (SetType(p, i, if kind.ConnectNotAdd? then ConnectAdd else ListenAdd), true)
    else (p, false)
  }

  /** dispose_accept and the start that follows it. fd is accept's answer, -1 if it fails; a failing set_nonblock
      leaves with the id already taken. */
  function Accept(p: Pool, fd: int, nonblockFails: bool, epollFails: bool): Pool {
    if fd == -1 then p
    else if nonblockFails then ApplyId(p).0
    else
      match Enter(p, fd, ConnectNotAdd, false)
      case (p1, None) => p1
      case (p1, Some(id)) =>
        if 0 <= id < |p1.slots| then
          var (p2, started) := Start(p1, id, epollFails);
          if started then Tell(p2, id, Success) else p2
        else p1
  }

  /** close_fd */
  function CloseFd(p: Pool, i: int): Pool
    requires 0 <= i < |p.slots|
  {
    if p.slots[i].kind.Invalid? then p
    else SetType(p.(slots := p.slots[i := p.slots[i].(id := 0, conn := Sender.Close(p.slots[i].conn))]), i, Invalid)
  }

  /** dispose_readmessage on the bytes that arrive before the peer is gone: a whole message is reported with its
      content, anything less closes the slot. */
  function Receive(p: Pool, i: int, incoming: seq<byte>): Pool
    requires 0 <= i < |p.slots|
  {
    if Framing.Whole(incoming) then Tell(p, i, Data(incoming[1..Framing.Size(incoming)]))
    else Tell(CloseFd(p, i), i, Close)
  }

  /** The sender of slot i did e; a write error closes the slot and, as written, reports a close for the id found after
      that, which is 0. */
  function Sent(p: Pool, i: int, e: Sender.Event): Pool
    requires 0 <= i < |p.slots|
  {
    var conn := Sender.Step(p.slots[i].conn, e);
    var p1 := p.(slots := p.slots[i := p.slots[i].(conn := conn, log := p.slots[i].log + [e])]);
    if conn.open then p1
    else if p.v == Repaired then Tell(CloseFd(p1, i), i, Close)
    else CloseFd(p1, i).(zeroReports := p.zeroReports + 1)
  }

  /** One round of broadcast_user_msg: send_data, with its assert. */
  function SendTo(p: Pool, uid: nat, buf: seq<byte>, answer: WriteResult): Pool
    requires 0 < |p.slots|
  {
    var i := uid % |p.slots|;
    if !p.slots[i].kind.ConnectAdd? then p.(fault := p.fault || p.v == AsWritten)
    else Sent(p, i, Submit(buf, answer))
  }

  /** broadcast_user_msg; the kernel answers the k-th write with answers[k]. */
  function Broadcast(p: Pool, uids: seq<nat>, buf: seq<byte>, answers: seq<WriteResult>): (r: Pool)
    requires 0 < |p.slots| && |answers| == |uids|
    ensures |r.slots| == |p.slots|
    decreases |uids|
  {
    if uids == [] || p.fault then p
    else Broadcast(SendTo(p, uids[0], buf, answers[0]), uids[1..], buf, answers[1..])
  }

  datatype Action =
    | Listen(fd: int)                                             // the listening socket gets a slot
    | NetLogicConnect(fd: int, epollFails: bool)                  // the router's wake-up socket gets a slot
    | StartListen(i: int, epollFails: bool)
    | ClientConnects(fd: int, nonblockFails: bool, epollFails: bool)
    | Readable(i: int, incoming: seq<byte>, chops: seq<Framing.ReadResult>) // the bytes, and how reads cut them
    | CanWrite(i: int, script: seq<WriteResult>)
    | SendOne(uid: nat, buf: seq<byte>, answer: WriteResult)      // one recipient of a broadcast
    | Expel(uid: nat)                                             // "service full" or "player error"

  /** Clients connect to a socket that listens. */
  ghost predicate Listening(p: Pool) {
    exists i :: 0 <= i < |p.slots| && p.slots[i].kind.ListenAdd?
  }

  ghost predicate Enabled(p: Pool, a: Action) {
    && 0 < |p.slots| && !p.fault
    && match a
       case ClientConnects(_, _, _) => Listening(p)
       case StartListen(i, _) => 0 <= i < |p.slots| && p.slots[i].kind.ListenNotAdd?
       case Readable(i, _, _) => 0 <= i < |p.slots|
       case CanWrite(i, _) => 0 <= i < |p.slots|
       case _ => true
  }

  ghost function Next(p: Pool, a: Action): Pool
    requires Enabled(p, a)
  {
    match a
    case Listen(fd) => Enter(p, fd, ListenNotAdd, false).0
    case NetLogicConnect(fd, epollFails) => Enter(p, fd, NetLogic, epollFails).0
    case StartListen(i, epollFails) => Start(p, i, epollFails).0
    case ClientConnects(fd, nonblockFails, epollFails) => Accept(p, fd, nonblockFails, epollFails)
    case Readable(i, incoming, _) => if p.slots[i].kind.ConnectAdd? then Receive(p, i, incoming) else p
    case CanWrite(i, script) => if p.slots[i].kind.ConnectAdd? then Sent(p, i, Writable(script)) else p
    case SendOne(uid, buf, answer) => SendTo(p, uid, buf, answer)
    case Expel(uid) => CloseFd(p, uid % |p.slots|)
  }

  // ---------- the allocator ----------

  ghost predicate Free(p: Pool, i: int) {
    0 <= i < |p.slots| && p.slots[i].kind.Invalid?
  }

  ghost predicate NoneAbove(p: Pool) {
    forall i :: p.allocId < i < |p.slots| ==> !Free(p, i)
  }

  ghost predicate Increasing(s: seq<int>) {
    forall i, j :: 0 <= i < j < |s| ==> s[i] < s[j]
  }

  /** The ids of one sweep increase strictly from 1 on, below the pool's size, and the cursor is at the last of them. */
  ghost predicate SweepOk(p: Pool) {
    && Increasing(p.handed)
    && (forall k :: 0 <= k < |p.handed| ==> 0 < p.handed[k] < |p.slots|)
    && p.allocId == if p.handed == [] then 0 else p.handed[|p.handed| - 1]
  }

  lemma {:induction false} LowestFreeIs(slots: seq<Slot>, from: nat)
    ensures match LowestFree(slots, from)
            case None => forall i :: from <= i < |slots| ==> !slots[i].kind.Invalid?
            case Some(k) => from <= k < |slots| && slots[k].kind.Invalid?
                            && forall i :: from <= i < k ==> !slots[i].kind.Invalid?
    decreases |slots| - from
  {
    if from < |slots| && !slots[from].kind.Invalid? { LowestFreeIs(slots, from + 1); }
  }

  /** apply_id answers the smallest free id above the cursor, or -1 exactly when there is none; never 0.
      A sweep ends only at the last id: a cursor below it is not reset, whatever is free underneath. */
  lemma ApplyIdIs(p: Pool)
    requires SweepOk(p) && 0 < |p.slots|
    ensures var (p', id) := ApplyId(p);
            && SweepOk(p') && p'.slots == p.slots
            && (id == -1 <==> NoneAbove(p))
            && (id != -1 ==> p.allocId < id && Free(p, id) && (forall i :: p.allocId < i < id ==> !Free(p, i))
                             && p'.handed == p.handed + [id])
            && (id == -1 ==> p'.handed == if p.allocId == |p.slots| - 1 then [] else p.handed)
  {
    LowestFreeIs(p.slots, p.allocId + 1);
    var found := LowestFree(p.slots, p.allocId + 1);
    assert found.Some? ==> Free(p, found.value);
  }

  // ---------- the life of a slot ----------

  ghost predicate Follows(a: SocketType, b: SocketType) {
    match a
    case Invalid => false
    case ListenNotAdd => b.ListenAdd? || b.Invalid?
    case ConnectNotAdd => b.ConnectAdd? || b.Invalid?
    case _ => b.Invalid?
  }

  /** The types of one session in order: a session ends once and is not revived. */
  ghost predicate TraceOk(trace: seq<SocketType>, now: SocketType) {
    if trace == [] then now.Invalid?
    else
      && (trace[0].ListenNotAdd? || trace[0].ConnectNotAdd? || trace[0].NetLogic?)
      && trace[|trace| - 1] == now
      && forall k :: 0 < k < |trace| ==> Follows(trace[k - 1], trace[k])
  }

  /** Exactly one SUCCESS, first, once the session is watched, and nothing before;
      at most one CLOSE, last, after it ended. */
  ghost predicate ReportsOk(reports: seq<Report>, trace: seq<SocketType>, now: SocketType) {
    if ConnectAdd !in trace then reports == []
    else
      && reports != [] && reports[0] == Success
      && forall k :: 0 < k < |reports| ==>
           reports[k] != Success && (reports[k] == Close ==> k == |reports| - 1 && now.Invalid?)
  }

  /** A slot in use has its own index, which is not 0, as its id; only a connected client has a backlog, and its sender
      is in the state that its log of submissions and drains leads to. */
  ghost predicate SlotOk(slot: Slot, i: int) {
    && (!slot.kind.Invalid? ==> slot.id == i && 0 < i)
    && (!slot.kind.ConnectAdd? ==> slot.conn.backlog == [] && slot.conn.remain == 0)
    && (slot.kind.ConnectAdd? ==> slot.conn.open && slot.conn == Run(slot.log))
    && TraceOk(slot.trace, slot.kind) && ReportsOk(slot.reports, slot.trace, slot.kind)
  }

  ghost predicate Inv(p: Pool) {
    && 0 < |p.slots| && !p.fault && SweepOk(p)
    && forall i :: 0 <= i < |p.slots| ==> SlotOk(p.slots[i], i) && !p.slots[i].kind.ConnectNotAdd?
  }

  lemma InitInv(v: Variant, max: nat)
    requires 0 < max
    ensures Inv(Init(v, max))
  {
  }

  /** The slot as close_fd leaves it. */
  function Shut(slot: Slot, conn: Conn, log: seq<Sender.Event>): Slot {
    slot.(id := 0, conn := Sender.Close(conn), log := log, kind := Invalid, trace := slot.trace + [Invalid])
  }

  /** The slot after a write error. */
  function Failed(v: Variant, slot: Slot, conn: Conn, log: seq<Sender.Event>): Slot {
    var shut := Shut(slot, conn, log);
    if v == Repaired then shut.(reports := slot.reports + [Close]) else shut
  }

  lemma RetypedOk(slot: Slot, i: int, kind: SocketType)
    requires SlotOk(slot, i) && Follows(slot.kind, kind) && !kind.ConnectAdd?
    requires slot.conn.backlog == [] && slot.conn.remain == 0
    ensures SlotOk(slot.(kind := kind, trace := slot.trace + [kind]), i)
  {
    hide Run;
    assert slot.trace != [];
  }

  lemma ClosedOk(slot: Slot, i: int, conn: Conn, log: seq<Sender.Event>)
    requires SlotOk(slot, i) && !slot.kind.Invalid?
    ensures SlotOk(Shut(slot, conn, log), i)
  {
    hide Run;
    assert slot.trace != [];
  }

  lemma ToldOk(slot: Slot, i: int, report: Report)
    requires SlotOk(slot, i) && ConnectAdd in slot.trace && slot.reports[|slot.reports| - 1] != Close
    requires report != Success && (slot.kind.Invalid? <==> report == Close)
    ensures SlotOk(slot.(reports := slot.reports + [report]), i)
  {
    hide Run, TraceOk;
  }

  lemma EnteredOk(i: int, fd: int, kind: SocketType)
    requires 0 < i && (kind.ListenNotAdd? || kind.NetLogic?)
    ensures SlotOk(Slot(fd, i, kind, FRESH, [kind], [], []), i)
  {
  }

  lemma StartedOk(i: int, fd: int, epollFails: bool)
    requires 0 < i
    ensures SlotOk(Arrived(fd, i, epollFails), i)
  {
    assert epollFails ==> Arrived(fd, i, epollFails).trace[1] == Invalid;
    assert !epollFails ==> Arrived(fd, i, epollFails).trace[1] == ConnectAdd;
    assert Run([]) == FRESH;
  }

  lemma SentOk(slot: Slot, i: int, e: Sender.Event)
    requires SlotOk(slot, i) && slot.kind.ConnectAdd?
    ensures var conn := Sender.Step(slot.conn, e);
            conn.open ==> SlotOk(slot.(conn := conn, log := slot.log + [e]), i)
  {
    hide Sender.Step, TraceOk, ReportsOk;
    assert (slot.log + [e])[..|slot.log|] == slot.log;
  }

  lemma PutKept(p: Pool, i: int, slot: Slot)
    requires Inv(p) && 0 <= i < |p.slots| && SlotOk(slot, i) && !slot.kind.ConnectNotAdd?
    ensures Inv(p.(slots := p.slots[i := slot]))
  {
    hide SlotOk;
  }

  /** A new socket: without a free id above the cursor the pool is indexed with -1 or, repaired, left alone; otherwise
      the slot of the lowest such id is taken, unless epoll refuses the socket first. */
  lemma EnterIs(p: Pool, fd: int, kind: SocketType, epollFails: bool)
    requires Inv(p)
    ensures var (p', id) := Enter(p, fd, kind, epollFails);
            var p1 := ApplyId(p).0;
            if NoneAbove(p) then id == None && if p.v == Repaired then Inv(p1) && p' == p1 else p'.fault
            else
              && Inv(p1) && p1.slots == p.slots && p.allocId < p1.allocId < |p.slots| && Free(p, p1.allocId)
              && if epollFails then p' == p1 && id == None
                 else id == Some(p1.allocId)
                      && p' == p1.(slots := p.slots[p1.allocId := Slot(fd, p1.allocId, kind, FRESH, [kind], [], [])])
  {
    hide SlotOk, LowestFree;
    ApplyIdIs(p);
    assert [] + [kind] == [kind];
  }

  lemma EnterKept(p: Pool, fd: int, kind: SocketType, epollFails: bool)
    requires Inv(p) && (kind.ListenNotAdd? || kind.NetLogic?)
    ensures Inv(Enter(p, fd, kind, epollFails).0) <==> p.v == Repaired || !NoneAbove(p)
  {
    hide SlotOk, SweepOk, ApplyId, Enter, NoneAbove, Free;
    EnterIs(p, fd, kind, epollFails);
    if !NoneAbove(p) && !epollFails {
      var p1 := ApplyId(p).0;
      EnteredOk(p1.allocId, fd, kind);
      PutKept(p1, p1.allocId, Slot(fd, p1.allocId, kind, FRESH, [kind], [], []));
    }
  }

  /** A client either ends up watched and reported, or leaves a free slot behind, or, without a free id above the
      cursor, makes the code fault as written and is refused by the repaired code. */
  lemma AcceptKept(p: Pool, fd: int, nonblockFails: bool, epollFails: bool)
    requires Inv(p)
    ensures var p' := Accept(p, fd, nonblockFails, epollFails);
            && (Inv(p') <==> p.v == Repaired || fd == -1 || nonblockFails || !NoneAbove(p))
            && (fd == -1 ==> p' == p)
            && (!p'.fault ==> |p'.slots| == |p.slots| && p'.zeroReports == p.zeroReports)
            && (!p'.fault ==> forall i :: 0 <= i < |p.slots| ==>
                                fd == -1 || nonblockFails || NoneAbove(p) || i != p'.allocId ==>
                                p'.slots[i] == p.slots[i])
            && (!p'.fault && fd != -1 && !nonblockFails && !NoneAbove(p) ==>
                  && p.allocId < p'.allocId < |p.slots|
                  && p'.slots[p'.allocId].fd == fd && p'.slots[p'.allocId].conn == FRESH
                  && p'.slots[p'.allocId].kind == if epollFails then Invalid else ConnectAdd)
  {
    hide SlotOk, SweepOk, ApplyId, Enter, NoneAbove, Free;
    AcceptIs(p, fd, nonblockFails, epollFails);
    if fd != -1 && !nonblockFails && !NoneAbove(p) {
      var p1 := ApplyId(p).0;
      EnterIs(p, fd, ConnectNotAdd, false);
      StartedOk(p1.allocId, fd, epollFails);
      PutKept(p1, p1.allocId, Arrived(fd, p1.allocId, epollFails));
    } else if fd != -1 {
      RejectedKept(p);
    }
  }

  function Arrived(fd: int, id: int, epollFails: bool): Slot {
    if epollFails then Slot(fd, id, Invalid, FRESH, [ConnectNotAdd, Invalid], [], [])
    else Slot(fd, id, ConnectAdd, FRESH, [ConnectNotAdd, ConnectAdd], [Success], [])
  }

  lemma RejectedKept(p: Pool)
    requires Inv(p)
    ensures Inv(ApplyId(p).0) && ApplyId(p).0.slots == p.slots && ApplyId(p).0.zeroReports == p.zeroReports
  {
    hide SlotOk, LowestFree;
    ApplyIdIs(p);
  }

  lemma AcceptIs(p: Pool, fd: int, nonblockFails: bool, epollFails: bool)
    requires Inv(p)
    ensures var p' := Accept(p, fd, nonblockFails, epollFails);
            var p1 := ApplyId(p).0;
            if fd == -1 then p' == p
            else if nonblockFails then p' == p1
            else if NoneAbove(p) then if p.v == Repaired then p' == p1 else p'.fault
            else 0 < p1.allocId < |p.slots| && p1.slots == p.slots && p1.zeroReports == p.zeroReports
                 && p' == p1.(slots := p.slots[p1.allocId := Arrived(fd, p1.allocId, epollFails)])
  {
    hide SlotOk, SweepOk, ApplyId, Enter, NoneAbove, Inv;
    EnterIs(p, fd, ConnectNotAdd, false);
    RejectedKept(p);
    var p1 := ApplyId(p).0;
    if fd != -1 && !nonblockFails && !NoneAbove(p) {
      var arrived := Arrived(fd, p1.allocId, epollFails);
      assert [ConnectNotAdd] + [Invalid] == [ConnectNotAdd, Invalid];
      assert [ConnectNotAdd] + [ConnectAdd] == [ConnectNotAdd, ConnectAdd] && [] + [Success] == [Success];
      assert Accept(p, fd, nonblockFails, epollFails).slots == p.slots[p1.allocId := arrived];
    }
  }

  /** All slots but i are the same. */
  ghost predicate OnlySlot(p: Pool, p': Pool, i: int) {
    |p'.slots| == |p.slots| && forall k :: 0 <= k < |p.slots| && k != i ==> p'.slots[k] == p.slots[k]
  }

  lemma StartKept(p: Pool, i: int, epollFails: bool)
    requires Inv(p) && 0 <= i < |p.slots|
    ensures var (p', started) := Start(p, i, epollFails);
            && Inv(p') && OnlySlot(p, p', i)
            && (started <==> p.slots[i].kind.ListenNotAdd? && !epollFails)
            && p'.slots[i].kind == if started then ListenAdd
                                   else if p.slots[i].kind.ListenNotAdd? then Invalid else p.slots[i].kind
  {
    hide SlotOk, SweepOk;
    var slot := p.slots[i];
    assert SlotOk(slot, i);
    if slot.kind.ListenNotAdd? {
      var kind := if epollFails then Invalid else ListenAdd;
      NoBacklog(slot, i);
      RetypedOk(slot, i, kind);
      PutKept(p, i, slot.(kind := kind, trace := slot.trace + [kind]));
    }
  }

  lemma NoBacklog(slot: Slot, i: int)
    requires SlotOk(slot, i)
    ensures !slot.kind.ConnectAdd? ==> slot.conn.backlog == [] && slot.conn.remain == 0
  {
  }

  lemma CloseKept(p: Pool, i: int)
    requires Inv(p) && 0 <= i < |p.slots|
    ensures var p' := CloseFd(p, i);
            && Inv(p') && OnlySlot(p, p', i) && p'.slots[i].kind.Invalid? && p'.slots[i].reports == p.slots[i].reports
            && (p' == p <==> p.slots[i].kind.Invalid?) && (p' != p ==> p'.slots[i].id == 0)
  {
    hide SlotOk, SweepOk;
    var slot := p.slots[i];
    if !slot.kind.Invalid? {
      ClosedOk(slot, i, slot.conn, slot.log);
      var closed := Shut(slot, slot.conn, slot.log);
      PutKept(p, i, closed);
      assert CloseFd(p, i).slots == p.slots[i := closed];
    }
  }

  lemma LastNotClose(slot: Slot, i: int)
    requires SlotOk(slot, i) && slot.kind.ConnectAdd?
    ensures ConnectAdd in slot.trace && slot.reports != [] && slot.reports[|slot.reports| - 1] != Close
  {
    assert slot.trace[|slot.trace| - 1] in slot.trace;
  }

  lemma ReadKept(p: Pool, i: int, incoming: seq<byte>)
    requires Inv(p) && 0 <= i < |p.slots| && p.slots[i].kind.ConnectAdd?
    ensures var p' := Receive(p, i, incoming);
            && Inv(p') && OnlySlot(p, p', i)
            && if Framing.Whole(incoming) then
                 && p'.slots[i].kind == ConnectAdd
                 && p'.slots[i].reports == p.slots[i].reports + [Data(incoming[1..Framing.Size(incoming)])]
               else p'.slots[i].kind == Invalid && p'.slots[i].reports == p.slots[i].reports + [Close]
  {
    hide SlotOk, SweepOk;
    var slot := p.slots[i];
    LastNotClose(slot, i);
    if Framing.Whole(incoming) {
      var report := Data(incoming[1..Framing.Size(incoming)]);
      ToldOk(slot, i, report);
      PutKept(p, i, slot.(reports := slot.reports + [report]));
    } else {
      CloseKept(p, i);
      var p1 := CloseFd(p, i);
      assert SlotOk(p1.slots[i], i);
      ToldOk(p1.slots[i], i, Close);
      PutKept(p1, i, p1.slots[i].(reports := p1.slots[i].reports + [Close]));
    }
  }

  lemma SentAway(p: Pool, i: int, e: Sender.Event)
    requires 0 <= i < |p.slots| && !p.slots[i].kind.Invalid? && !Sender.Step(p.slots[i].conn, e).open
    ensures var failed := Failed(p.v, p.slots[i], Sender.Step(p.slots[i].conn, e), p.slots[i].log + [e]);
            Sent(p, i, e) == p.(zeroReports := p.zeroReports + (if p.v == AsWritten then 1 else 0),
                                slots := p.slots[i := failed])
  {
    hide Sender.Step;
    var failed := Failed(p.v, p.slots[i], Sender.Step(p.slots[i].conn, e), p.slots[i].log + [e]);
    assert Sent(p, i, e).slots == p.slots[i := failed];
  }

  lemma FailedOk(v: Variant, slot: Slot, i: int, conn: Conn, log: seq<Sender.Event>)
    requires SlotOk(slot, i) && slot.kind.ConnectAdd?
    ensures SlotOk(Failed(v, slot, conn, log), i)
  {
    hide SlotOk;
    ClosedOk(slot, i, conn, log);
    LastNotClose(slot, i);
    if v == Repaired { ToldOk(Shut(slot, conn, log), i, Close); }
  }

  lemma SentKept(p: Pool, i: int, e: Sender.Event)
    requires Inv(p) && 0 <= i < |p.slots| && p.slots[i].kind.ConnectAdd?
    ensures var p' := Sent(p, i, e);
            var conn := Sender.Step(p.slots[i].conn, e);
            && Inv(p') && OnlySlot(p, p', i)
            && p'.zeroReports == p.zeroReports + (if conn.open || p.v == Repaired then 0 else 1)
            && p'.slots[i].reports == p.slots[i].reports + (if conn.open || p.v == AsWritten then [] else [Close])
            && (if conn.open then p'.slots[i].kind.ConnectAdd? && p'.slots[i].conn == conn
                else p'.slots[i].kind.Invalid? && p'.slots[i].id == 0)
  {
    hide SlotOk, Sender.Step;
    var slot := p.slots[i];
    assert SlotOk(slot, i);
    var conn, log := Sender.Step(slot.conn, e), slot.log + [e];
    if conn.open {
      SentOk(slot, i, e);
      PutKept(p, i, slot.(conn := conn, log := log));
    } else {
      FailedOk(p.v, slot, i, conn, log);
      PutKept(p, i, Failed(p.v, slot, conn, log));
      SentAway(p, i, e);
    }
  }

  /** What makes the code as written fail, and only that: a socket that needs an id when none above the cursor is free
      (-1 is not rejected and indexes the pool), and a broadcast to a socket that is not connected. */
  ghost predicate Faults(p: Pool, a: Action)
    requires Enabled(p, a)
  {
    && p.v == AsWritten
    && match a
       case Listen(_) => NoneAbove(p)
       case NetLogicConnect(_, _) => NoneAbove(p)
       case ClientConnects(fd, nonblockFails, _) => fd != -1 && !nonblockFails && NoneAbove(p)
       case SendOne(uid, _, _) => !p.slots[uid % |p.slots|].kind.ConnectAdd?
       case _ => false
  }

  lemma PoolKeptIff(p: Pool, a: Action)
    requires Inv(p) && Enabled(p, a)
    ensures Inv(Next(p, a)) <==> !Faults(p, a)
  {
    hide SlotOk, SweepOk, Sender.Step, Enter, Accept, Start, CloseFd, Sent, NoneAbove;
    match a
    case Listen(fd) => EnterKept(p, fd, ListenNotAdd, false);
    case NetLogicConnect(fd, epollFails) => EnterKept(p, fd, NetLogic, epollFails);
    case StartListen(i, epollFails) => StartKept(p, i, epollFails);
    case ClientConnects(fd, nonblockFails, epollFails) => AcceptKept(p, fd, nonblockFails, epollFails);
    case Readable(i, incoming, _) => if p.slots[i].kind.ConnectAdd? { ReadKept(p, i, incoming); }
    case CanWrite(i, script) => if p.slots[i].kind.ConnectAdd? { SentKept(p, i, Writable(script)); }
    case SendOne(uid, buf, answer) =>
      var i := uid % |p.slots|;
      if p.slots[i].kind.ConnectAdd? { SentKept(p, i, Submit(buf, answer)); }
    case Expel(uid) => CloseKept(p, uid % |p.slots|);
  }

  // ---------- what each event does ----------

  /** Only slot i changes, and nothing else of the pool. */
  ghost predicate OnlyAt(p: Pool, p': Pool, i: int) {
    OnlySlot(p, p', i) && p'.v == p.v && p'.allocId == p.allocId && p'.handed == p.handed && !p'.fault
  }

  /** A writable connected socket is drained. It is still connected unless a write fails; if the kernel answers enough
      and neither EAGAIN nor an error, nothing waits any more, and if also no write takes exactly half a block, the
      kernel has by then accepted everything that it had accepted or that waited, in order. */
  lemma WritableEvent(p: Pool, i: int, script: seq<WriteResult>)
    requires Inv(p) && 0 <= i < |p.slots| && p.slots[i].kind.ConnectAdd?
    ensures Enabled(p, CanWrite(i, script)) && OnlyAt(p, Next(p, CanWrite(i, script)), i)
    ensures var (slot, slot') := (p.slots[i], Next(p, CanWrite(i, script)).slots[i]);
            && slot'.log == slot.log + [Writable(script)]
            && (Answering(script) ==> slot'.kind.ConnectAdd? && slot'.reports == slot.reports)
            && (Answering(script) && Enough(slot.conn, script) ==>
                  && slot'.conn.backlog == [] && !slot'.conn.pollOut
                  && (NoHalf(slot.conn, script) ==> slot'.conn.accepted == Flow(slot.conn)))
  {
    hide SlotOk, SweepOk, Sender.Step, NoHalf;
    var slot := p.slots[i];
    SentKept(p, i, Writable(script));
    SentLogs(p, i, Writable(script));
    ConnectedConn(slot, i);
    if Answering(script) {
      DrainStays(slot.conn, script);
      if Enough(slot.conn, script) {
        DrainFinishes(slot.conn, script);
        DrainedFlow(slot.conn, script);
      }
    }
  }

  /** At least as many answers as there are waiting bytes, waiting blocks and answers that take nothing. */
  ghost predicate Enough(c: Conn, script: seq<WriteResult>) {
    |Flatten(c.backlog)| + |c.backlog| + IdleCount(script) <= |script|
  }

  /** Neither EAGAIN nor an error. */
  ghost predicate Answering(script: seq<WriteResult>) {
    forall k :: 0 <= k < |script| ==> script[k].Eintr? || script[k].Accepts?
  }

  lemma {:induction false} DrainStays(c: Conn, script: seq<WriteResult>)
    requires c.open && Answering(script)
    ensures SendBuffer(c, script).open && Sender.Step(c, Writable(script)) == SendBuffer(c, script)
    decreases |script|
  {
    if c.backlog != [] && script != [] {
      DrainStays(if script[0].Eintr? then c else Wrote(c, Min(script[0].n, |c.backlog[0]|)), script[1..]);
    }
  }

  lemma DrainedFlow(c: Conn, script: seq<WriteResult>)
    requires c.open && (c.backlog != [] <==> c.pollOut)
    requires SendBuffer(c, script).open && SendBuffer(c, script).backlog == []
    ensures !SendBuffer(c, script).pollOut
    ensures NoHalf(c, script) ==> SendBuffer(c, script).accepted == Flow(c)
  {
    hide SendBuffer, NoHalf;
    SendBufferFlow(c, script);
    var d := SendBuffer(c, script);
    assert Flow(d) == d.accepted + [] == d.accepted;
  }

  lemma ConnectedConn(slot: Slot, i: int)
    requires SlotOk(slot, i) && slot.kind.ConnectAdd?
    ensures slot.conn.open && (slot.conn.backlog != [] <==> slot.conn.pollOut)
  {
    hide Run, Submitted, AllLossless;
    ConservationIff(slot.log);
  }

  lemma SentLogs(p: Pool, i: int, e: Sender.Event)
    requires 0 <= i < |p.slots| && p.slots[i].kind.ConnectAdd?
    ensures var p' := Sent(p, i, e);
            && |p'.slots| == |p.slots| && p'.slots[i].log == p.slots[i].log + [e]
            && p'.v == p.v && p'.allocId == p.allocId && p'.handed == p.handed && p'.fault == p.fault
  {
    hide Sender.Step;
  }

  /** A broadcast's round for a connected socket hands the whole buffer to its sender: what waits stays in front of it;
      if nothing waits, what the kernel takes comes after what it took before and a copy of the rest waits, nothing
      when it takes all; and if the write fails, the socket is gone. */
  lemma SendEvent(p: Pool, uid: nat, buf: seq<byte>, answer: WriteResult)
    requires Inv(p) && p.slots[uid % |p.slots|].kind.ConnectAdd?
    ensures var (i, a) := (uid % |p.slots|, SendOne(uid, buf, answer));
            && Enabled(p, a) && OnlyAt(p, Next(p, a), i)
            && var (slot, slot') := (p.slots[i], Next(p, a).slots[i]);
               && slot'.log == slot.log + [Submit(buf, answer)]
               && (slot.conn.backlog != [] ==>
                     && slot'.kind.ConnectAdd? && slot'.conn.accepted == slot.conn.accepted
                     && slot'.conn.backlog == slot.conn.backlog + [StrNCpy(buf)])
               && (slot.conn.backlog == [] && answer.Accepts? && |buf| <= answer.n ==>
                     && slot'.kind.ConnectAdd? && slot'.conn.accepted == slot.conn.accepted + buf
                     && slot'.conn.backlog == [])
               && (slot.conn.backlog == [] && !answer.Fatal? && !(answer.Accepts? && |buf| <= answer.n) && buf != [] ==>
                     var n := if answer.Accepts? then answer.n else 0;
                     && slot'.kind.ConnectAdd? && slot'.conn.accepted == slot.conn.accepted + buf[..n]
                     && slot'.conn.backlog == [StrNCpy(buf)[n..]] && slot'.conn.pollOut)
               && (slot.conn.backlog == [] && answer.Fatal? ==> slot'.kind.Invalid? && slot'.conn.backlog == [])
  {
    hide SlotOk, SweepOk, StrNCpy;
    var i := uid % |p.slots|;
    ConnectedConn(p.slots[i], i);
    SentLogs(p, i, Submit(buf, answer));
    SentKept(p, i, Submit(buf, answer));
    assert buf[..|buf|] == buf && StrNCpy(buf)[0..] == StrNCpy(buf);
    if p.slots[i].conn.backlog == [] && answer.Fatal? { SentAway(p, i, Submit(buf, answer)); }
  }

  /** A readable connected socket with a length byte and at least that many bytes behind it is reported to the router
      with exactly those; with anything less it is closed, and that is reported. */
  lemma ReadableEvent(p: Pool, i: int, incoming: seq<byte>, chops: seq<Framing.ReadResult>)
    requires Inv(p) && 0 <= i < |p.slots| && p.slots[i].kind.ConnectAdd?
    ensures Enabled(p, Readable(i, incoming, chops)) && OnlyAt(p, Next(p, Readable(i, incoming, chops)), i)
    ensures var (slot, slot') := (p.slots[i], Next(p, Readable(i, incoming, chops)).slots[i]);
            if 0 < |incoming| && incoming[0] < |incoming| then
              slot' == slot.(reports := slot.reports + [Data(incoming[1..1 + incoming[0]])])
            else slot'.kind.Invalid? && slot'.conn.backlog == [] && slot'.reports == slot.reports + [Close]
  {
    hide SlotOk, SweepOk;
    ReadKept(p, i, incoming);
  }

  /** A "service full" event closes the socket it names, if that is in use, and tells the router nothing. */
  lemma ExpelEvent(p: Pool, uid: nat)
    requires Inv(p)
    ensures Enabled(p, Expel(uid)) && OnlyAt(p, Next(p, Expel(uid)), uid % |p.slots|)
    ensures var i := uid % |p.slots|;
            var (slot, slot') := (p.slots[i], Next(p, Expel(uid)).slots[i]);
            && slot'.kind.Invalid? && slot'.reports == slot.reports
            && (slot.kind.Invalid? ==> slot' == slot)
            && (!slot.kind.Invalid? ==> slot'.id == 0 && slot'.conn.backlog == [] && !slot'.conn.pollOut)
  {
    hide SlotOk, SweepOk;
    CloseKept(p, uid % |p.slots|);
  }

  /** The lowest free id above the cursor is i. */
  ghost predicate LowestAbove(p: Pool, i: int) {
    p.allocId < i && Free(p, i) && forall k :: p.allocId < k < i ==> !Free(p, k)
  }

  /** A client that accept delivers: with an id i free above the cursor it is connected in slot i and the router is told
      so, once, or, when epoll refuses it, the slot stays free and nothing is told. */
  lemma ArrivalEvent(p: Pool, fd: int, epollFails: bool, i: int)
    requires Inv(p) && Listening(p) && fd != -1 && LowestAbove(p, i)
    ensures var a := ClientConnects(fd, false, epollFails);
            && Enabled(p, a)
            && var p' := Next(p, a);
               && OnlySlot(p, p', i) && !p'.fault && p'.allocId == i && p'.handed == p.handed + [i]
               && (if epollFails then p'.slots[i].kind.Invalid? && p'.slots[i].reports == []
                   else p'.slots[i] == Slot(fd, i, ConnectAdd, FRESH, [ConnectNotAdd, ConnectAdd], [Success], []))
  {
    hide SlotOk, Accept, LowestFree;
    AboveIs(p, i);
    ApplyIdIs(p);
    AcceptIs(p, fd, false, epollFails);
    assert Free(p, ApplyId(p).0.allocId);
  }

  /** The server's own sockets: each gets the slot of the lowest free id above the cursor, unless epoll refuses it, and
      the listening one is watched once it is started. */
  lemma OwnSocketEvents(p: Pool, fd: int, epollFails: bool, i: int)
    requires Inv(p)
    ensures LowestAbove(p, i) ==>
              var p' := Next(p, Listen(fd));
              p'.allocId == i && p'.slots == p.slots[i := Slot(fd, i, ListenNotAdd, FRESH, [ListenNotAdd], [], [])]
    ensures LowestAbove(p, i) ==>
              var p' := Next(p, NetLogicConnect(fd, epollFails));
              && p'.allocId == i
              && p'.slots == if epollFails then p.slots
                             else p.slots[i := Slot(fd, i, NetLogic, FRESH, [NetLogic], [], [])]
    ensures 0 <= i < |p.slots| && p.slots[i].kind.ListenNotAdd? ==>
              var p' := Next(p, StartListen(i, epollFails));
              OnlyAt(p, p', i) && p'.slots[i].kind == if epollFails then Invalid else ListenAdd
  {
    hide SlotOk, Enter, LowestFree, ApplyId;
    if LowestAbove(p, i) {
      AboveIs(p, i);
      ApplyIdIs(p);
      EnterIs(p, fd, ListenNotAdd, false);
      EnterIs(p, fd, NetLogic, epollFails);
      assert Free(p, ApplyId(p).0.allocId);
    }
    if 0 <= i < |p.slots| { StartKept(p, i, epollFails); }
  }

  // ---------- broadcasts ----------

  ghost predicate DistinctSlots(uids: seq<nat>, max: nat)
    requires 0 < max
  {
    forall j, k :: 0 <= j < k < |uids| ==> uids[j] % max != uids[k] % max
  }

  ghost predicate AllConnected(p: Pool, uids: seq<nat>)
    requires 0 < |p.slots|
  {
    forall k :: 0 <= k < |uids| ==> p.slots[uids[k] % |p.slots|].kind.ConnectAdd?
  }

  /** Sending to one slot leaves the others alone, and does to its own slot what only that slot decides. */
  lemma SendToIs(p: Pool, uid: nat, buf: seq<byte>, answer: WriteResult)
    requires 0 < |p.slots|
    ensures var p' := SendTo(p, uid, buf, answer);
            var i := uid % |p.slots|;
            && |p'.slots| == |p.slots| && p'.v == p.v
            && (p'.fault <==> p.fault || (p.v == AsWritten && !p.slots[i].kind.ConnectAdd?))
            && (forall j :: 0 <= j < |p.slots| && j != i ==> p'.slots[j] == p.slots[j])
            && p'.slots[i] == SentSlot(p.v, p.slots[i], buf, answer)
  {
    hide Sender.Step;
    var i := uid % |p.slots|;
    if p.slots[i].kind.ConnectAdd? && !Sender.Step(p.slots[i].conn, Submit(buf, answer)).open {
      SentAway(p, i, Submit(buf, answer));
    }
  }

  function SentSlot(v: Variant, slot: Slot, buf: seq<byte>, answer: WriteResult): Slot {
    var e := Submit(buf, answer);
    var conn := Sender.Step(slot.conn, e);
    if !slot.kind.ConnectAdd? then slot
    else if conn.open then slot.(conn := conn, log := slot.log + [e])
    else Failed(v, slot, conn, slot.log + [e])
  }

  /** What the recipients of a broadcast that sit in slot i do to it, one after the other. */
  function SlotAfter(v: Variant, slot: Slot, i: int, max: nat, uids: seq<nat>, buf: seq<byte>,
                     answers: seq<WriteResult>): (r: Slot)
    requires 0 < max && |answers| == |uids|
    decreases |uids|
  {
    if uids == [] then slot
    else SlotAfter(v, if uids[0] % max == i then SentSlot(v, slot, buf, answers[0]) else slot,
                   i, max, uids[1..], buf, answers[1..])
  }

  /** When the turn of recipient k comes its socket is connected. */
  ghost predicate Reachable(p: Pool, uids: seq<nat>, buf: seq<byte>, answers: seq<WriteResult>, k: int)
    requires 0 < |p.slots| && |answers| == |uids| && 0 <= k < |uids|
  {
    var i := uids[k] % |p.slots|;
    SlotAfter(p.v, p.slots[i], i, |p.slots|, uids[..k], buf, answers[..k]).kind.ConnectAdd?
  }

  /** A broadcast to any list: it does to every slot what its entries in the list do to it in turn, and nothing to the
      slots not listed; as written, the assert in send_data fails iff some recipient is not connected when its turn
      comes. */
  lemma BroadcastReaches(p: Pool, uids: seq<nat>, buf: seq<byte>, answers: seq<WriteResult>)
    requires 0 < |p.slots| && !p.fault && |answers| == |uids|
    ensures var p' := Broadcast(p, uids, buf, answers);
            && (p'.fault <==> p.v == AsWritten && exists k :: 0 <= k < |uids| && !Reachable(p, uids, buf, answers, k))
            && (!p'.fault ==> forall i :: 0 <= i < |p.slots| ==>
                                p'.slots[i] == SlotAfter(p.v, p.slots[i], i, |p.slots|, uids, buf, answers))
  {
    hide Broadcast, Reachable, SlotAfter;
    BroadcastSlots(p, uids, buf, answers);
    BroadcastFaultIff(p, uids, buf, answers);
  }

  lemma {:induction false} BroadcastSlots(p: Pool, uids: seq<nat>, buf: seq<byte>, answers: seq<WriteResult>)
    requires 0 < |p.slots| && |answers| == |uids|
    ensures var p' := Broadcast(p, uids, buf, answers);
            !p'.fault ==> forall i :: 0 <= i < |p.slots| ==>
              p'.slots[i] == SlotAfter(p.v, p.slots[i], i, |p.slots|, uids, buf, answers)
    decreases |uids|
  {
    hide SendTo, SentSlot;
    if uids != [] && !p.fault {
      SendToIs(p, uids[0], buf, answers[0]);
      BroadcastSlots(SendTo(p, uids[0], buf, answers[0]), uids[1..], buf, answers[1..]);
    }
  }

  lemma {:induction false} BroadcastFaultIff(p: Pool, uids: seq<nat>, buf: seq<byte>, answers: seq<WriteResult>)
    requires 0 < |p.slots| && !p.fault && |answers| == |uids|
    ensures Broadcast(p, uids, buf, answers).fault
            <==> p.v == AsWritten && exists k :: 0 <= k < |uids| && !Reachable(p, uids, buf, answers, k)
    decreases |uids|
  {
    hide SendTo, Reachable;
    if uids != [] {
      SendToIs(p, uids[0], buf, answers[0]);
      FirstTurn(p, uids, buf, answers);
      var p1 := SendTo(p, uids[0], buf, answers[0]);
      if !p1.fault {
        BroadcastFaultIff(p1, uids[1..], buf, answers[1..]);
        forall k | 0 < k < |uids|
          ensures Reachable(p, uids, buf, answers, k) <==> Reachable(p1, uids[1..], buf, answers[1..], k - 1)
        {
          LaterTurn(p, p1, uids, buf, answers, k);
        }
        if j :| 0 <= j < |uids| - 1 && !Reachable(p1, uids[1..], buf, answers[1..], j) {
          assert !Reachable(p, uids, buf, answers, j + 1);
        }
        if k :| 0 <= k < |uids| && !Reachable(p, uids, buf, answers, k) {
          assert k > 0 && p.v == AsWritten ==> !Reachable(p1, uids[1..], buf, answers[1..], k - 1);
        }
      } else {
        assert Broadcast(p1, uids[1..], buf, answers[1..]).fault;
      }
    }
  }

  lemma FirstTurn(p: Pool, uids: seq<nat>, buf: seq<byte>, answers: seq<WriteResult>)
    requires 0 < |p.slots| && |answers| == |uids| && uids != []
    ensures Reachable(p, uids, buf, answers, 0) <==> p.slots[uids[0] % |p.slots|].kind.ConnectAdd?
  {
    assert uids[..0] == [];
  }

  lemma LaterTurn(p: Pool, p1: Pool, uids: seq<nat>, buf: seq<byte>, answers: seq<WriteResult>, k: int)
    requires 0 < |p.slots| && |answers| == |uids| && 0 < k < |uids| && p1 == SendTo(p, uids[0], buf, answers[0])
    requires |p1.slots| == |p.slots|
    ensures Reachable(p, uids, buf, answers, k) <==> Reachable(p1, uids[1..], buf, answers[1..], k - 1)
  {
    hide SendTo, SentSlot;
    SendToIs(p, uids[0], buf, answers[0]);
    assert uids[..k][1..] == uids[1..][..k - 1] && answers[..k][1..] == answers[1..][..k - 1];
  }

  /** A broadcast to distinct sockets: one send each, and as written the assert fails iff some recipient is not
      connected. */
  lemma BroadcastToDistinct(p: Pool, uids: seq<nat>, buf: seq<byte>, answers: seq<WriteResult>)
    requires 0 < |p.slots| && !p.fault && |answers| == |uids| && DistinctSlots(uids, |p.slots|)
    ensures Broadcast(p, uids, buf, answers).fault <==> p.v == AsWritten && !AllConnected(p, uids)
  {
    hide SlotAfter;
    BroadcastReaches(p, uids, buf, answers);
    forall k | 0 <= k < |uids|
      ensures Reachable(p, uids, buf, answers, k) <==> p.slots[uids[k] % |p.slots|].kind.ConnectAdd?
    {
      NotYet(p.v, p.slots[uids[k] % |p.slots|], uids[k] % |p.slots|, |p.slots|, uids[..k], buf, answers[..k]);
    }
  }

  lemma {:induction false} NotYet(v: Variant, slot: Slot, i: int, max: nat, uids: seq<nat>, buf: seq<byte>,
                                  answers: seq<WriteResult>)
    requires 0 < max && |answers| == |uids| && forall k :: 0 <= k < |uids| ==> uids[k] % max != i
    ensures SlotAfter(v, slot, i, max, uids, buf, answers) == slot
    decreases |uids|
  {
    if uids != [] { NotYet(v, slot, i, max, uids[1..], buf, answers[1..]); }
  }

  // ---------- whole runs ----------

  ghost predicate IsRun(v: Variant, max: nat, actions: seq<Action>, states: seq<Pool>) {
    && |states| == |actions| + 1 && states[0] == Init(v, max)
    && forall i :: 0 <= i < |actions| ==>
         Enabled(states[i], actions[i]) && states[i + 1] == Next(states[i], actions[i])
  }

  /** Every state of a run is in order if and only if no step asks for an id when none is free above the cursor,
      or sends to a socket that is not connected. */
  lemma PoolOnRuns(v: Variant, max: nat, actions: seq<Action>, states: seq<Pool>)
    requires 0 < max && IsRun(v, max, actions, states)
    ensures (forall i :: 0 <= i < |states| ==> Inv(states[i]))
            <==> (forall i :: 0 <= i < |actions| ==> !Faults(states[i], actions[i]))
  {
    hide Inv, Faults, Enabled, Next, Init;
    InitInv(v, max);
    if forall i :: 0 <= i < |states| ==> Inv(states[i]) {
      forall i | 0 <= i < |actions| ensures !Faults(states[i], actions[i]) {
        PoolKeptIff(states[i], actions[i]);
        assert Inv(states[i + 1]);
      }
    }
    if forall i :: 0 <= i < |actions| ==> !Faults(states[i], actions[i]) {
      for i := 0 to |actions|
        invariant forall k :: 0 <= k <= i ==> Inv(states[k])
      {
        PoolKeptIff(states[i], actions[i]);
      }
    }
  }

  /** Every state of every run of the repaired code is in order. */
  lemma RepairedOnRuns(max: nat, actions: seq<Action>, states: seq<Pool>, i: nat)
    requires 0 < max && IsRun(Repaired, max, actions, states) && i < |states|
    ensures Inv(states[i]) && states[i].v == Repaired
  {
    hide Inv, Enabled, Next, Init;
    VariantStays(Repaired, max, actions, states);
    PoolOnRuns(Repaired, max, actions, states);
  }

  lemma VariantStays(v: Variant, max: nat, actions: seq<Action>, states: seq<Pool>)
    requires IsRun(v, max, actions, states)
    ensures forall i :: 0 <= i < |states| ==> states[i].v == v
  {
    hide Enabled, Next;
    for i := 0 to |actions|
      invariant forall k :: 0 <= k <= i ==> states[k].v == v
    {
      assert states[i].v == v;
      SameVariant(states[i], actions[i]);
    }
  }

  lemma SameVariant(p: Pool, a: Action)
    requires Enabled(p, a)
    ensures Next(p, a).v == p.v
  {
    hide Sender.Step, LowestFree;
  }

  ghost predicate Reset(p: Pool, q: Pool) {
    p.allocId == |p.slots| - 1 && q.allocId == 0 && q.handed == []
  }

  /** One step hands out at most one id, unless it resets the cursor. */
  lemma HandedStep(p: Pool, a: Action)
    requires Inv(p) && Enabled(p, a)
    ensures p.handed <= Next(p, a).handed || Reset(p, Next(p, a))
  {
    hide Sender.Step, SlotOk;
  }

  /** Between two states of a run either the cursor was reset, or the later sweep continues the earlier one:
      its ids increase strictly, so no id is handed out twice. */
  lemma {:induction false} SweepsOnRuns(v: Variant, max: nat, actions: seq<Action>, states: seq<Pool>, i: nat, j: nat)
    requires 0 < max && IsRun(v, max, actions, states) && i <= j < |states|
    requires forall k :: 0 <= k < |actions| ==> !Faults(states[k], actions[k])
    ensures Increasing(states[j].handed)
    ensures states[i].handed <= states[j].handed || exists k :: i <= k < j && Reset(states[k], states[k + 1])
    decreases j - i
  {
    hide Faults, Enabled, Next, Init, SlotOk;
    PoolOnRuns(v, max, actions, states);
    assert Inv(states[j]);
    if i < j {
      SweepsOnRuns(v, max, actions, states, i, j - 1);
      assert Inv(states[j - 1]);
      HandedStep(states[j - 1], actions[j - 1]);
    }
  }

  /** Byte-stream conservation holds for every connected session of every such run: its sender is accounted for by
      what was sent to it since it was accepted. */
  lemma SessionsConserve(v: Variant, max: nat, actions: seq<Action>, states: seq<Pool>, i: nat, k: nat)
    requires 0 < max && IsRun(v, max, actions, states) && i < |states|
    requires forall j :: 0 <= j < |actions| ==> !Faults(states[j], actions[j])
    requires k < |states[i].slots| && states[i].slots[k].kind.ConnectAdd?
    ensures var slot := states[i].slots[k];
            Conserved(slot.conn, Submitted(slot.log), AllLossless(slot.log))
  {
    hide Faults, Enabled, Next, Init, Conserved, Run, Submitted, AllLossless, TraceOk, ReportsOk;
    PoolOnRuns(v, max, actions, states);
    assert Inv(states[i]) && SlotOk(states[i].slots[k], k);
    ConservationIff(states[i].slots[k].log);
  }

  // ---------- runs of the server ----------

  const LISTENER := 10
  const ROUTER := 11
  const VISIT := ClientConnects(12, false, false)

  /** How the server starts: the listening socket gets id 1, the router's wake-up socket id 2, and listening begins. */
  function Startup(): seq<Action> {
    [Listen(LISTENER), NetLogicConnect(ROUTER, false), StartListen(1, false)]
  }

  /** The client in slot i is gone. */
  function Leave(i: int): Action { Readable(i, [], []) }

  ghost predicate Serving(p: Pool) {
    Inv(p) && 3 <= |p.slots| && p.slots[1].kind.ListenAdd? && p.slots[2].kind.NetLogic?
  }

  lemma Entered(p: Pool, fd: int, kind: SocketType)
    requires Inv(p) && (kind.ListenNotAdd? || kind.NetLogic?) && Free(p, p.allocId + 1)
    ensures var p' := Enter(p, fd, kind, false).0;
            && Inv(p') && p'.allocId == p.allocId + 1 && OnlySlot(p, p', p'.allocId)
            && p'.slots[p'.allocId].kind == kind
  {
    hide SlotOk, ApplyId, Enter, LowestFree;
    AboveIs(p, p.allocId + 1);
    ApplyIdIs(p);
    EnterIs(p, fd, kind, false);
    EnterKept(p, fd, kind, false);
  }

  lemma AboveIs(p: Pool, i: int)
    requires p.allocId < i < |p.slots| && Free(p, i)
    ensures !NoneAbove(p)
  {
  }

  lemma StartupServes(v: Variant, max: nat) returns (states: seq<Pool>)
    requires 3 <= max
    ensures IsRun(v, max, Startup(), states) && |states| == 4
    ensures var p := states[3];
            && Serving(p) && p.v == v && |p.slots| == max && p.allocId == 2
            && forall i :: 3 <= i < max ==> Free(p, i)
  {
    hide SlotOk, SweepOk, Enter, Start;
    var p0 := Init(v, max);
    InitInv(v, max);
    Entered(p0, LISTENER, ListenNotAdd);
    var p1 := Next(p0, Listen(LISTENER));
    Entered(p1, ROUTER, NetLogic);
    var p2 := Next(p1, NetLogicConnect(ROUTER, false));
    StartKept(p2, 1, false);
    var p3 := Next(p2, StartListen(1, false));
    StartKeepsRest(p2, 1, false);
    SameVariant(p0, Listen(LISTENER));
    SameVariant(p1, NetLogicConnect(ROUTER, false));
    states := [p0, p1, p2, p3];
  }

  lemma StartKeepsRest(p: Pool, i: int, epollFails: bool)
    requires 0 <= i < |p.slots|
    ensures Start(p, i, epollFails).0.allocId == p.allocId && Start(p, i, epollFails).0.v == p.v
  {
  }

  lemma StaffStays(p: Pool)
    requires Serving(p)
    ensures !Free(p, 1) && !Free(p, 2)
  {
  }

  /** The next client gets the lowest free id above the cursor. */
  lemma VisitorTakes(p: Pool, id: nat)
    requires Serving(p) && p.allocId < id && Free(p, id) && forall i :: p.allocId < i < id ==> !Free(p, i)
    ensures Enabled(p, VISIT)
    ensures var p' := Next(p, VISIT);
            && Serving(p') && p'.v == p.v && p'.allocId == id && p'.slots[id].kind.ConnectAdd? && OnlySlot(p, p', id)
  {
    hide SlotOk, Accept, ApplyId, LowestFree;
    AboveIs(p, id);
    AcceptKept(p, 12, false, false);
    AcceptIs(p, 12, false, false);
    ApplyIdIs(p);
    SameVariant(p, VISIT);
    assert Free(p, ApplyId(p).0.allocId);
  }

  lemma VisitorLeaves(p: Pool, id: nat)
    requires Serving(p) && id < |p.slots| && p.slots[id].kind.ConnectAdd?
    ensures Enabled(p, Leave(id))
    ensures var p' := Next(p, Leave(id));
            && Serving(p') && p'.v == p.v && p'.allocId == p.allocId && Free(p', id) && OnlySlot(p, p', id)
  {
    hide SlotOk, SweepOk;
    ReadKept(p, id, []);
  }

  /** A client for whom no id above the cursor is free makes the code as written index the pool with -1; the repaired
      code refuses it, and if the cursor is at the end starts the next sweep. */
  lemma VisitorRefused(p: Pool)
    requires Serving(p) && NoneAbove(p)
    ensures Enabled(p, VISIT)
    ensures var p' := Next(p, VISIT);
            && p'.v == p.v && (p'.fault <==> p.v == AsWritten)
            && (p.v == Repaired ==> Serving(p') && p'.slots == p.slots
                                    && p'.allocId == if p.allocId == |p.slots| - 1 then 0 else p.allocId)
  {
    hide SlotOk, Accept, LowestFree;
    AcceptKept(p, 12, false, false);
    AcceptIs(p, 12, false, false);
    ApplyIdIs(p);
    SameVariant(p, VISIT);
  }

  lemma RunOn(v: Variant, max: nat, actions: seq<Action>, states: seq<Pool>, a: Action)
    requires IsRun(v, max, actions, states) && Enabled(states[|actions|], a)
    ensures IsRun(v, max, actions + [a], states + [Next(states[|actions|], a)])
  {
    hide Enabled, Next;
  }

  // ---------- an empty server refuses a client ----------

  /** After the start, n clients, one after the other, each gone before the next comes. */
  function Visits(n: nat): seq<Action> {
    if n == 0 then Startup() else Visits(n - 1) + [VISIT, Leave(n + 2)]
  }

  lemma {:induction false} VisitCount(n: nat)
    ensures |Visits(n)| == 2 * n + 3
  {
    if n > 0 { VisitCount(n - 1); }
  }

  ghost predicate Idling(v: Variant, max: nat, p: Pool, n: nat) {
    Serving(p) && p.v == v && |p.slots| == max && p.allocId == n + 2 && forall i :: 3 <= i < max ==> Free(p, i)
  }

  lemma OneVisit(v: Variant, max: nat, p: Pool, k: nat)
    requires Idling(v, max, p, k) && k + 3 < max
    ensures Enabled(p, VISIT) && Enabled(Next(p, VISIT), Leave(k + 3))
    ensures Idling(v, max, Next(Next(p, VISIT), Leave(k + 3)), k + 1)
  {
    hide Next, Serving, Enabled;
    assert Free(p, k + 3);
    VisitorTakes(p, k + 3);
    VisitorLeaves(Next(p, VISIT), k + 3);
    var p2 := Next(Next(p, VISIT), Leave(k + 3));
    forall i | 3 <= i < max ensures Free(p2, i) { assert Free(p, i); }
  }

  lemma ManyVisits(v: Variant, max: nat, n: nat) returns (states: seq<Pool>)
    requires 3 + n <= max
    ensures IsRun(v, max, Visits(n), states) && |states| == |Visits(n)| + 1 && Idling(v, max, states[|Visits(n)|], n)
  {
    hide Next, Serving, Enabled, Idling, IsRun;
    states := StartupServes(v, max);
    StartupIdles(v, max, states[3]);
    for k := 0 to n
      invariant IsRun(v, max, Visits(k), states) && |states| == |Visits(k)| + 1
      invariant Idling(v, max, states[|Visits(k)|], k)
    {
      var p := states[|Visits(k)|];
      OneVisit(v, max, p, k);
      var p1 := Next(p, VISIT);
      RunOn(v, max, Visits(k), states, VISIT);
      RunOn(v, max, Visits(k) + [VISIT], states + [p1], Leave(k + 3));
      assert Visits(k) + [VISIT] + [Leave(k + 3)] == Visits(k + 1);
      states := states + [p1] + [Next(p1, Leave(k + 3))];
    }
  }

  lemma StartupIdles(v: Variant, max: nat, p: Pool)
    requires Serving(p) && p.v == v && |p.slots| == max && p.allocId == 2
    requires forall i :: 3 <= i < max ==> Free(p, i)
    ensures Idling(v, max, p, 0)
  {
  }

  /** p has no client; p1 is the pool after the next client came. */
  ghost predicate EmptyRefuses(v: Variant, max: nat, p: Pool, p1: Pool) {
    && |p.slots| == max && (forall i :: 3 <= i < max ==> Free(p, i)) && !p.fault
    && if v == AsWritten then p1.fault else !p1.fault && p1.slots == p.slots
  }

  ghost predicate JustTook(p: Pool, id: nat) {
    p.allocId == id < |p.slots| && p.slots[id].kind.ConnectAdd?
  }

  /** Once every id has been used, the server has no client left and all ids from 3 on are free; yet the next client
      makes the code as written index the pool with -1. The repaired code refuses it, and takes the one after it. */
  lemma EmptyServerRefuses(v: Variant, max: nat) returns (states: seq<Pool>)
    requires 4 <= max
    ensures IsRun(v, max, Visits(max - 3) + (if v == AsWritten then [VISIT] else [VISIT, VISIT]), states)
    ensures var n := |Visits(max - 3)|;
            && EmptyRefuses(v, max, states[n], states[n + 1])
            && (v == Repaired ==> JustTook(states[n + 2], 3))
  {
    hide Next, Enabled, Visits, IsRun, Serving;
    states := ManyVisits(v, max, max - 3);
    RunLength(v, max, Visits(max - 3), states);
    var p := states[|states| - 1];
    AllUsed(v, max, p);
    VisitorRefused(p);
    assert p.allocId == |p.slots| - 1;
    var p1 := Next(p, VISIT);
    RunOn(v, max, Visits(max - 3), states, VISIT);
    states := states + [p1];
    if v == Repaired {
      assert Free(p, 3) && Free(p1, 3);
      StaffStays(p1);
      VisitorTakes(p1, 3);
      RunOn(v, max, Visits(max - 3) + [VISIT], states, VISIT);
      assert Visits(max - 3) + [VISIT] + [VISIT] == Visits(max - 3) + [VISIT, VISIT];
      states := states + [Next(p1, VISIT)];
    }
  }

  lemma RunLength(v: Variant, max: nat, actions: seq<Action>, states: seq<Pool>)
    requires IsRun(v, max, actions, states)
    ensures |states| == |actions| + 1
  {
  }

  lemma AllUsed(v: Variant, max: nat, p: Pool)
    requires 4 <= max && Idling(v, max, p, max - 3)
    ensures !p.fault && NoneAbove(p)
  {
  }

  /** In the server: after 32765 visits, none of which lasted, the next client makes the code leave the pool. */
  lemma Client32766(visits: nat) returns (states: seq<Pool>)
    requires visits == 32765
    ensures IsRun(AsWritten, MAX_SOCKET, Visits(visits) + [VISIT], states)
    ensures EmptyRefuses(AsWritten, MAX_SOCKET, states[|Visits(visits)|], states[|Visits(visits)| + 1])
  {
    hide IsRun, EmptyRefuses, Visits;
    assert visits == MAX_SOCKET - 3;
    states := EmptyServerRefuses(AsWritten, MAX_SOCKET);
  }

  /** A client is gone, and a broadcast still names it. */
  lemma BroadcastToClosed(v: Variant, max: nat, buf: seq<byte>, answer: WriteResult) returns (states: seq<Pool>)
    requires 4 <= max
    ensures IsRun(v, max, Visits(1) + [SendOne(3, buf, answer)], states)
    ensures !states[5].fault && (states[6].fault <==> v == AsWritten) && (v == Repaired ==> states[6] == states[5])
  {
    hide Next, Enabled, Visits;
    states := ManyVisits(v, max, 1);
    VisitCount(1);
    var p := states[|states| - 1];
    GoneIsFault(p, buf, answer);
    states := states + [Next(p, SendOne(3, buf, answer))];
  }

  lemma GoneIsFault(p: Pool, buf: seq<byte>, answer: WriteResult)
    requires Inv(p) && 4 <= |p.slots| && Free(p, 3)
    ensures Enabled(p, SendOne(3, buf, answer))
    ensures var p' := Next(p, SendOne(3, buf, answer));
            (p'.fault <==> p.v == AsWritten) && (p.v == Repaired ==> p' == p)
  {
    hide Sent, SlotOk;
    assert 3 % |p.slots| == 3;
  }

  // ---------- ids come round ----------

  /** A small pool with room for two clients: both come and go, the next one is refused, which resets the cursor, and
      then the same ids are given out again in the same order. */
  lemma IdsComeRound() returns (states: seq<Pool>)
    ensures IsRun(Repaired, 5, Startup() + [VISIT, VISIT, Leave(4), Leave(3), VISIT, VISIT, Leave(3), VISIT], states)
    ensures |states| == 12
    ensures JustTook(states[4], 3)
    ensures JustTook(states[5], 4)
    ensures states[8].allocId == 0 && states[8].slots == states[7].slots
    ensures JustTook(states[9], 3)
    ensures JustTook(states[11], 4)
  {
    hide Next, Enabled, IsRun, Serving;
    var v, acts := Repaired, Startup();
    states := StartupServes(v, 5);
    var a, b := FirstRound(acts, states);
    var c := SecondRound(b, a);
    assert b + [VISIT, VISIT, Leave(3), VISIT]
           == acts + [VISIT, VISIT, Leave(4), Leave(3), VISIT, VISIT, Leave(3), VISIT];
    states := c;
  }

  lemma FirstRound(acts: seq<Action>, states: seq<Pool>) returns (r: seq<Pool>, done: seq<Action>)
    requires IsRun(Repaired, 5, acts, states) && |acts| == 3 && |states| == 4
    requires Serving(states[3]) && states[3].v == Repaired && |states[3].slots| == 5 && states[3].allocId == 2
    requires Free(states[3], 3) && Free(states[3], 4)
    ensures done == acts + [VISIT, VISIT, Leave(4), Leave(3)] && IsRun(Repaired, 5, done, r) && |r| == 8
    ensures JustTook(r[4], 3)
    ensures JustTook(r[5], 4)
    ensures Serving(r[7]) && r[7].v == Repaired && |r[7].slots| == 5 && r[7].allocId == 4
    ensures Free(r[7], 3) && Free(r[7], 4)
  {
    hide Next, Enabled, IsRun, Serving;
    var p3 := states[3];
    VisitorTakes(p3, 3);
    var p4 := Next(p3, VISIT);
    RunOn(Repaired, 5, acts, states, VISIT);
    VisitorTakes(p4, 4);
    var p5 := Next(p4, VISIT);
    RunOn(Repaired, 5, acts + [VISIT], states + [p4], VISIT);
    VisitorLeaves(p5, 4);
    var p6 := Next(p5, Leave(4));
    RunOn(Repaired, 5, acts + [VISIT] + [VISIT], states + [p4] + [p5], Leave(4));
    VisitorLeaves(p6, 3);
    RunOn(Repaired, 5, acts + [VISIT] + [VISIT] + [Leave(4)], states + [p4] + [p5] + [p6], Leave(3));
    r := states + [p4] + [p5] + [p6] + [Next(p6, Leave(3))];
    done := acts + [VISIT] + [VISIT] + [Leave(4)] + [Leave(3)];
  }

  lemma SecondRound(acts: seq<Action>, states: seq<Pool>) returns (r: seq<Pool>)
    requires IsRun(Repaired, 5, acts, states) && |acts| == 7 && |states| == 8
    requires Serving(states[7]) && states[7].v == Repaired && |states[7].slots| == 5 && states[7].allocId == 4
    requires Free(states[7], 3) && Free(states[7], 4)
    ensures IsRun(Repaired, 5, acts + [VISIT, VISIT, Leave(3), VISIT], r) && |r| == 12 && r[..8] == states
    ensures r[8].allocId == 0 && r[8].slots == r[7].slots
    ensures JustTook(r[9], 3)
    ensures JustTook(r[11], 4)
  {
    hide Next, Enabled, IsRun, Serving;
    var p7 := states[7];
    StaffStays(p7);
    VisitorRefused(p7);
    var p8 := Next(p7, VISIT);
    RunOn(Repaired, 5, acts, states, VISIT);
    StaffStays(p8);
    VisitorTakes(p8, 3);
    var p9 := Next(p8, VISIT);
    RunOn(Repaired, 5, acts + [VISIT], states + [p8], VISIT);
    VisitorLeaves(p9, 3);
    var p10 := Next(p9, Leave(3));
    RunOn(Repaired, 5, acts + [VISIT] + [VISIT], states + [p8] + [p9], Leave(3));
    VisitorTakes(p10, 4);
    RunOn(Repaired, 5, acts + [VISIT] + [VISIT] + [Leave(3)], states + [p8] + [p9] + [p10], VISIT);
    assert acts + [VISIT] + [VISIT] + [Leave(3)] + [VISIT] == acts + [VISIT, VISIT, Leave(3), VISIT];
    r := states + [p8] + [p9] + [p10] + [Next(p10, VISIT)];
  }
}
