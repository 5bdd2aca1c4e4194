/** The IO thread's pool as it runs: an array of slots and the cursor of the id allocator.
    Every method is proved against module SocketPool. */
module SocketServer {
  import opened Util
  import opened Sender
  import opened SocketPool
  import Framing

  class Server {
    const v: Variant
    const pool: array<Slot>
    var allocId: nat
    var fault: bool
    var zeroReports: nat
    ghost var handed: seq<int>

    ghost function State(): Pool
      reads this, pool
    {
      Pool(v, pool[..], allocId, handed, zeroReports, fault)
    }

    /** socket_server_create */
    constructor (v: Variant, max: nat)
      ensures fresh(pool) && State() == SocketPool.Init(v, max)
    {
      this.v := v;
      pool := new Slot[max];
      allocId, fault, zeroReports, handed := 0, false, 0, [];
      new;
      for i := 0 to max
        invariant forall k :: 0 <= k < i ==> pool[k] == EMPTY
        invariant allocId == 0 && !fault && zeroReports == 0 && handed == []
      {
        pool[i] := EMPTY;
      }
      assert pool[..] == SocketPool.Init(v, max).slots;
    }

    /** apply_id */
    method ApplyId() returns (id: int)
      requires 0 < pool.Length
      modifies this`allocId, this`handed
      ensures (State(), id) == SocketPool.ApplyId(old(State()))
    {
      var lastId := allocId;
      if lastId >= pool.Length - 1 {
        allocId, handed := 0, [];
      }
      id := lastId + 1;
      while id < pool.Length
        invariant lastId < id
        invariant LowestFree(pool[..], id) == LowestFree(pool[..], lastId + 1)
        invariant State() == SocketPool.ApplyId(old(State())).0.(allocId := allocId, handed := handed)
        invariant allocId == if lastId >= pool.Length - 1 then 0 else lastId
        invariant handed == if lastId >= pool.Length - 1 then [] else old(handed)
      {
        if pool[id].kind.Invalid? {
          allocId, handed := id, handed + [id];
          return;
        }
        id := id + 1;
      }
      id := -1;
    }

    /** apply_socket, with its assert */
    method ApplySocket(fd: int, id: int, epollFails: bool) returns (ok: bool)
      modifies this`fault, pool
      ensures (State(), ok) == SocketPool.ApplySocket(old(State()), fd, id, epollFails)
    {
      if !(0 <= id < pool.Length) || !pool[id].kind.Invalid? {
        fault := true;
        return false;
      }
      if epollFails { return false; }
      pool[id] := Slot(fd, id, Invalid, FRESH, [], [], []);
      return true;
    }

    method SetType(i: int, kind: SocketType)
      requires 0 <= i < pool.Length
      modifies pool
      ensures State() == SocketPool.SetType(old(State()), i, kind)
    {
      pool[i] := pool[i].(kind := kind, trace := pool[i].trace + [kind]);
    }

    method Tell(i: int, report: Report)
      requires 0 <= i < pool.Length
      modifies pool
      ensures State() == SocketPool.Tell(old(State()), i, report)
    {
      pool[i] := pool[i].(reports := pool[i].reports + [report]);
    }

    method Enter(fd: int, kind: SocketType, epollFails: bool) returns (id: Option<int>)
      requires 0 < pool.Length
      modifies this`allocId, this`handed, this`fault, pool
      ensures (State(), id) == SocketPool.Enter(old(State()), fd, kind, epollFails)
    {
      var got := ApplyId();
      if v == Repaired && got == -1 { return None; }
      var ok := ApplySocket(fd, got, epollFails);
      if !ok { return None; }
      SetType(got, kind);
      return Some(got);
    }

    /** socket_server_start */
    method Start(i: int, epollFails: bool) returns (started: bool)
      requires 0 <= i < pool.Length
      modifies pool
      ensures (State(), started) == SocketPool.Start(old(State()), i, epollFails)
    {
      if pool[i].kind.ConnectNotAdd? || pool[i].kind.ListenNotAdd? {
        if epollFails {
          SetType(i, Invalid);
          return false;
        }
        SetType(i, if pool[i].kind.ConnectNotAdd? then ConnectAdd else ListenAdd);
        return true;
      }
      return false;
    }

    /** The listening socket's event: dispose_accept, then socket_server_start, then the report to the router. */
    method Accept(fd: int, nonblockFails: bool, epollFails: bool)
      requires 0 < pool.Length
      modifies this`allocId, this`handed, this`fault, pool
      ensures State() == SocketPool.Accept(old(State()), fd, nonblockFails, epollFails)
    {
      if fd == -1 { return; }
      if nonblockFails {
        var _ := ApplyId();
        return;
      }
      var id := Enter(fd, ConnectNotAdd, false);
      if id.Some? && 0 <= id.value < pool.Length {
        var started := Start(id.value, epollFails);
        if started { Tell(id.value, Success); }
      }
    }

    /** close_fd */
    method CloseFd(i: int)
      requires 0 <= i < pool.Length
      modifies pool
      ensures State() == SocketPool.CloseFd(old(State()), i)
    {
      if pool[i].kind.Invalid? { return; }
      pool[i] := pool[i].(id := 0, conn := Sender.Close(pool[i].conn));
      SetType(i, Invalid);
    }

    /** The sender of slot i runs; on a write error the slot is closed and, as written, a close is reported for id 0. */
    method Send(i: int, e: Sender.Event)
      requires 0 <= i < pool.Length
      modifies this`zeroReports, pool
      ensures State() == SocketPool.Sent(old(State()), i, e)
    {
      hide Sender.Step;
      var conn := Sender.Step(pool[i].conn, e);
      pool[i] := pool[i].(conn := conn, log := pool[i].log + [e]);
      if !conn.open {
        CloseFd(i);
        if v == Repaired {
          Tell(i, Close);
        } else {
          zeroReports := zeroReports + 1;
        }
      }
    }

    /** broadcast_user_msg; as written, a failing assert in send_data ends the process. */
    method BroadcastUserMsg(uids: seq<nat>, buf: seq<byte>, answers: seq<WriteResult>)
      requires 0 < pool.Length && |answers| == |uids|
      modifies this`fault, this`zeroReports, pool
      ensures State() == SocketPool.Broadcast(old(State()), uids, buf, answers)
    {
      hide Sender.Step;
      for k := 0 to |uids|
        invariant SocketPool.Broadcast(State(), uids[k..], buf, answers[k..])
                  == SocketPool.Broadcast(old(State()), uids, buf, answers)
      {
        if fault { return; }
        assert uids[k..][1..] == uids[k + 1..] && answers[k..][1..] == answers[k + 1..];
        SendTo(uids[k], buf, answers[k]);
      }
    }

    /** send_data, with its assert */
    method SendTo(uid: nat, buf: seq<byte>, answer: WriteResult)
      requires 0 < pool.Length
      modifies this`fault, this`zeroReports, pool
      ensures State() == SocketPool.SendTo(old(State()), uid, buf, answer)
    {
      hide Sender.Step;
      if pool[uid % pool.Length].kind.ConnectAdd? {
        Send(uid % pool.Length, Submit(buf, answer));
      } else if v == AsWritten {
        fault := true;
      }
    }

    /** dispose_readmessage: reads one message from the socket, and reports it or the close. */
    method DisposeReadmessage(i: int, incoming: seq<byte>, chops: seq<Framing.ReadResult>)
      requires 0 <= i < pool.Length
      modifies pool
      ensures State() == SocketPool.Receive(old(State()), i, incoming)
    {
      var socket := new Framing.Stream(incoming, chops);
      var content := socket.ReadMessage();
      match content
      case Some(buffer) => Tell(i, Data(buffer));
      case None =>
        CloseFd(i);
        Tell(i, Close);
    }

    /** One event of the IO thread's loop. */
    method Dispose(a: Action)
      requires Enabled(State(), a)
      modifies this, pool
      ensures State() == SocketPool.Next(old(State()), a)
    {
      hide Sender.Step;
      match a
      case Listen(fd) => var _ := Enter(fd, ListenNotAdd, false);
      case NetLogicConnect(fd, epollFails) => var _ := Enter(fd, NetLogic, epollFails);
      case StartListen(i, epollFails) => var _ := Start(i, epollFails);
      case ClientConnects(fd, nonblockFails, epollFails) => Accept(fd, nonblockFails, epollFails);
      case Readable(i, incoming, chops) => if pool[i].kind.ConnectAdd? { DisposeReadmessage(i, incoming, chops); }
      case CanWrite(i, script) => if pool[i].kind.ConnectAdd? { Send(i, Writable(script)); }
      case SendOne(uid, buf, answer) => SendTo(uid, buf, answer);
      case Expel(uid) => CloseFd(uid % pool.Length);
    }
  }
}
