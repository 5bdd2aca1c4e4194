/** The router as it runs, proved against module RouteAccounts. */
module Router {
  import opened Util
  import opened RouteAccounts

  class Route {
    const v: Variant
    const lim: Limits
    const sock_id2game_logic: array<int>
    const online_player: array<int>
    var game_service_id: int
    var fault: bool
    var sent: seq<Output>

    ghost predicate Valid()
      reads sock_id2game_logic, online_player
    {
      && 0 < lim.services < 255 && sock_id2game_logic != online_player
      && sock_id2game_logic.Length == lim.uids && online_player.Length == lim.services
    }

    ghost function State(): Table
      reads this, sock_id2game_logic, online_player
    {
      Table(sock_id2game_logic[..], online_player[..], game_service_id, fault)
    }

    constructor (v: Variant, lim: Limits, cursor: int)
      requires 0 < lim.services < 255
      ensures Valid() && this.v == v && this.lim == lim && sent == [] && State() == RouteAccounts.Init(lim, cursor)
      ensures fresh(sock_id2game_logic) && fresh(online_player)
    {
      this.v, this.lim, game_service_id, fault, sent := v, lim, cursor, false, [];
      sock_id2game_logic := new int[lim.uids](_ => NOBODY);
      online_player := new int[lim.services](_ => 0);
    }

    /** The lowest service below its cap; -1 when all are full, which a uint8_t turns into 255. */
    method DistributeGamelogic() returns (id: int)
      requires Valid()
      ensures id == Distribute(v, lim, State())
    {
      var game_index := 0;
      while game_index < lim.services
        invariant 0 <= game_index <= lim.services
        invariant LowestOpen(lim, online_player[..], 0) == LowestOpen(lim, online_player[..], game_index)
      {
        if online_player[game_index] < lim.cap { return game_index; }
        game_index := game_index + 1;
      }
      return if v == AsWritten then 255 else -1;
    }

    method SetGamelogicId(socket_id: int) returns (ret: int)
      requires Valid() && ValidUid(lim, socket_id)
      modifies this`game_service_id, this`fault, sock_id2game_logic, online_player
      ensures Valid()
      ensures var (t, ok) := SetService(v, lim, old(State()), socket_id);
              State() == t && ret == if ok then 0 else -1
    {
      if sock_id2game_logic[socket_id] != NOBODY { return -1; }
      LowestOpenIs(lim, online_player[..], 0);
      var id := DistributeGamelogic();
      if id == -1 { return -1; }
      if id >= lim.services {
        fault := true;
        return 0;
      }
      game_service_id := id;
      sock_id2game_logic[socket_id] := id;
      online_player[id] := online_player[id] + 1;
      return 0;
    }

    method ClearGamelogicId(socket_id: int) returns (ret: int)
      requires Valid() && ValidUid(lim, socket_id)
      modifies this`fault, sock_id2game_logic, online_player
      ensures Valid()
      ensures State() == Clear(lim, old(State()), socket_id)
      ensures ret == if old(sock_id2game_logic[socket_id]) == NOBODY then -1 else 0
    {
      if sock_id2game_logic[socket_id] == NOBODY { return -1; }
      if !(0 <= game_service_id < lim.services) {
        fault := true;
        return 0;
      }
      sock_id2game_logic[socket_id] := NOBODY;
      online_player[game_service_id] := online_player[game_service_id] - 1;
      return 0;
    }

    method SendMsg2GameLogic(msg: Message) returns (ret: int)
      requires Valid() && ValidUid(lim, msg.uid)
      modifies this`game_service_id, this`sent
      ensures var (t, out) := Send(lim, old(State()), msg);
              State() == t && sent == old(sent) + out && ret == if out == [] then -1 else 0
    {
      if sock_id2game_logic[msg.uid] == NOBODY {
        assert sent + [] == sent;
        return -1;
      }
      game_service_id := sock_id2game_logic[msg.uid];
      sent := sent + [ToGame(game_service_id, msg)];
      return 0;
    }

    /** One message from the IO thread, as the specification says. */
    method DisposeNetioServiceQue(msg: Message)
      requires Valid() && ValidUid(lim, msg.uid) && !fault
      modifies this`game_service_id, this`fault, this`sent, sock_id2game_logic, online_player
      ensures Valid()
      ensures var (t, out) := Dispose(v, lim, old(State()), msg); State() == t && sent == old(sent) + out
    {
      match msg.kind
      case Data =>
        var _ := SendMsg2GameLogic(msg);
      case Closed =>
        var _ := SendMsg2GameLogic(msg);
        var _ := ClearGamelogicId(msg.uid);
      case Success =>
        var ret := SetGamelogicId(msg.uid);
        if fault {
          assert sent + [] == sent;
        } else if ret == -1 {
          sent := sent + [ServiceFull(msg.uid)];
        } else {
          var _ := SendMsg2GameLogic(msg);
        }
    }
  }
}
