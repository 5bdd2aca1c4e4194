/** The router's table: which game service each socket id belongs to, how many players each service has,
    and the "last looked up" cursor that the close path decrements through. */
module RouteAccounts {
  import opened Util

  const NOBODY := -1

  datatype Limits = Limits(services: nat, cap: nat, uids: nat)

  /** Four game services of 200 players, 32K socket ids. */
  const SERVER := Limits(4, 200, 32 * 1024)

  datatype Kind = Success | Data | Closed

  datatype Message = Message(kind: Kind, uid: int)

  datatype Output = ToGame(service: int, msg: Message) | ServiceFull(uid: int)

  /** fault: the code wrote outside the table. */
  datatype Table = Table(serviceOf: seq<int>, online: seq<int>, cursor: int, fault: bool)

  ghost predicate Shape(lim: Limits, t: Table) {
    && 0 < lim.services < 255 && |t.serviceOf| == lim.uids && |t.online| == lim.services
  }

  ghost predicate ValidUid(lim: Limits, uid: int) { 0 <= uid < lim.uids }

  function Init(lim: Limits, cursor: int): Table {
    Table(seq(lim.uids, _ => NOBODY), seq(lim.services, _ => 0), cursor, false)
  }

  // ---------- the code ----------

  function LowestOpen(lim: Limits, online: seq<int>, from: nat): Option<nat>
    requires from <= |online|
    decreases |online| - from
  {
    if from == |online| then None
    else if online[from] < lim.cap then Some(from)
    else LowestOpen(lim, online, from + 1)
  }

  lemma {:induction false} LowestOpenIs(lim: Limits, online: seq<int>, from: nat)
    requires from <= |online|
    ensures match LowestOpen(lim, online, from)
            case None => forall g :: from <= g < |online| ==> lim.cap <= online[g]
            case Some(k) => from <= k < |online| && online[k] < lim.cap
                            && forall g :: from <= g < k ==> lim.cap <= online[g]
    decreases |online| - from
  {
    if from < |online| && lim.cap <= online[from] { LowestOpenIs(lim, online, from + 1); }
  }

  /** route_distribute_gamelogic, with its result as the caller sees it: as written, -1 becomes 255 in a uint8_t. */
  function Distribute(v: Variant, lim: Limits, t: Table): int {
    match LowestOpen(lim, t.online, 0)
    case Some(g) => g
    case None => if v == AsWritten then 255 else -1
  }

  /** route_set_gamelogic_id; the flag says whether the socket got a service. */
  function SetService(v: Variant, lim: Limits, t: Table, uid: int): (Table, bool)
    requires Shape(lim, t) && ValidUid(lim, uid)
  {
    if t.serviceOf[uid] != NOBODY then (t, false)
    else
      var id := Distribute(v, lim, t);
      if id == -1 then (t, false)
      else if id >= lim.services then (t.(fault := true), true)
      else
        LowestOpenIs(lim, t.online, 0);
        (t.(cursor := id, serviceOf := t.serviceOf[uid := id], online := t.online[id := t.online[id] + 1]), true)
  }

  /** send_msg_2_game_logic: looks the socket up, which moves the cursor, and forwards; unknown sockets are dropped. */
  function Send(lim: Limits, t: Table, msg: Message): (Table, seq<Output>)
    requires Shape(lim, t) && ValidUid(lim, msg.uid)
  {
    if t.serviceOf[msg.uid] != NOBODY then
      (t.(cursor := t.serviceOf[msg.uid]), [ToGame(t.serviceOf[msg.uid], msg)])
    else (t, [])
  }

  /** route_clear_gamelogic_id: frees the socket's entry and counts down the service under the cursor. */
  function Clear(lim: Limits, t: Table, uid: int): Table
    requires Shape(lim, t) && ValidUid(lim, uid)
  {
    if t.serviceOf[uid] == NOBODY then t
    else if !(0 <= t.cursor < lim.services) then t.(fault := true)
    else t.(serviceOf := t.serviceOf[uid := NOBODY], online := t.online[t.cursor := t.online[t.cursor] - 1])
  }

  /** dispose_netio_service_que */
  function Dispose(v: Variant, lim: Limits, t: Table, msg: Message): (Table, seq<Output>)
    requires Shape(lim, t) && ValidUid(lim, msg.uid)
  {
    if t.fault then (t, [])
    else match msg.kind
      case Data => Send(lim, t, msg)
      case Closed =>
        var (t1, sent) := Send(lim, t, msg);
        (Clear(lim, t1, msg.uid), sent)
      case Success =>
        var (t1, ok) := SetService(v, lim, t, msg.uid);
        if t1.fault then (t1, [])
        else if !ok then (t1, [ServiceFull(msg.uid)])
        else Send(lim, t1, msg)
  }

  // ---------- the accounts ----------

  ghost function Players(t: Table, g: int): set<int> {
    set u | u in Below(|t.serviceOf|) && t.serviceOf[u] == g
  }

  ghost predicate Inv(lim: Limits, t: Table) {
    && Shape(lim, t) && !t.fault
    && (forall u :: 0 <= u < lim.uids ==> t.serviceOf[u] == NOBODY || 0 <= t.serviceOf[u] < lim.services)
    && (forall g :: 0 <= g < lim.services ==> t.online[g] == |Players(t, g)| <= lim.cap)
  }

  ghost predicate AllFull(lim: Limits, t: Table)
    requires Shape(lim, t)
  {
    forall g :: 0 <= g < lim.services ==> lim.cap <= t.online[g]
  }

  lemma InitInv(lim: Limits, cursor: int)
    requires 0 < lim.services < 255
    ensures Inv(lim, Init(lim, cursor))
  {
    forall g | 0 <= g < lim.services ensures Players(Init(lim, cursor), g) == {} {
    }
  }

  lemma AssignKept(lim: Limits, t: Table, uid: int, id: int)
    requires Inv(lim, t) && ValidUid(lim, uid) && t.serviceOf[uid] == NOBODY
    requires 0 <= id < lim.services && t.online[id] < lim.cap
    ensures Inv(lim, t.(cursor := id, serviceOf := t.serviceOf[uid := id], online := t.online[id := t.online[id] + 1]))
  {
    hide Players;
    var t' := t.(cursor := id, serviceOf := t.serviceOf[uid := id], online := t.online[id := t.online[id] + 1]);
    forall g | 0 <= g < lim.services ensures t'.online[g] == |Players(t', g)| <= lim.cap {
      OneMore(t, t', uid, g);
    }
  }

  lemma OneMore(t: Table, t': Table, uid: int, g: int)
    requires 0 <= uid < |t.serviceOf| && t.serviceOf[uid] == NOBODY && g != NOBODY
    requires |t'.serviceOf| == |t.serviceOf| && t'.serviceOf == t.serviceOf[uid := t'.serviceOf[uid]]
    ensures |Players(t', g)| == |Players(t, g)| + if t'.serviceOf[uid] == g then 1 else 0
  {
    assert Players(t', g) == if t'.serviceOf[uid] == g then Players(t, g) + {uid} else Players(t, g);
  }

  lemma SetKept(v: Variant, lim: Limits, t: Table, uid: int)
    requires Inv(lim, t) && ValidUid(lim, uid)
    ensures var (t', ok) := SetService(v, lim, t, uid);
            && (t'.fault <==> v == AsWritten && t.serviceOf[uid] == NOBODY && AllFull(lim, t))
            && (!t'.fault ==> Inv(lim, t') && (ok <==> t.serviceOf[uid] == NOBODY && !AllFull(lim, t)))
            && (!t'.fault && ok ==>
                  && t'.serviceOf == t.serviceOf[uid := t'.serviceOf[uid]] && t'.serviceOf[uid] != NOBODY
                  && t.online[t'.serviceOf[uid]] < lim.cap
                  && forall g :: 0 <= g < t'.serviceOf[uid] ==> t.online[g] == lim.cap)
            && (!ok ==> t' == t)
  {
    hide Players;
    LowestOpenIs(lim, t.online, 0);
    if t.serviceOf[uid] == NOBODY && LowestOpen(lim, t.online, 0).Some? {
      AssignKept(lim, t, uid, LowestOpen(lim, t.online, 0).value);
    }
  }

  lemma ClearKept(lim: Limits, t: Table, uid: int)
    requires Inv(lim, t) && ValidUid(lim, uid) && (t.serviceOf[uid] != NOBODY ==> t.cursor == t.serviceOf[uid])
    ensures Inv(lim, Clear(lim, t, uid))
    ensures Clear(lim, t, uid).serviceOf == t.serviceOf[uid := NOBODY]
  {
    var t' := Clear(lim, t, uid);
    if t.serviceOf[uid] != NOBODY {
      forall g | 0 <= g < lim.services
        ensures Players(t', g) == if g == t.serviceOf[uid] then Players(t, g) - {uid} else Players(t, g)
      {
      }
      assert uid in Players(t, t.serviceOf[uid]);
    }
  }

  lemma SendKept(lim: Limits, t: Table, msg: Message)
    requires Inv(lim, t) && ValidUid(lim, msg.uid)
    ensures Inv(lim, Send(lim, t, msg).0)
    ensures Send(lim, t, msg).0.serviceOf == t.serviceOf
    ensures t.serviceOf[msg.uid] != NOBODY ==> Send(lim, t, msg).0.cursor == t.serviceOf[msg.uid]
  {
    var t' := Send(lim, t, msg).0;
    assert forall g :: Players(t', g) == Players(t, g);
  }

  /** Accounting: every message leaves online_player[g] equal to the number of sockets mapped to g, and within the cap,
      although close counts down through the cursor; except that, as written, a new socket that arrives when every
      service is full makes the router write outside its tables, and nothing else does. */
  lemma AccountsKept(v: Variant, lim: Limits, t: Table, msg: Message)
    requires Inv(lim, t) && ValidUid(lim, msg.uid)
    ensures var t' := Dispose(v, lim, t, msg).0;
            Inv(lim, t') <==>
            !(v == AsWritten && msg.kind == Success && t.serviceOf[msg.uid] == NOBODY && AllFull(lim, t))
  {
    hide Send, Clear, SetService, Players;
    match msg.kind
    case Data => SendKept(lim, t, msg);
    case Closed =>
      SendKept(lim, t, msg);
      ClearKept(lim, Send(lim, t, msg).0, msg.uid);
    case Success =>
      SetKept(v, lim, t, msg.uid);
      var (t1, ok) := SetService(v, lim, t, msg.uid);
      if !t1.fault && ok { SendKept(lim, t1, msg); }
  }

  /** Distribute answers a service exactly when some service is below its cap, and then the lowest such one. */
  lemma DistributeIs(v: Variant, lim: Limits, t: Table)
    requires Shape(lim, t)
    ensures var id := Distribute(v, lim, t);
            if AllFull(lim, t) then id == (if v == AsWritten then 255 else -1)
            else 0 <= id < lim.services && t.online[id] < lim.cap && forall g :: 0 <= g < id ==> lim.cap <= t.online[g]
  {
    LowestOpenIs(lim, t.online, 0);
  }

  // ---------- a full house ----------

  ghost predicate Sockets(lim: Limits, us: seq<int>) {
    NoDup(us) && forall i :: 0 <= i < |us| ==> ValidUid(lim, us[i])
  }

  /** The table after the connects of the sockets us, in this order. */
  ghost function Connects(v: Variant, lim: Limits, cursor: int, us: seq<int>): (t: Table)
    requires 0 < lim.services < 255 && Sockets(lim, us)
    ensures Shape(lim, t)
  {
    if us == [] then Init(lim, cursor)
    else
      hide LowestOpen;
      var t := Connects(v, lim, cursor, us[..|us| - 1]);
      DisposeShape(v, lim, t, Message(Success, us[|us| - 1]));
      Dispose(v, lim, t, Message(Success, us[|us| - 1])).0
  }

  lemma DisposeShape(v: Variant, lim: Limits, t: Table, msg: Message)
    requires Shape(lim, t) && ValidUid(lim, msg.uid)
    ensures Shape(lim, Dispose(v, lim, t, msg).0)
  {
    LowestOpenIs(lim, t.online, 0);
  }

  /** The first g services are full, service g has r players, the others none, and only sockets of us are known. */
  ghost predicate FilledTo(lim: Limits, t: Table, g: nat, r: nat, us: seq<int>)
    requires Shape(lim, t)
  {
    && !t.fault && g <= lim.services && r <= lim.cap && (g == lim.services ==> r == 0)
    && (forall i :: 0 <= i < lim.services ==> t.online[i] == if i < g then lim.cap else if i == g then r else 0)
    && (forall u :: 0 <= u < lim.uids && u !in us ==> t.serviceOf[u] == NOBODY)
  }

  lemma OneMoreConnects(v: Variant, lim: Limits, t: Table, g: nat, r: nat, us: seq<int>, u: int)
    requires Shape(lim, t) && FilledTo(lim, t, g, r, us) && g < lim.services && r < lim.cap
    requires ValidUid(lim, u) && u !in us
    ensures var t' := Dispose(v, lim, t, Message(Success, u)).0;
            Shape(lim, t') && FilledTo(lim, t', g, r + 1, us + [u])
  {
    hide LowestOpen;
    LowestOpenIs(lim, t.online, 0);
    assert t.online[g] == r;
    assert LowestOpen(lim, t.online, 0) == Some(g) by {
      assert LowestOpen(lim, t.online, 0).Some? && !(LowestOpen(lim, t.online, 0).value < g);
    }
  }

  lemma ServiceFills(v: Variant, lim: Limits, cursor: int, g: nat, us: seq<int>, n: nat)
    requires 0 < lim.services < 255 && g < lim.services && Sockets(lim, us) && n + lim.cap <= |us|
    requires FilledTo(lim, Connects(v, lim, cursor, us[..n]), g, 0, us[..n])
    ensures FilledTo(lim, Connects(v, lim, cursor, us[..n + lim.cap]), g + 1, 0, us[..n + lim.cap])
  {
    hide Dispose, Init, FilledTo, Shape;
    for r := 0 to lim.cap
      invariant FilledTo(lim, Connects(v, lim, cursor, us[..n + r]), g, r, us[..n + r])
    {
      OneMoreConnects(v, lim, Connects(v, lim, cursor, us[..n + r]), g, r, us[..n + r], us[n + r]);
      assert us[..n + r + 1] == us[..n + r] + [us[n + r]];
    }
    NextService(lim, Connects(v, lim, cursor, us[..n + lim.cap]), g, us[..n + lim.cap]);
  }

  lemma NextService(lim: Limits, t: Table, g: nat, us: seq<int>)
    requires Shape(lim, t) && g < lim.services && FilledTo(lim, t, g, lim.cap, us)
    ensures FilledTo(lim, t, g + 1, 0, us)
  {
  }

  /** As long as any distinct sockets take all places one by one nothing goes wrong, and then all services are full. One
      more makes the code as written leave its tables; repaired, it is refused. */
  lemma FullHouseFails(v: Variant, lim: Limits, cursor: int, us: seq<int>)
    requires 0 < lim.services < 255 && Sockets(lim, us) && |us| == lim.services * lim.cap + 1
    ensures var n := lim.services * lim.cap;
            var t, t' := Connects(v, lim, cursor, us[..n]), Connects(v, lim, cursor, us);
            && !t.fault && AllFull(lim, t) && (t'.fault <==> v == AsWritten) && (v == Repaired ==> t' == t)
  {
    hide Dispose, Init, FilledTo, Shape, AllFull;
    assert us[..0] == [];
    InitFilled(lim, cursor);
    for g := 0 to lim.services
      invariant g * lim.cap < |us|
      invariant FilledTo(lim, Connects(v, lim, cursor, us[..g * lim.cap]), g, 0, us[..g * lim.cap])
    {
      PlacesFit(g + 1, lim.services, lim.cap);
      assert (g + 1) * lim.cap == g * lim.cap + lim.cap;
      ServiceFills(v, lim, cursor, g, us, g * lim.cap);
    }
    var n := lim.services * lim.cap;
    assert us[..|us| - 1] == us[..n];
    LastConnect(v, lim, Connects(v, lim, cursor, us[..n]), us[..n], us[n]);
  }

  lemma PlacesFit(g: nat, services: nat, cap: nat)
    requires g <= services
    ensures g * cap <= services * cap
  {
  }

  lemma InitFilled(lim: Limits, cursor: int)
    requires 0 < lim.services < 255
    ensures FilledTo(lim, Init(lim, cursor), 0, 0, [])
  {
  }

  lemma LastConnect(v: Variant, lim: Limits, t: Table, us: seq<int>, u: int)
    requires Shape(lim, t) && FilledTo(lim, t, lim.services, 0, us) && ValidUid(lim, u) && u !in us
    ensures var t' := Dispose(v, lim, t, Message(Success, u)).0;
            !t.fault && AllFull(lim, t) && (t'.fault <==> v == AsWritten) && (v == Repaired ==> t' == t)
  {
    LowestOpenIs(lim, t.online, 0);
  }

  /** In the server: any 801 clients that are there together make the router as written index its tables with 255. */
  lemma Client801(cursor: int, us: seq<int>)
    requires Sockets(SERVER, us) && |us| == 801
    ensures !Connects(AsWritten, SERVER, cursor, us[..800]).fault && Connects(AsWritten, SERVER, cursor, us).fault
  {
    FullHouseFails(AsWritten, SERVER, cursor, us);
  }
}
