/** Sessions on their way from the IO thread through the router to the game services: every interleaving of the IO
    thread's events, the router's queue and the queue back to the IO thread. */
module SessionPipeline {
  import opened Util
  import opened RouteAccounts

  /** open: the IO thread's view. toRouter and toIo: the queues between IO and router (toIo holds the ids of
      "service full" events). The rest is history: pushed, what IO sent about each id; taken, what the router took
      of it and whether the id was then in the table; delivered, what went to which service; refused, ids whose
      last session the router turned down. */
  datatype Sys = Sys(
    open: seq<bool>, toRouter: seq<Message>, table: Table, toIo: seq<int>,
    refused: seq<bool>, pushed: seq<seq<Kind>>, taken: seq<seq<(Kind, bool)>>, delivered: seq<seq<(int, Kind)>>)

  datatype Action =
    | Accept(uid: int)       // a client connects and gets id uid
    | Receive(uid: int)      // a message of the client was read
    | PeerClose(uid: int)    // read error or end of stream
    | WriteError(uid: int)   // write error
    | RouterTakes            // the router handles the next message
    | IoTakes                // the IO thread handles the next "service full" event

  function Init(lim: Limits, cursor: int): Sys {
    Sys(seq(lim.uids, _ => false), [], RouteAccounts.Init(lim, cursor), [],
        seq(lim.uids, _ => false), seq(lim.uids, _ => []), seq(lim.uids, _ => []), seq(lim.uids, _ => []))
  }

  ghost predicate Sized(lim: Limits, s: Sys) {
    && Shape(lim, s.table)
    && |s.open| == |s.refused| == |s.pushed| == |s.taken| == |s.delivered| == lim.uids
    && (forall i :: 0 <= i < |s.toRouter| ==> ValidUid(lim, s.toRouter[i].uid))
    && (forall i :: 0 <= i < |s.toIo| ==> ValidUid(lim, s.toIo[i]))
  }

  function Tell(s: Sys, msg: Message): Sys
    requires 0 <= msg.uid < |s.pushed|
  {
    s.(toRouter := s.toRouter + [msg], pushed := s.pushed[msg.uid := s.pushed[msg.uid] + [msg.kind]])
  }

  /** The id of a new client is free, and no "service full" event about its previous session is pending. */
  ghost predicate Drained(s: Sys, uid: int) {
    0 < uid < |s.open| && !s.open[uid] && uid !in s.toIo
  }

  ghost predicate Enabled(lim: Limits, s: Sys, a: Action) {
    && Sized(lim, s) && !s.table.fault
    && match a
       case Accept(uid) => Drained(s, uid)
       case Receive(uid) => 0 <= uid < lim.uids && s.open[uid]
       case PeerClose(uid) => 0 <= uid < lim.uids && s.open[uid]
       case WriteError(uid) => 0 <= uid < lim.uids && s.open[uid]
       case RouterTakes => s.toRouter != []
       case IoTakes => s.toIo != []
  }

  /** close_fd clears the socket's id before it is reported, so as written a write error closes id 0 at the router. */
  function Reported(v: Variant, uid: int): int {
    if v == AsWritten then 0 else uid
  }

  function Record(s: Sys, uid: int, outs: seq<Output>): Sys
    requires 0 <= uid < |s.delivered|
  {
    if outs == [] then s
    else match outs[0]
      case ToGame(g, msg) => s.(delivered := s.delivered[uid := s.delivered[uid] + [(g, msg.kind)]])
      case ServiceFull(u) => s.(toIo := s.toIo + [u])
  }

  ghost function Next(v: Variant, lim: Limits, s: Sys, a: Action): Sys
    requires Enabled(lim, s, a)
  {
    match a
    case Accept(uid) => Tell(s.(open := s.open[uid := true]), Message(Success, uid))
    case Receive(uid) => Tell(s, Message(Data, uid))
    case PeerClose(uid) => Tell(s.(open := s.open[uid := false]), Message(Closed, uid))
    case WriteError(uid) => Tell(s.(open := s.open[uid := false]), Message(Closed, Reported(v, uid)))
    case RouterTakes => Routed(v, lim, s)
    case IoTakes => s.(toIo := s.toIo[1..], open := s.open[s.toIo[0] := false])
  }

  ghost function Routed(v: Variant, lim: Limits, s: Sys): Sys
    requires Sized(lim, s) && s.toRouter != []
  {
    var msg := s.toRouter[0];
    var (table, outs) := Dispose(v, lim, s.table, msg);
    var known := 0 <= msg.uid < |table.serviceOf| && table.serviceOf[msg.uid] != NOBODY;
    Record(s.(toRouter := s.toRouter[1..], table := table,
              taken := s.taken[msg.uid := s.taken[msg.uid] + [(msg.kind, known)]],
              refused := s.refused[msg.uid := if msg.kind == Success then !known
                                              else if msg.kind == Closed then false else s.refused[msg.uid]]),
           msg.uid, outs)
  }

  // ---------- what the messages of one id mean ----------

  /** Off: no session; On: a session the router forwards; Turned: a session it refused, whose rest is still coming. */
  datatype Mode = Off | On | Turned

  function NextMode(m: Mode, k: Kind): Option<Mode> {
    match (m, k)
    case (Off, Success) => Some(On)
    case (On, Data) => Some(On)
    case (On, Closed) => Some(Off)
    case (Turned, Success) => Some(On)
    case (Turned, Data) => Some(Turned)
    case (Turned, Closed) => Some(Off)
    case _ => None
  }

  function After(m: Mode, ks: seq<Kind>): Option<Mode>
    decreases |ks|
  {
    if ks == [] then Some(m)
    else
      match NextMode(m, ks[0])
      case None => None
      case Some(n) => After(n, ks[1..])
  }

  lemma {:induction false} AfterAppend(m: Mode, ks: seq<Kind>, k: Kind)
    ensures After(m, ks + [k]) == match After(m, ks) case None => None case Some(n) => NextMode(n, k)
    decreases |ks|
  {
    if ks == [] {
      assert [] + [k] == [k];
      assert [k][1..] == [];
    } else {
      assert (ks + [k])[1..] == ks[1..] + [k];
      match NextMode(m, ks[0])
      case None =>
      case Some(n) => AfterAppend(n, ks[1..], k);
    }
  }

  /** The queued kinds of one id. */
  function Only(msgs: seq<Message>, uid: int): seq<Kind> {
    if msgs == [] then []
    else (if msgs[0].uid == uid then [msgs[0].kind] else []) + Only(msgs[1..], uid)
  }

  lemma {:induction false} OnlyAppend(msgs: seq<Message>, m: Message, uid: int)
    ensures Only(msgs + [m], uid) == Only(msgs, uid) + if m.uid == uid then [m.kind] else []
  {
    if msgs == [] {
      assert [] + [m] == [m];
      assert [m][1..] == [];
    } else {
      OnlyAppend(msgs[1..], m, uid);
      assert (msgs + [m])[1..] == msgs[1..] + [m];
    }
  }

  lemma {:induction false} OnlyHas(msgs: seq<Message>, k: Kind, uid: int)
    ensures k in Only(msgs, uid) <==> Message(k, uid) in msgs
  {
    if msgs != [] {
      OnlyHas(msgs[1..], k, uid);
      assert msgs == [msgs[0]] + msgs[1..];
    }
  }

  function ModeOf(s: Sys, uid: int): Mode
    requires 0 <= uid < |s.table.serviceOf| && uid < |s.refused|
  {
    if s.table.serviceOf[uid] != NOBODY then On else if s.refused[uid] then Turned else Off
  }

  // ---------- what was delivered ----------

  /** Whom a delivery log leaves inside a session: Some(None) nobody, Some(Some(g)) service g;
      None if the log is not a sequence of sessions that each go to one service. */
  function Delivering(log: seq<(int, Kind)>): Option<Option<int>> {
    if log == [] then Some(None) else DeliverOne(Delivering(log[..|log| - 1]), log[|log| - 1])
  }

  function DeliverOne(inside: Option<Option<int>>, entry: (int, Kind)): Option<Option<int>> {
    match (inside, entry)
    case (Some(None), (g, Success)) => Some(Some(g))
    case (Some(Some(h)), (g, Data)) => if g == h then Some(Some(h)) else None
    case (Some(Some(h)), (g, Closed)) => if g == h then Some(None) else None
    case _ => None
  }

  function Kinds(log: seq<(int, Kind)>): seq<Kind> {
    if log == [] then [] else Kinds(log[..|log| - 1]) + [log[|log| - 1].1]
  }

  function TakenKinds(log: seq<(Kind, bool)>): seq<Kind> {
    if log == [] then [] else TakenKinds(log[..|log| - 1]) + [log[|log| - 1].0]
  }

  /** The taken messages that belong to sessions the router did not refuse, and the mode after them. */
  function Survivors(log: seq<(Kind, bool)>): (Mode, seq<Kind>) {
    if log == [] then (Off, []) else Survive(Survivors(log[..|log| - 1]), log[|log| - 1])
  }

  function Survive(sofar: (Mode, seq<Kind>), entry: (Kind, bool)): (Mode, seq<Kind>) {
    match entry.0
    case Success => if entry.1 then (On, sofar.1 + [Success]) else (Turned, sofar.1)
    case Data => (sofar.0, if sofar.0 == On then sofar.1 + [Data] else sofar.1)
    case Closed => (Off, if sofar.0 == On then sofar.1 + [Closed] else sofar.1)
  }

  lemma DeliveredAppend(log: seq<(int, Kind)>, entry: (int, Kind))
    ensures Delivering(log + [entry]) == DeliverOne(Delivering(log), entry)
    ensures Kinds(log + [entry]) == Kinds(log) + [entry.1]
  {
    assert (log + [entry])[..|log|] == log;
  }

  lemma TakenAppend(log: seq<(Kind, bool)>, entry: (Kind, bool))
    ensures Survivors(log + [entry]) == Survive(Survivors(log), entry)
    ensures TakenKinds(log + [entry]) == TakenKinds(log) + [entry.0]
  {
    assert (log + [entry])[..|log|] == log;
  }

  // ---------- the invariant ----------

  /** The router's entry, after the messages still queued, is the IO thread's status;
      a refused session is open only while its "service full" event is pending. */
  ghost predicate InSync(lim: Limits, s: Sys, u: int)
    requires Sized(lim, s) && ValidUid(lim, u)
  {
    match After(ModeOf(s, u), Only(s.toRouter, u))
    case None => false
    case Some(On) => s.open[u]
    case Some(Off) => !s.open[u]
    case Some(Turned) => s.open[u] ==> u in s.toIo
  }

  ghost predicate HistoryOk(lim: Limits, s: Sys, u: int)
    requires Sized(lim, s) && ValidUid(lim, u)
  {
    && s.pushed[u] == TakenKinds(s.taken[u]) + Only(s.toRouter, u)
    && Survivors(s.taken[u]) == (ModeOf(s, u), Kinds(s.delivered[u]))
    && Delivering(s.delivered[u]) == Some(if s.table.serviceOf[u] != NOBODY then Some(s.table.serviceOf[u]) else None)
  }

  ghost predicate UidOk(lim: Limits, s: Sys, u: int)
    requires Sized(lim, s) && ValidUid(lim, u)
  {
    && InSync(lim, s, u) && HistoryOk(lim, s, u)
    && (s.refused[u] ==> s.table.serviceOf[u] == NOBODY)
    && (u in s.toIo ==> s.table.serviceOf[u] == NOBODY && Success !in Only(s.toRouter, u))
  }

  /** Id 0 is never handed out; the router only ever hears closes about it. */
  ghost predicate ZeroOk(lim: Limits, s: Sys)
    requires Sized(lim, s)
  {
    && 0 < lim.uids && !s.open[0] && s.table.serviceOf[0] == NOBODY && 0 !in s.toIo
    && forall k :: k in Only(s.toRouter, 0) ==> k == Closed
  }

  ghost predicate Inv(lim: Limits, s: Sys) {
    && Sized(lim, s) && RouteAccounts.Inv(lim, s.table) && ZeroOk(lim, s)
    && forall u :: 0 < u < lim.uids ==> UidOk(lim, s, u)
  }

  /** The router's next message is a connect and every service is full. */
  ghost predicate Refuses(lim: Limits, s: Sys)
    requires Sized(lim, s) && s.toRouter != []
  {
    var msg := s.toRouter[0];
    msg.kind == Success && s.table.serviceOf[msg.uid] == NOBODY && AllFull(lim, s.table)
  }

  /** What breaks the pipeline. As written: a write error of a session about which no "service full" event is pending,
      and any connect that has to be refused. Repaired: only refusing a connect whose id has already been given to the
      next client, whom the late "service full" event would then hit. */
  ghost predicate Breaks(v: Variant, lim: Limits, s: Sys, a: Action)
    requires Enabled(lim, s, a)
  {
    match a
    case WriteError(uid) => v == AsWritten && uid !in s.toIo
    case RouterTakes => Refuses(lim, s) && (v == AsWritten || s.toRouter[0] in s.toRouter[1..])
    case _ => false
  }

  // ---------- the steps ----------

  lemma {:induction false} TurnedFollows(ks: seq<Kind>)
    requires Success !in ks && After(On, ks).Some?
    ensures After(On, ks).value != Turned
    ensures After(Turned, ks) == Some(if After(On, ks).value == On then Turned else Off)
    decreases |ks|
  {
    if ks != [] {
      assert ks[0] in ks && ks[0] != Success;
      if ks[0] == Closed { OffNeedsSuccess(ks[1..]); } else { TurnedFollows(ks[1..]); }
    }
  }

  lemma OffNeedsSuccess(ks: seq<Kind>)
    ensures ks != [] && After(Off, ks).Some? ==> Success in ks
  {
    if ks != [] { assert ks[0] in ks; }
  }

  lemma {:induction false} NoSuccessNotOn(m: Mode, ks: seq<Kind>)
    requires Success !in ks && m != On
    ensures After(m, ks) != Some(On)
    decreases |ks|
  {
    if ks != [] && NextMode(m, ks[0]).Some? {
      assert ks[0] in ks;
      NoSuccessNotOn(NextMode(m, ks[0]).value, ks[1..]);
    }
  }

  /** What the router does with a message, in terms of its table. */
  lemma DisposeIs(v: Variant, lim: Limits, t: Table, msg: Message)
    requires RouteAccounts.Inv(lim, t) && ValidUid(lim, msg.uid)
    requires !(v == AsWritten && msg.kind == Success && t.serviceOf[msg.uid] == NOBODY && AllFull(lim, t))
    ensures var (t', outs) := Dispose(v, lim, t, msg);
            var g := t.serviceOf[msg.uid];
            && RouteAccounts.Inv(lim, t')
            && (msg.kind == Success && g == NOBODY && !AllFull(lim, t) ==>
                  && t'.serviceOf == t.serviceOf[msg.uid := t'.serviceOf[msg.uid]] && t'.serviceOf[msg.uid] != NOBODY
                  && outs == [ToGame(t'.serviceOf[msg.uid], msg)])
            && (msg.kind == Success && (g != NOBODY || AllFull(lim, t)) ==>
                  t'.serviceOf == t.serviceOf && outs == [ServiceFull(msg.uid)])
            && (msg.kind != Success ==>
                  && t'.serviceOf == (if msg.kind == Closed then t.serviceOf[msg.uid := NOBODY] else t.serviceOf)
                  && outs == if g == NOBODY then [] else [ToGame(g, msg)])
  {
    hide Clear, SetService, Players, Distribute, LowestOpen;
    AccountsKept(v, lim, t, msg);
    match msg.kind
    case Data =>
    case Closed =>
      SendKept(lim, t, msg);
      ClearKept(lim, Send(lim, t, msg).0, msg.uid);
    case Success => SetKept(v, lim, t, msg.uid);
  }

  /** A message pushed by the IO thread adds one step to its own id's future and leaves the others alone. */
  lemma PushAt(lim: Limits, s: Sys, open: seq<bool>, msg: Message, w: int)
    requires Sized(lim, s) && |open| == lim.uids && ValidUid(lim, msg.uid) && ValidUid(lim, w)
    ensures var s' := Tell(s.(open := open), msg);
            var before := After(ModeOf(s, w), Only(s.toRouter, w));
            && Sized(lim, s')
            && Only(s'.toRouter, w) == Only(s.toRouter, w) + (if msg.uid == w then [msg.kind] else [])
            && After(ModeOf(s', w), Only(s'.toRouter, w)) ==
               (if msg.uid != w || before == None then before else NextMode(before.value, msg.kind))
            && (HistoryOk(lim, s, w) ==> HistoryOk(lim, s', w))
  {
    hide Survivors, Delivering, Kinds, NextMode;
    OnlyAppend(s.toRouter, msg, w);
    if msg.uid == w { AfterAppend(ModeOf(s, w), Only(s.toRouter, w), msg.kind); }
    else { assert Only(s.toRouter, w) + [] == Only(s.toRouter, w); }
  }

  lemma AcceptKept(v: Variant, lim: Limits, s: Sys, uid: int)
    requires Inv(lim, s) && Enabled(lim, s, Accept(uid))
    ensures Inv(lim, Next(v, lim, s, Accept(uid)))
  {
    hide Survivors, Delivering, Kinds, TakenKinds, HistoryOk, After, Only, RouteAccounts.Inv;
    var s' := Next(v, lim, s, Accept(uid));
    PushAt(lim, s, s.open[uid := true], Message(Success, uid), 0);
    OnlyHas(s.toRouter, Success, uid);
    forall u | 0 < u < lim.uids ensures UidOk(lim, s', u) {
      assert UidOk(lim, s, u);
      PushAt(lim, s, s.open[uid := true], Message(Success, uid), u);
    }
  }

  lemma HeardKept(v: Variant, lim: Limits, s: Sys, uid: int, kind: Kind)
    requires Inv(lim, s) && 0 <= uid < lim.uids && s.open[uid] && kind != Success
    ensures Inv(lim, Tell(s.(open := s.open[uid := kind == Data]), Message(kind, uid)))
  {
    hide Survivors, Delivering, Kinds, TakenKinds, HistoryOk, After, Only, RouteAccounts.Inv;
    var open := s.open[uid := kind == Data];
    var s' := Tell(s.(open := open), Message(kind, uid));
    PushAt(lim, s, open, Message(kind, uid), 0);
    forall u | 0 < u < lim.uids ensures UidOk(lim, s', u) {
      assert UidOk(lim, s, u);
      PushAt(lim, s, open, Message(kind, uid), u);
    }
  }

  /** An open session is one that the router knows or will know iff no "service full" event about it is pending. */
  lemma OpenIsKnown(lim: Limits, s: Sys, uid: int)
    requires Inv(lim, s) && 0 < uid < lim.uids && s.open[uid]
    ensures After(ModeOf(s, uid), Only(s.toRouter, uid)) == Some(On) <==> uid !in s.toIo
  {
    hide Survivors, Delivering, Kinds, TakenKinds, HistoryOk, After, Only, RouteAccounts.Inv;
    assert UidOk(lim, s, uid);
    if uid in s.toIo { NoSuccessNotOn(ModeOf(s, uid), Only(s.toRouter, uid)); }
  }

  lemma MisreportedKeptIff(lim: Limits, s: Sys, uid: int)
    requires Inv(lim, s) && 0 <= uid < lim.uids && s.open[uid]
    ensures Inv(lim, Tell(s.(open := s.open[uid := false]), Message(Closed, 0))) <==> uid in s.toIo
  {
    hide Survivors, Delivering, Kinds, TakenKinds, HistoryOk, After, Only, RouteAccounts.Inv;
    var open := s.open[uid := false];
    var s' := Tell(s.(open := open), Message(Closed, 0));
    PushAt(lim, s, open, Message(Closed, 0), 0);
    OpenIsKnown(lim, s, uid);
    forall u | 0 < u < lim.uids ensures UidOk(lim, s', u) <==> !(u == uid && uid !in s.toIo) {
      assert UidOk(lim, s, u);
      PushAt(lim, s, open, Message(Closed, 0), u);
    }
    assert UidOk(lim, s', uid) || uid !in s.toIo;
  }

  lemma IoTakesKept(v: Variant, lim: Limits, s: Sys)
    requires Inv(lim, s) && Enabled(lim, s, IoTakes)
    ensures Inv(lim, Next(v, lim, s, IoTakes))
  {
    hide Survivors, Delivering, Kinds, TakenKinds, After, Only, RouteAccounts.Inv;
    var s' := Next(v, lim, s, IoTakes);
    forall u | 0 < u < lim.uids ensures UidOk(lim, s', u) {
      assert UidOk(lim, s, u);
      if u == s.toIo[0] { NoSuccessNotOn(ModeOf(s, u), Only(s.toRouter, u)); }
      assert s.toIo == [s.toIo[0]] + s.toIo[1..];
    }
  }

  /** How the router's step looks from the id of the message it takes and from any other id. */
  lemma RoutedIs(v: Variant, lim: Limits, s: Sys, w: int)
    requires Inv(lim, s) && s.toRouter != [] && 0 <= w < lim.uids && !(v == AsWritten && Refuses(lim, s))
    ensures var s' := Routed(v, lim, s);
            var msg := s.toRouter[0];
            var (g, g') := (s.table.serviceOf[msg.uid], s'.table.serviceOf[msg.uid]);
            && Sized(lim, s') && RouteAccounts.Inv(lim, s'.table) && s'.open == s.open && s'.pushed == s.pushed
            && Only(s.toRouter, w) == (if msg.uid == w then [msg.kind] else []) + Only(s'.toRouter, w)
            && s'.toRouter == s.toRouter[1..]
            && s'.toIo == s.toIo + (if msg.kind == Success && g' == g then [msg.uid] else [])
            && (msg.kind == Success && g == NOBODY ==> (g' == NOBODY <==> Refuses(lim, s)))
            && (w != msg.uid ==>
                  && s'.table.serviceOf[w] == s.table.serviceOf[w] && s'.refused[w] == s.refused[w]
                  && s'.taken[w] == s.taken[w] && s'.delivered[w] == s.delivered[w])
            && s'.taken[msg.uid] == s.taken[msg.uid] + [(msg.kind, g' != NOBODY)]
            && s'.delivered[msg.uid] == s.delivered[msg.uid] +
                 (if (if msg.kind == Success then g' == g else g == NOBODY) then []
                  else [(if msg.kind == Success then g' else g, msg.kind)])
            && s'.refused[msg.uid] ==
                 (if msg.kind == Success then g' == NOBODY else msg.kind != Closed && s.refused[msg.uid])
            && (msg.kind == Closed ==> g' == NOBODY) && (msg.kind == Data ==> g' == g)
            && (msg.kind == Success && g != NOBODY ==> g' == g)
  {
    hide Players, UidOk, ZeroOk, Dispose;
    DisposeIs(v, lim, s.table, s.toRouter[0]);
  }

  lemma RoutedHistory(v: Variant, lim: Limits, s: Sys, w: int)
    requires Inv(lim, s) && s.toRouter != [] && 0 < w < lim.uids && !Breaks(v, lim, s, RouterTakes)
    ensures HistoryOk(lim, Routed(v, lim, s), w)
  {
    hide Routed, Survivors, Delivering, Kinds, TakenKinds, Only, RouteAccounts.Inv;
    RoutedIs(v, lim, s, w);
    assert UidOk(lim, s, w);
    var s' := Routed(v, lim, s);
    var kind, g, g' := s.toRouter[0].kind, s.table.serviceOf[w], s'.table.serviceOf[w];
    if s.toRouter[0].uid == w {
      TakenAppend(s.taken[w], (kind, g' != NOBODY));
      assert TakenKinds(s.taken[w]) + ([kind] + Only(s'.toRouter, w)) == TakenKinds(s'.taken[w]) + Only(s'.toRouter, w);
      DeliveredAppend(s.delivered[w], (if kind == Success then g' else g, kind));
      assert s.delivered[w] + [] == s.delivered[w];
    } else {
      assert [] + Only(s'.toRouter, w) == Only(s'.toRouter, w);
    }
  }

  lemma RoutedAt(v: Variant, lim: Limits, s: Sys, w: int)
    requires Inv(lim, s) && s.toRouter != [] && 0 < w < lim.uids && !Breaks(v, lim, s, RouterTakes)
    ensures UidOk(lim, Routed(v, lim, s), w)
  {
    hide Routed, HistoryOk, Only, RouteAccounts.Inv;
    RoutedIs(v, lim, s, w);
    RoutedHistory(v, lim, s, w);
    assert UidOk(lim, s, w);
    var s' := Routed(v, lim, s);
    var rest := Only(s'.toRouter, w);
    if s.toRouter[0].uid == w {
      var all := Only(s.toRouter, w);
      assert all[0] == s.toRouter[0].kind && all[1..] == rest;
      if Success in rest { assert Success in all; }
      if all[0] == Success && s'.table.serviceOf[w] == NOBODY {
        OnlyHas(s.toRouter[1..], Success, w);
        TurnedFollows(rest);
      }
    } else {
      assert [] + rest == rest;
    }
  }

  lemma RoutedKeptIff(v: Variant, lim: Limits, s: Sys)
    requires Inv(lim, s) && Enabled(lim, s, RouterTakes)
    ensures Inv(lim, Routed(v, lim, s)) <==> !Breaks(v, lim, s, RouterTakes)
  {
    hide Routed, UidOk, Only, Dispose, SetService;
    var msg := s.toRouter[0];
    if v == AsWritten && Refuses(lim, s) {
      RouterFaults(lim, s);
    } else if Breaks(v, lim, s, RouterTakes) {
      ReusedIsHit(v, lim, s);
    } else {
      RoutedIs(v, lim, s, 0);
      forall w | 0 < w < lim.uids { RoutedAt(v, lim, s, w); }
      RoutedZero(v, lim, s);
    }
  }

  lemma RouterFaults(lim: Limits, s: Sys)
    requires Inv(lim, s) && s.toRouter != [] && Refuses(lim, s)
    ensures Routed(AsWritten, lim, s).table.fault
  {
    SetKept(AsWritten, lim, s.table, s.toRouter[0].uid);
  }

  lemma ReusedIsHit(v: Variant, lim: Limits, s: Sys)
    requires Inv(lim, s) && s.toRouter != [] && v == Repaired && Refuses(lim, s) && s.toRouter[0] in s.toRouter[1..]
    ensures !Inv(lim, Routed(v, lim, s))
  {
    hide Routed, Only, RouteAccounts.Inv;
    var u := s.toRouter[0].uid;
    RoutedIs(v, lim, s, u);
    OnlyHas(s.toRouter[1..], Success, u);
    var s' := Routed(v, lim, s);
    assert s'.toIo[|s'.toIo| - 1] == u;
    assert Only(s.toRouter, u)[0] == Success && Success in Only(s.toRouter, u);
    assert u != 0 && !UidOk(lim, s', u);
  }

  lemma RoutedZero(v: Variant, lim: Limits, s: Sys)
    requires Inv(lim, s) && s.toRouter != [] && !(v == AsWritten && Refuses(lim, s))
    ensures Sized(lim, Routed(v, lim, s)) && ZeroOk(lim, Routed(v, lim, s))
  {
    hide Routed, UidOk, Only, RouteAccounts.Inv;
    RoutedIs(v, lim, s, 0);
    var all, rest := Only(s.toRouter, 0), Only(Routed(v, lim, s).toRouter, 0);
    if s.toRouter[0].uid == 0 {
      assert all == [s.toRouter[0].kind] + rest;
      assert all[0] in all;
      forall k | k in rest ensures k in all { }
    } else {
      assert all == rest;
    }
  }

  /** One step of the whole pipeline keeps the invariant, except exactly where Breaks says so. */
  lemma PipelineKeptIff(v: Variant, lim: Limits, s: Sys, a: Action)
    requires Inv(lim, s) && Enabled(lim, s, a)
    ensures Inv(lim, Next(v, lim, s, a)) <==> !Breaks(v, lim, s, a)
  {
    hide UidOk, ZeroOk, RouteAccounts.Inv, Routed, After, Only, Tell, ModeOf, AllFull;
    match a
    case Accept(uid) => AcceptKept(v, lim, s, uid);
    case Receive(uid) => HeardKept(v, lim, s, uid, Data); StillOpen(s, uid);
    case PeerClose(uid) => HeardKept(v, lim, s, uid, Closed);
    case WriteError(uid) =>
      if v == AsWritten { MisreportedKeptIff(lim, s, uid); } else { HeardKept(v, lim, s, uid, Closed); }
    case RouterTakes => RoutedKeptIff(v, lim, s);
    case IoTakes => IoTakesKept(v, lim, s);
  }

  lemma StillOpen(s: Sys, uid: int)
    requires 0 <= uid < |s.open| && s.open[uid]
    ensures s.(open := s.open[uid := true]) == s
  {
    assert s.open[uid := true] == s.open;
  }

  lemma InitInv(lim: Limits, cursor: int)
    requires 0 < lim.services < 255 && 0 < lim.uids
    ensures Inv(lim, Init(lim, cursor))
  {
    RouteAccounts.InitInv(lim, cursor);
  }

  // ---------- whole runs ----------

  /** Any interleaving of the three event loops: each state is the previous one after an enabled action. */
  ghost predicate IsRun(v: Variant, lim: Limits, cursor: int, actions: seq<Action>, states: seq<Sys>) {
    && |states| == |actions| + 1 && states[0] == Init(lim, cursor)
    && forall i :: 0 <= i < |actions| ==>
         Enabled(lim, states[i], actions[i]) && states[i + 1] == Next(v, lim, states[i], actions[i])
  }

  /** Every state of a run is in order if and only if no step of it breaks the pipeline. */
  lemma PipelineOnRuns(v: Variant, lim: Limits, cursor: int, actions: seq<Action>, states: seq<Sys>)
    requires 0 < lim.services < 255 && 0 < lim.uids
    requires IsRun(v, lim, cursor, actions, states)
    ensures (forall i :: 0 <= i < |states| ==> Inv(lim, states[i]))
            <==> (forall i :: 0 <= i < |actions| ==> !Breaks(v, lim, states[i], actions[i]))
  {
    hide Inv, Breaks, Enabled, Next, Init;
    InitInv(lim, cursor);
    if forall i :: 0 <= i < |states| ==> Inv(lim, states[i]) {
      forall i | 0 <= i < |actions| ensures !Breaks(v, lim, states[i], actions[i]) {
        PipelineKeptIff(v, lim, states[i], actions[i]);
        assert Inv(lim, states[i + 1]);
      }
    }
    if forall i :: 0 <= i < |actions| ==> !Breaks(v, lim, states[i], actions[i]) {
      for i := 0 to |actions|
        invariant forall k :: 0 <= k <= i ==> Inv(lim, states[k])
      {
        PipelineKeptIff(v, lim, states[i], actions[i]);
      }
    }
  }

  // ---------- what happened to one id ----------

  /** What the clients do with id u, told in S, D and C: S for each client that is given u, D for each message read from
      it, C for each end of it, by its peer or, repaired, by a write error. As written a write error is not told. */
  function Happened(v: Variant, actions: seq<Action>, u: int): seq<Kind> {
    if actions == [] then []
    else
      Happened(v, actions[..|actions| - 1], u) +
      match actions[|actions| - 1]
      case Accept(w) => if w == u then [Success] else []
      case Receive(w) => if w == u then [Data] else []
      case PeerClose(w) => if w == u then [Closed] else []
      case WriteError(w) => if w == u && v == Repaired then [Closed] else []
      case RouterTakes => []
      case IoTakes => []
  }

  lemma ToldIs(v: Variant, lim: Limits, s: Sys, a: Action, u: int)
    requires Enabled(lim, s, a) && 0 < u < lim.uids
    ensures |Next(v, lim, s, a).pushed| == lim.uids
    ensures Next(v, lim, s, a).pushed[u] == s.pushed[u] + Happened(v, [a], u)
  {
    hide Dispose;
    assert [a][..0] == [] && Happened(v, [], u) == [];
    assert s.pushed[u] + [] == s.pushed[u];
  }

  lemma HappenedAppend(v: Variant, actions: seq<Action>, a: Action, u: int)
    ensures Happened(v, actions + [a], u) == Happened(v, actions, u) + Happened(v, [a], u)
  {
    assert (actions + [a])[..|actions|] == actions;
    assert [a][..0] == [] && Happened(v, [], u) == [];
  }

  /** On every run, in order or not, the IO thread tells the router exactly what happened to every id. */
  lemma {:induction false} AllIsTold(v: Variant, lim: Limits, cursor: int, actions: seq<Action>, states: seq<Sys>,
                                     i: nat, u: int)
    requires IsRun(v, lim, cursor, actions, states) && i < |states| && 0 < u < lim.uids
    ensures |states[i].pushed| == lim.uids && states[i].pushed[u] == Happened(v, actions[..i], u)
    decreases i
  {
    hide Next, Enabled;
    if i > 0 {
      hide Happened;
      AllIsTold(v, lim, cursor, actions, states, i - 1, u);
      ToldIs(v, lim, states[i - 1], actions[i - 1], u);
      HappenedAppend(v, actions[..i - 1], actions[i - 1], u);
      assert actions[..i - 1] + [actions[i - 1]] == actions[..i];
    }
  }

  // ---------- how the queues run dry ----------

  /** What the router's thread and the IO thread do when they take a message out of their queue. */
  lemma TakesIs(v: Variant, lim: Limits, s: Sys)
    requires Inv(lim, s)
    ensures s.toRouter != [] ==>
              var s' := Next(v, lim, s, RouterTakes);
              && [s.toRouter[0]] + s'.toRouter == s.toRouter && s'.open == s.open
              && |s'.toIo| <= |s.toIo| + 1
    ensures s.toIo != [] ==>
              var s' := Next(v, lim, s, IoTakes);
              && [s.toIo[0]] + s'.toIo == s.toIo && s'.toRouter == s.toRouter && s'.table == s.table
              && |s'.open| == lim.uids
              && forall u :: 0 <= u < lim.uids ==> s'.open[u] == (s.open[u] && u != s.toIo[0])
  {
    hide UidOk, ZeroOk, Players, Clear, SetService;
  }

  /** The actions from s on. */
  ghost predicate Continues(v: Variant, lim: Limits, s: Sys, actions: seq<Action>, ss: seq<Sys>) {
    && |ss| == |actions| + 1 && ss[0] == s
    && forall i :: 0 <= i < |actions| ==>
         Enabled(lim, ss[i], actions[i]) && ss[i + 1] == Next(v, lim, ss[i], actions[i])
  }

  /** Nothing is under way, and the router knows exactly the open sessions. */
  ghost predicate Settled(lim: Limits, s: Sys) {
    && Sized(lim, s) && s.toRouter == [] && s.toIo == []
    && forall u :: 0 < u < lim.uids ==> (s.open[u] <==> s.table.serviceOf[u] != NOBODY)
                                        && TakenKinds(s.taken[u]) == s.pushed[u]
  }

  lemma EmptyIsSettled(lim: Limits, s: Sys)
    requires Inv(lim, s) && s.toRouter == [] && s.toIo == []
    ensures Settled(lim, s)
  {
    hide Survivors, Delivering, TakenKinds, RouteAccounts.Inv;
    forall u | 0 < u < lim.uids
      ensures (s.open[u] <==> s.table.serviceOf[u] != NOBODY) && TakenKinds(s.taken[u]) == s.pushed[u]
    {
      assert UidOk(lim, s, u);
      assert TakenKinds(s.taken[u]) + [] == TakenKinds(s.taken[u]);
    }
  }

  /** From any state in order, once the clients are quiet: the router and then the IO thread handle what is queued,
      after which the router knows exactly the open sessions and has taken all it was told, unless a breaking step
      comes first. */
  lemma {:induction false} QueuesRunDry(v: Variant, lim: Limits, s: Sys) returns (actions: seq<Action>, ss: seq<Sys>)
    requires Inv(lim, s)
    ensures Continues(v, lim, s, actions, ss) && |actions| <= 2 * |s.toRouter| + |s.toIo|
    ensures forall i :: 0 <= i < |actions| ==> actions[i].RouterTakes? || actions[i].IoTakes?
    ensures (exists i :: 0 <= i < |actions| && Breaks(v, lim, ss[i], actions[i])) || Settled(lim, ss[|actions|])
    decreases 2 * |s.toRouter| + |s.toIo|
  {
    hide Next, Breaks, Settled;
    if s.toRouter == [] && s.toIo == [] {
      EmptyIsSettled(lim, s);
      actions, ss := [], [s];
    } else {
      var a := if s.toRouter != [] then RouterTakes else IoTakes;
      TakesIs(v, lim, s);
      PipelineKeptIff(v, lim, s, a);
      if Breaks(v, lim, s, a) {
        actions, ss := [a], [s, Next(v, lim, s, a)];
        assert Breaks(v, lim, ss[0], actions[0]);
      } else {
        hide Inv;
        var more, rest := QueuesRunDry(v, lim, Next(v, lim, s, a));
        actions, ss := [a] + more, [s] + rest;
        if i :| 0 <= i < |more| && Breaks(v, lim, rest[i], more[i]) {
          assert Breaks(v, lim, ss[i + 1], actions[i + 1]);
        }
      }
    }
  }

  // ---------- what one service sees of one id ----------

  function ToService(log: seq<(int, Kind)>, g: int): seq<Kind> {
    if log == [] then []
    else ToService(log[..|log| - 1], g) + if log[|log| - 1].0 == g then [log[|log| - 1].1] else []
  }

  /** A prefix of (S D* C)*: a connect comes first and right after every close, and nowhere else. */
  ghost predicate Sessions(ks: seq<Kind>) {
    forall i :: 0 <= i < |ks| ==> (ks[i] == Success <==> Between(ks, i))
  }

  ghost predicate Between(ks: seq<Kind>, i: nat)
    requires i <= |ks|
  {
    i == 0 || ks[i - 1] == Closed
  }

  lemma SessionsAppend(ks: seq<Kind>, k: Kind)
    requires Sessions(ks) && (k == Success <==> Between(ks, |ks|))
    ensures Sessions(ks + [k])
  {
    var longer := ks + [k];
    forall i | 0 <= i < |longer| ensures longer[i] == Success <==> Between(longer, i) {
      assert i < |ks| ==> (ks[i] == Success <==> Between(ks, i));
    }
  }

  lemma {:induction false} ServiceSeesSessions(log: seq<(int, Kind)>, g: int)
    requires Delivering(log).Some?
    ensures Sessions(ToService(log, g))
    ensures var ks := ToService(log, g);
            Delivering(log) == Some(Some(g)) <==> !Between(ks, |ks|)
  {
    if log != [] {
      var front, last := log[..|log| - 1], log[|log| - 1];
      ServiceSeesSessions(front, g);
      if last.0 == g { SessionsAppend(ToService(front, g), last.1); }
      else { assert ToService(log, g) == ToService(front, g); }
    }
  }

  /** In every state of a run without such a step: what each service received about an id is a prefix of
      (S D* C)*; all deliveries together are, in order, what the router took of the sessions it did not refuse;
      what it took and what is still queued is, in order, what happened to the id; and the queued rest turns the
      router's entry into the IO thread's open or closed status, a refused session awaiting its "full" event
      excepted. */
  lemma PipelineDelivers(v: Variant, lim: Limits, cursor: int, actions: seq<Action>, states: seq<Sys>,
                         i: nat, u: int, g: int)
    requires 0 < lim.services < 255 && 0 < u < lim.uids
    requires IsRun(v, lim, cursor, actions, states) && i < |states|
    requires forall j :: 0 <= j < |actions| ==> !Breaks(v, lim, states[j], actions[j])
    ensures Sized(lim, states[i]) && HistoryOk(lim, states[i], u) && InSync(lim, states[i], u)
    ensures TakenKinds(states[i].taken[u]) + Only(states[i].toRouter, u) == Happened(v, actions[..i], u)
    ensures Sessions(ToService(states[i].delivered[u], g))
  {
    hide Breaks, Enabled, Next, Init, HistoryOk, InSync, RouteAccounts.Inv, ZeroOk;
    PipelineOnRuns(v, lim, cursor, actions, states);
    assert Inv(lim, states[i]) && UidOk(lim, states[i], u);
    HistorySessions(lim, states[i], u, g);
    AllIsTold(v, lim, cursor, actions, states, i, u);
  }

  lemma HistorySessions(lim: Limits, s: Sys, u: int, g: int)
    requires Sized(lim, s) && ValidUid(lim, u) && HistoryOk(lim, s, u)
    ensures Sessions(ToService(s.delivered[u], g))
    ensures s.pushed[u] == TakenKinds(s.taken[u]) + Only(s.toRouter, u)
  {
    ServiceSeesSessions(s.delivered[u], g);
  }

  // ---------- runs that break ----------

  /** The part of a state that decides what happens next. */
  ghost predicate At(lim: Limits, s: Sys, open: seq<bool>, msgs: seq<Message>, serviceOf: seq<int>, online: seq<int>,
                     toIo: seq<int>) {
    && Sized(lim, s) && !s.table.fault && s.open == open && s.toRouter == msgs
    && s.table.serviceOf == serviceOf && s.table.online == online && s.toIo == toIo
  }

  lemma RouterSteps(v: Variant, lim: Limits, s: Sys)
    requires Enabled(lim, s, RouterTakes)
    ensures var msg := s.toRouter[0];
            var (g, s') := (s.table.serviceOf[msg.uid], Next(v, lim, s, RouterTakes));
            && (msg.kind == Closed && g == NOBODY ==>
                  At(lim, s', s.open, s.toRouter[1..], s.table.serviceOf, s.table.online, s.toIo))
            && (msg.kind == Closed && 0 <= g < lim.services ==>
                  At(lim, s', s.open, s.toRouter[1..], s.table.serviceOf[msg.uid := NOBODY],
                     s.table.online[g := s.table.online[g] - 1], s.toIo))
            && (msg.kind == Success && g == NOBODY && s.table.online[0] < lim.cap ==>
                  At(lim, s', s.open, s.toRouter[1..], s.table.serviceOf[msg.uid := 0],
                     s.table.online[0 := s.table.online[0] + 1], s.toIo))
            && (msg.kind == Success && g == NOBODY && LowestOpen(lim, s.table.online, 0) == None && v == Repaired ==>
                  At(lim, s', s.open, s.toRouter[1..], s.table.serviceOf, s.table.online, s.toIo + [msg.uid]))
  {
  }

  /** A client is accepted and routed, its socket fails, and the close is reported for id 0: with all queues empty the
      router still has the client, who is gone. */
  lemma WriteErrorLeavesEntry(lim: Limits, cursor: int, u: int) returns (ss: seq<Sys>)
    requires 0 < lim.services < 255 && 0 < lim.cap && 0 < u < lim.uids
    ensures IsRun(AsWritten, lim, cursor, [Accept(u), RouterTakes, WriteError(u), RouterTakes], ss)
    ensures var s := ss[4];
            && Sized(lim, s) && s.toRouter == [] && s.toIo == [] && !s.open[u] && s.table.serviceOf[u] != NOBODY
  {
    hide Routed;
    var v, none, start := AsWritten, seq(lim.uids, _ => NOBODY), seq(lim.services, _ => 0);
    var shut := seq(lim.uids, _ => false);
    var s0 := Init(lim, cursor);
    assert At(lim, s0, shut, [], none, start, []);
    var s1 := Next(v, lim, s0, Accept(u));
    assert At(lim, s1, shut[u := true], [Message(Success, u)], none, start, []);
    RouterSteps(v, lim, s1);
    var s2 := Next(v, lim, s1, RouterTakes);
    var s3 := Next(v, lim, s2, WriteError(u));
    RouterSteps(v, lim, s3);
    ss := [s0, s1, s2, s3, Next(v, lim, s3, RouterTakes)];
  }

  /** One service with one place; ids 1 and 2 belong to the server itself. */
  const TIGHT := Limits(1, 1, 5)

  /** Clients 3 and 4 come, 4 finds no place, both go, and the ids are given out again, 3 to a short visit: all before
      the router has looked, except at the first connect. */
  function Arrivals(): seq<Action> {
    [Accept(3), RouterTakes, Accept(4), PeerClose(4), PeerClose(3), Accept(3), PeerClose(3), Accept(4)]
  }

  /** What then waits for the router. */
  function Waiting(): seq<Message> {
    [Message(Success, 4), Message(Closed, 4), Message(Closed, 3), Message(Success, 3), Message(Closed, 3),
     Message(Success, 4)]
  }

  const ALL_SHUT := [false, false, false, false, false]
  const ONLY_3 := [false, false, false, true, false]
  const ONLY_4 := [false, false, false, false, true]
  const UNKNOWN := [-1, -1, -1, -1, -1]
  const KNOWS_3 := [-1, -1, -1, 0, -1]
  const KNOWS_4 := [-1, -1, -1, -1, 0]

  lemma FirstClient(cursor: int) returns (ss: seq<Sys>)
    ensures IsRun(Repaired, TIGHT, cursor, [Accept(3), RouterTakes], ss)
    ensures At(TIGHT, ss[2], ONLY_3, [], KNOWS_3, [1], [])
  {
    hide Routed;
    var s0 := Init(TIGHT, cursor);
    assert At(TIGHT, s0, ALL_SHUT, [], UNKNOWN, [0], []);
    var s1 := Next(Repaired, TIGHT, s0, Accept(3));
    assert At(TIGHT, s1, ONLY_3, [Message(Success, 3)], UNKNOWN, [0], []);
    RouterSteps(Repaired, TIGHT, s1);
    ss := [s0, s1, Next(Repaired, TIGHT, s1, RouterTakes)];
  }

  ghost predicate StepIs(s: Sys, a: Action, s': Sys) {
    Enabled(TIGHT, s, a) && s' == Next(Repaired, TIGHT, s, a)
  }

  lemma ComingAndGoing(s2: Sys) returns (ss: seq<Sys>)
    requires At(TIGHT, s2, ONLY_3, [], KNOWS_3, [1], [])
    ensures |ss| == 7 && ss[0] == s2
    ensures forall i :: 0 <= i < 6 ==> StepIs(ss[i], Arrivals()[i + 2], ss[i + 1])
    ensures At(TIGHT, ss[6], ONLY_4, Waiting(), KNOWS_3, [1], [])
  {
    hide Routed;
    var v, lim, w := Repaired, TIGHT, Waiting();
    var s3 := Next(v, lim, s2, Accept(4));
    assert At(lim, s3, [false, false, false, true, true], w[..1], KNOWS_3, [1], []);
    var s4 := Next(v, lim, s3, PeerClose(4));
    assert At(lim, s4, ONLY_3, w[..2], KNOWS_3, [1], []);
    var s5 := Next(v, lim, s4, PeerClose(3));
    assert At(lim, s5, ALL_SHUT, w[..3], KNOWS_3, [1], []);
    var s6 := Next(v, lim, s5, Accept(3));
    assert At(lim, s6, ONLY_3, w[..4], KNOWS_3, [1], []);
    var s7 := Next(v, lim, s6, PeerClose(3));
    assert At(lim, s7, ALL_SHUT, w[..5], KNOWS_3, [1], []);
    ss := [s2, s3, s4, s5, s6, s7, Next(v, lim, s7, Accept(4))];
  }

  /** The router catches up, and the late event about the first client 4 closes the second. */
  lemma LateEvent(s8: Sys) returns (ss: seq<Sys>)
    requires At(TIGHT, s8, ONLY_4, Waiting(), KNOWS_3, [1], [])
    ensures |ss| == 8 && ss[0] == s8
    ensures forall i :: 0 <= i < 6 ==> StepIs(ss[i], RouterTakes, ss[i + 1])
    ensures StepIs(ss[6], IoTakes, ss[7])
    ensures At(TIGHT, ss[6], ONLY_4, [], KNOWS_4, [1], [4])
    ensures At(TIGHT, ss[7], ALL_SHUT, [], KNOWS_4, [1], [])
  {
    hide Routed;
    var v, lim, w := Repaired, TIGHT, Waiting();
    RouterSteps(v, lim, s8);
    var s9 := Next(v, lim, s8, RouterTakes);
    assert At(lim, s9, ONLY_4, w[1..], KNOWS_3, [1], [4]);
    RouterSteps(v, lim, s9);
    var s10 := Next(v, lim, s9, RouterTakes);
    assert At(lim, s10, ONLY_4, w[2..], KNOWS_3, [1], [4]);
    RouterSteps(v, lim, s10);
    var s11 := Next(v, lim, s10, RouterTakes);
    assert At(lim, s11, ONLY_4, w[3..], UNKNOWN, [0], [4]);
    var rest := LateEventEnds(s11);
    ss := [s8, s9, s10] + rest;
  }

  lemma LateEventEnds(s11: Sys) returns (ss: seq<Sys>)
    requires At(TIGHT, s11, ONLY_4, Waiting()[3..], UNKNOWN, [0], [4])
    ensures |ss| == 5 && ss[0] == s11
    ensures forall i :: 0 <= i < 3 ==> StepIs(ss[i], RouterTakes, ss[i + 1])
    ensures StepIs(ss[3], IoTakes, ss[4])
    ensures At(TIGHT, ss[3], ONLY_4, [], KNOWS_4, [1], [4])
    ensures At(TIGHT, ss[4], ALL_SHUT, [], KNOWS_4, [1], [])
  {
    hide Routed;
    var v, lim, w := Repaired, TIGHT, Waiting();
    RouterSteps(v, lim, s11);
    var s12 := Next(v, lim, s11, RouterTakes);
    assert At(lim, s12, ONLY_4, w[4..], KNOWS_3, [1], [4]);
    RouterSteps(v, lim, s12);
    var s13 := Next(v, lim, s12, RouterTakes);
    assert At(lim, s13, ONLY_4, w[5..], UNKNOWN, [0], [4]);
    RouterSteps(v, lim, s13);
    var s14 := Next(v, lim, s13, RouterTakes);
    assert At(lim, s14, ONLY_4, [], KNOWS_4, [1], [4]);
    ss := [s11, s12, s13, s14, Next(v, lim, s14, IoTakes)];
  }

  /** The whole run, from the start and with the ids in the order of SocketPool.IdsComeRound: a connected client that
      the router has taken in is closed, nobody tells the router, and no message is under way. */
  lemma LateEventHitsNextClient(cursor: int) returns (states: seq<Sys>)
    ensures IsRun(Repaired, TIGHT, cursor,
                  Arrivals() + [RouterTakes, RouterTakes, RouterTakes, RouterTakes, RouterTakes, RouterTakes, IoTakes],
                  states)
    ensures |states| == 16 && At(TIGHT, states[14], ONLY_4, [], KNOWS_4, [1], [4])
    ensures At(TIGHT, states[15], ALL_SHUT, [], KNOWS_4, [1], [])
  {
    hide Next, Enabled, Init, At;
    var a := FirstClient(cursor);
    var b := ComingAndGoing(a[2]);
    var c := LateEvent(b[6]);
    states := a + b[1..] + c[1..];
    var actions :=
      Arrivals() + [RouterTakes, RouterTakes, RouterTakes, RouterTakes, RouterTakes, RouterTakes, IoTakes];
    forall i | 0 <= i < 15
      ensures Enabled(TIGHT, states[i], actions[i]) && states[i + 1] == Next(Repaired, TIGHT, states[i], actions[i])
    {
      if i < 2 {
        assert Arrivals()[i] == [Accept(3), RouterTakes][i];
      } else if i < 8 {
        assert StepIs(b[i - 2], Arrivals()[i - 2 + 2], b[i - 2 + 1]);
      } else if i < 14 {
        assert StepIs(c[i - 8], RouterTakes, c[i - 8 + 1]);
      }
    }
  }

  // ---------- as written, nothing is ever refused ----------

  /** As written, a run in order never sees a "service full" event: the code leaves its tables instead. */
  lemma NeverFull(lim: Limits, cursor: int, actions: seq<Action>, states: seq<Sys>, i: nat)
    requires 0 < lim.services < 255 && 0 < lim.uids
    requires IsRun(AsWritten, lim, cursor, actions, states) && i < |states|
    requires forall j :: 0 <= j < |actions| ==> !Breaks(AsWritten, lim, states[j], actions[j])
    ensures states[i].toIo == []
  {
    hide Breaks, Enabled, Next, Inv;
    PipelineOnRuns(AsWritten, lim, cursor, actions, states);
    for k := 0 to i
      invariant states[k].toIo == []
    {
      NoEvent(lim, states[k], actions[k]);
    }
  }

  lemma NoEvent(lim: Limits, s: Sys, a: Action)
    requires Inv(lim, s) && Enabled(lim, s, a) && !Breaks(AsWritten, lim, s, a) && s.toIo == []
    ensures Next(AsWritten, lim, s, a).toIo == []
  {
    hide Routed, Only, After, HistoryOk, RouteAccounts.Inv;
    if a.RouterTakes? {
      var u := s.toRouter[0].uid;
      RoutedIs(AsWritten, lim, s, u);
      if u != 0 { assert UidOk(lim, s, u); }
      if s.toRouter[0].kind == Success { KnownIsOpen(lim, s); }
    }
  }

  /** The router never gets a connect of a session it knows. */
  lemma KnownIsOpen(lim: Limits, s: Sys)
    requires Inv(lim, s) && s.toRouter != [] && s.toRouter[0].kind == Success
    ensures s.table.serviceOf[s.toRouter[0].uid] == NOBODY
  {
    hide HistoryOk, RouteAccounts.Inv;
    var u := s.toRouter[0].uid;
    var ks := Only(s.toRouter, u);
    assert ks[0] == Success && Success in ks;
    if u != 0 { assert UidOk(lim, s, u); }
  }

  /** So, as written, every write error breaks the pipeline if nothing has broken it before. */
  lemma EveryWriteErrorBreaks(lim: Limits, cursor: int, actions: seq<Action>, states: seq<Sys>, i: nat)
    requires 0 < lim.services < 255 && 0 < lim.uids
    requires IsRun(AsWritten, lim, cursor, actions, states) && i < |actions| && actions[i].WriteError?
    ensures exists j :: 0 <= j <= i && Breaks(AsWritten, lim, states[j], actions[j])
  {
    hide Enabled, Next, Inv;
    if forall j :: 0 <= j < i ==> !Breaks(AsWritten, lim, states[j], actions[j]) {
      assert IsRun(AsWritten, lim, cursor, actions[..i], states[..i + 1]);
      NeverFull(lim, cursor, actions[..i], states[..i + 1], i);
      assert Breaks(AsWritten, lim, states[i], actions[i]);
    }
  }
}
