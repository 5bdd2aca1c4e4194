/** Any number of threads running push and pop one assignment at a time under the test-and-set lock:
    the log of finished operations is a legal history of an atomic FIFO queue, in every interleaving. */
module QueueRefinement {
  import opened Util

  type Node = nat

  datatype Pc =
    | Idle
    | PushLock(n: Node)   // spinning before the critical section
    | PushHead(n: Node)   // if head is NULL, head := n
    | PushTail(n: Node)   // if tail is NULL, tail := n, else tail->next := n
    | PushLink(n: Node)   // tail := n
    | PushUnlock(n: Node)
    | PopLock
    | PopRead             // qtmp := head
    | PopTail(tmp: Node)  // if head is tail, tail := NULL
    | PopHead(tmp: Node)  // head := head->next
    | PopUnlock(ret: Option<Node>)
  {
    predicate Critical() { !Idle? && !PushLock? && !PopLock? }

    predicate Pushing() { PushLock? || PushHead? || PushTail? || PushLink? || PushUnlock? }
  }

  datatype Op = Pushed(thread: nat, n: Node) | Popped(thread: nat, ret: Option<Node>)

  /** live: the nodes handed to push and not yet returned by pop; any other node may be allocated. */
  datatype State = State(
    lock: int, head: Option<Node>, tail: Option<Node>, next: map<Node, Option<Node>>,
    pcs: seq<Pc>, live: set<Node>, log: seq<Op>)

  function NextOf(s: State, n: Node): Option<Node> { if n in s.next then s.next[n] else None }

  function Goto(s: State, t: nat, pc: Pc): State
    requires t < |s.pcs|
  {
    s.(pcs := s.pcs[t := pc])
  }

  datatype Action = BeginPush(n: Node) | BeginPop | Continue

  /** One atomic step of thread t. */
  ghost predicate Step(s: State, t: nat, a: Action, s': State) {
    t < |s.pcs| &&
    match a
    case BeginPush(n) => s.pcs[t].Idle? && n !in s.live
                         && s' == Goto(s, t, PushLock(n)).(next := s.next[n := None], live := s.live + {n})
    case BeginPop => s.pcs[t].Idle? && s' == Goto(s, t, PopLock)
    case Continue => !s.pcs[t].Idle? && s' == Next(s, t)
  }

  function Next(s: State, t: nat): State
    requires t < |s.pcs| && !s.pcs[t].Idle?
  {
    match s.pcs[t]
    case PushLock(n) => if s.lock == 0 then Goto(s, t, PushHead(n)).(lock := 1) else s
    case PushHead(n) => if s.head.None? then Goto(s, t, PushTail(n)).(head := Some(n)) else Goto(s, t, PushTail(n))
    case PushTail(n) =>
      if s.tail.None? then Goto(s, t, PushUnlock(n)).(tail := Some(n))
      else Goto(s, t, PushLink(n)).(next := s.next[s.tail.value := Some(n)])
    case PushLink(n) => Goto(s, t, PushUnlock(n)).(tail := Some(n))
    case PushUnlock(n) => Goto(s, t, Idle).(lock := 0, log := s.log + [Pushed(t, n)])
    case PopLock => if s.lock == 0 then Goto(s, t, PopRead).(lock := 1) else s
    case PopRead => if s.head.None? then Goto(s, t, PopUnlock(None)) else Goto(s, t, PopTail(s.head.value))
    case PopTail(tmp) => if s.head == s.tail then Goto(s, t, PopHead(tmp)).(tail := None) else Goto(s, t, PopHead(tmp))
    case PopHead(tmp) =>
      if s.head.None? then s
      else Goto(s, t, PopUnlock(Some(tmp))).(head := NextOf(s, s.head.value))
    case PopUnlock(ret) =>
      Goto(s, t, Idle).(lock := 0, log := s.log + [Popped(t, ret)],
                        live := if ret.Some? then s.live - {ret.value} else s.live)
  }

  function Init(threads: nat): State {
    State(0, None, None, map[], seq(threads, _ => Idle), {}, [])
  }

  // ---------- the atomic queue ----------

  /** The queue after the operations of the log, if each of them is what an atomic FIFO queue would do. */
  function Replay(log: seq<Op>): Option<seq<Node>> {
    if log == [] then Some([])
    else
      match Replay(log[..|log| - 1])
      case None => None
      case Some(q) =>
        match log[|log| - 1]
        case Pushed(_, n) => Some(q + [n])
        case Popped(_, None) => if q == [] then Some(q) else None
        case Popped(_, Some(n)) => if q != [] && q[0] == n then Some(q[1..]) else None
  }

  function PushedNodes(log: seq<Op>): seq<Node> {
    if log == [] then []
    else PushedNodes(log[..|log| - 1]) + if log[|log| - 1].Pushed? then [log[|log| - 1].n] else []
  }

  function PoppedNodes(log: seq<Op>): seq<Node> {
    if log == [] then []
    else
      var last := log[|log| - 1];
      PoppedNodes(log[..|log| - 1]) + if last.Popped? && last.ret.Some? then [last.ret.value] else []
  }

  /** In a legal history the nodes popped so far, then the queue, are the nodes pushed so far, in order. */
  lemma {:induction false} ReplayConserves(log: seq<Op>)
    requires Replay(log).Some?
    ensures PushedNodes(log) == PoppedNodes(log) + Replay(log).value
  {
    if log != [] {
      ReplayConserves(log[..|log| - 1]);
    }
  }

  // ---------- the invariant ----------

  /** The list in memory is q: head, tail and the next pointers agree with it. */
  ghost predicate ListIs(s: State, q: seq<Node>) {
    && s.head == (if q == [] then None else Some(q[0]))
    && s.tail == (if q == [] then None else Some(q[|q| - 1]))
    && Chained(s, q)
  }

  ghost predicate Chained(s: State, q: seq<Node>) {
    && (forall i :: 0 <= i < |q| - 1 ==> NextOf(s, q[i]) == Some(q[i + 1]))
    && (q != [] ==> NextOf(s, q[|q| - 1]) == None)
  }

  /** What memory looks like while thread t is at pc and the finished operations leave q. */
  ghost predicate AtPc(s: State, pc: Pc, q: seq<Node>) {
    match pc
    case PushTail(n) =>
      && s.head == Some(if q == [] then n else q[0])
      && s.tail == (if q == [] then None else Some(q[|q| - 1])) && Chained(s, q)
    case PushLink(n) => q != [] && s.head == Some(q[0]) && s.tail == Some(q[|q| - 1]) && Chained(s, q + [n])
    case PushUnlock(n) => ListIs(s, q + [n])
    case PopTail(tmp) => ListIs(s, q) && q != [] && tmp == q[0]
    case PopHead(tmp) =>
      && q != [] && tmp == q[0] && s.head == Some(q[0]) && Chained(s, q)
      && s.tail == (if |q| == 1 then None else Some(q[|q| - 1]))
    case PopUnlock(None) => q == [] && ListIs(s, q)
    case PopUnlock(Some(n)) => q != [] && n == q[0] && ListIs(s, q[1..])
    case _ => ListIs(s, q)
  }

  ghost predicate ThreadOk(s: State, t: nat, q: seq<Node>)
    requires t < |s.pcs|
  {
    && (s.pcs[t].Critical() ==> s.lock == 1 && AtPc(s, s.pcs[t], q))
    && (s.pcs[t].Pushing() ==> s.pcs[t].n in s.live && s.pcs[t].n !in q && NextOf(s, s.pcs[t].n) == None)
  }

  ghost predicate Apart(s: State, t: nat, u: nat)
    requires t < |s.pcs| && u < |s.pcs|
  {
    t != u ==>
      && !(s.pcs[t].Critical() && s.pcs[u].Critical())
      && (s.pcs[t].Pushing() && s.pcs[u].Pushing() ==> s.pcs[t].n != s.pcs[u].n)
  }

  ghost predicate InvWith(s: State, q: seq<Node>) {
    && NoDup(q) && (forall n :: n in q ==> n in s.live)
    && (forall t :: 0 <= t < |s.pcs| ==> ThreadOk(s, t, q))
    && (forall t, u :: 0 <= t < |s.pcs| && 0 <= u < |s.pcs| ==> Apart(s, t, u))
    && (s.lock == 0 || s.lock == 1)
    && (s.lock == 0 ==> ListIs(s, q))
    && (s.lock == 1 ==> HasOwner(s))
  }

  /** Some thread is in its critical section. */
  ghost predicate HasOwner(s: State) {
    exists t :: 0 <= t < |s.pcs| && s.pcs[t].Critical()
  }

  /** The history is legal, at most one thread is in its critical section, and memory holds the replayed queue. */
  ghost predicate Inv(s: State) {
    Replay(s.log).Some? && InvWith(s, Replay(s.log).value)
  }

  lemma InitInv(threads: nat)
    ensures Inv(Init(threads))
  {
  }

  lemma ReplayOne(log: seq<Op>, op: Op)
    ensures Replay(log + [op]) ==
            match Replay(log)
            case None => None
            case Some(q) =>
              match op
              case Pushed(_, n) => Some(q + [n])
              case Popped(_, None) => if q == [] then Some(q) else None
              case Popped(_, Some(n)) => if q != [] && q[0] == n then Some(q[1..]) else None
  {
    assert (log + [op])[..|log|] == log;
  }

  lemma AtPcFrame(s: State, s': State, pc: Pc, q: seq<Node>)
    requires AtPc(s, pc, q) && s'.head == s.head && s'.tail == s.tail
    requires forall x :: x in q || (pc.Pushing() && x == pc.n) ==> NextOf(s', x) == NextOf(s, x)
    ensures AtPc(s', pc, q)
  {
    hide NextOf;
  }

  lemma BeginThread(s: State, t: nat, a: Action, s': State, q: seq<Node>, u: nat)
    requires InvWith(s, q) && Step(s, t, a, s') && !a.Continue? && u < |s.pcs|
    ensures ThreadOk(s', u, q)
  {
    assert ThreadOk(s, u, q);
    hide AtPc;
    if u != t && s.pcs[u].Critical() { AtPcFrame(s, s', s.pcs[u], q); }
  }

  lemma BeginKeeps(s: State, t: nat, a: Action, s': State, q: seq<Node>)
    requires InvWith(s, q) && Step(s, t, a, s') && !a.Continue?
    ensures InvWith(s', q)
  {
    hide AtPc;
    forall u | 0 <= u < |s'.pcs| ensures ThreadOk(s', u, q) { BeginThread(s, t, a, s', q, u); }
    forall u, v | 0 <= u < |s'.pcs| && 0 <= v < |s'.pcs| ensures Apart(s', u, v) {
      assert Apart(s, u, v) && ThreadOk(s, u, q) && ThreadOk(s, v, q);
    }
    if s.lock == 0 {
      IdleList(s, q);
      AtPcFrame(s, s', Idle, q);
      IdleList(s', q);
    } else {
      OwnerStays(s, t, a, s');
    }
  }

  lemma IdleList(s: State, q: seq<Node>)
    ensures AtPc(s, Idle, q) <==> ListIs(s, q)
  {
  }

  /** What the step of the thread t itself does to the memory it describes. */
  ghost predicate OwnEffect(s: State, t: nat, s': State, q: seq<Node>)
    requires t < |s.pcs|
  {
    && s'.live == s.live && s'.log == s.log && |s'.pcs| == |s.pcs|
    && ThreadOk(s', t, q)
    && (forall u :: 0 <= u < |s.pcs| && u != t ==> s'.pcs[u] == s.pcs[u])
    && (forall n :: n !in q ==> NextOf(s', n) == NextOf(s, n))
    && (if s.pcs[t].Critical() then s'.lock == s.lock && s'.pcs[t].Critical()
        else if s.lock == 0 then s'.lock == 1 && s'.pcs[t].Critical()
        else s' == s)
    && s'.pcs[t].Pushing() == s.pcs[t].Pushing() && (s.pcs[t].Pushing() ==> s'.pcs[t].n == s.pcs[t].n)
  }

  lemma OwnPushTail(s: State, t: nat, s': State, q: seq<Node>)
    requires t < |s.pcs| && ThreadOk(s, t, q) && NoDup(q) && s.pcs[t].PushTail? && s' == Next(s, t)
    ensures OwnEffect(s, t, s', q)
  {
    var n := s.pcs[t].n;
    if q == [] {
      assert [] + [n] == [n];
    } else {
      LinkChain(s, s', q, n);
      hide Chained;
    }
  }

  lemma OwnPopHead(s: State, t: nat, s': State, q: seq<Node>)
    requires t < |s.pcs| && ThreadOk(s, t, q) && NoDup(q) && s.pcs[t].PopHead? && s' == Next(s, t)
    ensures OwnEffect(s, t, s', q)
  {
    assert forall i :: 0 <= i < |q[1..]| ==> q[1..][i] == q[i + 1];
  }

  lemma MiddleOwn(s: State, t: nat, s': State, q: seq<Node>)
    requires t < |s.pcs| && ThreadOk(s, t, q) && NoDup(q) && (s.lock == 0 ==> ListIs(s, q))
    requires !s.pcs[t].Idle? && s' == Next(s, t) && !s.pcs[t].PushUnlock? && !s.pcs[t].PopUnlock?
    ensures OwnEffect(s, t, s', q)
  {
    if s.pcs[t].PushTail? {
      OwnPushTail(s, t, s', q);
    } else if s.pcs[t].PopHead? {
      OwnPopHead(s, t, s', q);
    }
  }

  lemma LinkChain(s: State, s': State, q: seq<Node>, n: Node)
    requires q != [] && NoDup(q) && n !in q && Chained(s, q) && NextOf(s, n) == None
    requires s'.next == s.next[q[|q| - 1] := Some(n)]
    ensures Chained(s', q + [n])
  {
    forall i | 0 <= i < |q + [n]| - 1 ensures NextOf(s', (q + [n])[i]) == Some((q + [n])[i + 1]) {
      if i < |q| - 1 { assert q[i] != q[|q| - 1]; }
    }
  }

  /** A step that finishes no operation leaves the queue of finished operations as it is. */
  lemma MiddleKeeps(s: State, t: nat, s': State, q: seq<Node>)
    requires InvWith(s, q) && t < |s.pcs| && !s.pcs[t].Idle? && s' == Next(s, t)
    requires !s.pcs[t].PushUnlock? && !s.pcs[t].PopUnlock?
    ensures InvWith(s', q)
  {
    hide AtPc, Next, ListIs, NextOf;
    MiddleOwn(s, t, s', q);
    assert ThreadOk(s, t, q);
    forall u | 0 <= u < |s'.pcs| ensures ThreadOk(s', u, q) { assert ThreadOk(s, u, q) && Apart(s, t, u); }
    forall u, v | 0 <= u < |s'.pcs| && 0 <= v < |s'.pcs| ensures Apart(s', u, v) {
      assert Apart(s, u, v) && Apart(s, t, u) && Apart(s, t, v) && ThreadOk(s, u, q) && ThreadOk(s, v, q);
    }
  }

  /** The unlocking step of a push makes its node the last of the queue. */
  lemma PushFinishes(s: State, t: nat, s': State, q: seq<Node>)
    requires InvWith(s, q) && t < |s.pcs| && s.pcs[t].PushUnlock? && s' == Next(s, t)
    ensures InvWith(s', q + [s.pcs[t].n])
  {
    hide ListIs, NextOf, Chained;
    var n := s.pcs[t].n;
    SameList(s, s', q + [n]);
    assert ThreadOk(s, t, q);
    forall u | 0 <= u < |s'.pcs| ensures ThreadOk(s', u, q + [n]) { assert ThreadOk(s, u, q) && Apart(s, t, u); }
    forall u, v | 0 <= u < |s'.pcs| && 0 <= v < |s'.pcs| ensures Apart(s', u, v) { assert Apart(s, u, v); }
  }

  /** The unlocking step of a pop that found a node removes the first node of the queue. */
  lemma PopFinishes(s: State, t: nat, s': State, q: seq<Node>)
    requires InvWith(s, q) && t < |s.pcs| && s.pcs[t].PopUnlock? && s' == Next(s, t)
    ensures if s.pcs[t].ret.None? then q == [] && InvWith(s', q)
            else q != [] && s.pcs[t].ret.value == q[0] && InvWith(s', q[1..])
  {
    hide ListIs, NextOf, Chained;
    assert ThreadOk(s, t, q);
    var q' := if q == [] then q else q[1..];
    SameList(s, s', q');
    forall u | 0 <= u < |s'.pcs| ensures ThreadOk(s', u, q') { assert ThreadOk(s, u, q) && Apart(s, t, u); }
    forall u, v | 0 <= u < |s'.pcs| && 0 <= v < |s'.pcs| ensures Apart(s', u, v) { assert Apart(s, u, v); }
  }

  lemma SameList(s: State, s': State, q: seq<Node>)
    requires s'.head == s.head && s'.tail == s.tail && s'.next == s.next
    ensures ListIs(s', q) <==> ListIs(s, q)
    ensures forall n :: NextOf(s', n) == NextOf(s, n)
  {
  }

  /** Every atomic step of every thread either leaves the abstract queue alone or performs exactly one
      atomic queue operation on it: a push at its end, or a pop of its first element (none if it is empty). */
  lemma StepRefines(s: State, t: nat, a: Action, s': State)
    requires Inv(s) && Step(s, t, a, s')
    ensures Inv(s')
    ensures var q, q' := Replay(s.log).value, Replay(s'.log).value;
            if a.Continue? && s.pcs[t].PushUnlock? then q' == q + [s.pcs[t].n]
            else if a.Continue? && s.pcs[t].PopUnlock? then
              if s.pcs[t].ret.None? then q == [] && q' == q else q == [s.pcs[t].ret.value] + q'
            else q' == q
  {
    hide InvWith;
    var q := Replay(s.log).value;
    if !a.Continue? {
      BeginKeeps(s, t, a, s', q);
    } else if s.pcs[t].PushUnlock? {
      PushFinishes(s, t, s', q);
      ReplayOne(s.log, Pushed(t, s.pcs[t].n));
    } else if s.pcs[t].PopUnlock? {
      PopFinishes(s, t, s', q);
      ReplayOne(s.log, Popped(t, s.pcs[t].ret));
    } else {
      MiddleKeeps(s, t, s', q);
      MiddleLog(s, t, s');
    }
  }

  lemma OwnerStays(s: State, t: nat, a: Action, s': State)
    requires Step(s, t, a, s') && HasOwner(s) && s'.lock == 1
    ensures HasOwner(s')
  {
    hide NextOf;
    var u :| 0 <= u < |s.pcs| && s.pcs[u].Critical();
    assert u != t ==> s'.pcs[u].Critical();
    assert u == t ==> s'.pcs[t].Critical() || s'.lock == 0;
  }

  lemma MiddleLog(s: State, t: nat, s': State)
    requires t < |s.pcs| && !s.pcs[t].Idle? && s' == Next(s, t) && !s.pcs[t].PushUnlock? && !s.pcs[t].PopUnlock?
    ensures s'.log == s.log
  {
  }

  ghost predicate SomeStep(s: State, s': State) {
    exists t, a :: Step(s, t, a, s')
  }

  ghost predicate IsRun(ss: seq<State>, threads: nat) {
    |ss| > 0 && ss[0] == Init(threads) && forall i :: 0 <= i < |ss| - 1 ==> SomeStep(ss[i], ss[i + 1])
  }

  /** The nodes met by following next from `from`, at most `fuel` of them. */
  function Follow(s: State, from: Option<Node>, fuel: nat): seq<Node>
    decreases fuel
  {
    if from.None? || fuel == 0 then [] else [from.value] + Follow(s, NextOf(s, from.value), fuel - 1)
  }

  lemma {:induction false} FollowIs(s: State, q: seq<Node>, k: nat, fuel: nat)
    requires Chained(s, q) && k <= |q| && |q| - k < fuel
    ensures Follow(s, if k == |q| then None else Some(q[k]), fuel) == q[k..]
    decreases |q| - k
  {
    if k < |q| {
      FollowIs(s, q, k + 1, fuel - 1);
      assert q[k..] == [q[k]] + q[k + 1..];
    }
  }

  /** Linearizability: in every state of every interleaving the finished operations form a legal FIFO history;
      the nodes popped, followed by the queue, are the nodes pushed, in order, so nothing is lost, duplicated or
      reordered; at most one thread is in its critical section; and while the lock is free, the list in memory,
      followed from head until NULL, is that queue, its last node being tail. */
  lemma QueueIsAtomic(ss: seq<State>, threads: nat, i: nat)
    requires IsRun(ss, threads) && i < |ss|
    ensures Replay(ss[i].log).Some?
    ensures PushedNodes(ss[i].log) == PoppedNodes(ss[i].log) + Replay(ss[i].log).value
    ensures forall t, u :: 0 <= t < u < |ss[i].pcs| ==> !(ss[i].pcs[t].Critical() && ss[i].pcs[u].Critical())
    ensures ss[i].lock == 0 ==>
              var q := Replay(ss[i].log).value;
              && (forall fuel: nat :: |q| < fuel ==> Follow(ss[i], ss[i].head, fuel) == q)
              && ss[i].tail == (if q == [] then None else Some(q[|q| - 1]))
  {
    hide Inv;
    RunInv(ss, threads, i);
    InvMeans(ss[i]);
  }

  lemma InvMeans(s: State)
    requires Inv(s)
    ensures Replay(s.log).Some?
    ensures PushedNodes(s.log) == PoppedNodes(s.log) + Replay(s.log).value
    ensures forall t, u :: 0 <= t < u < |s.pcs| ==> !(s.pcs[t].Critical() && s.pcs[u].Critical())
    ensures s.lock == 0 ==>
              var q := Replay(s.log).value;
              && (forall fuel: nat :: |q| < fuel ==> Follow(s, s.head, fuel) == q)
              && s.tail == (if q == [] then None else Some(q[|q| - 1]))
  {
    hide Follow, ThreadOk, Replay, PushedNodes, PoppedNodes;
    ReplayConserves(s.log);
    var q := Replay(s.log).value;
    forall t, u | 0 <= t < u < |s.pcs| ensures !(s.pcs[t].Critical() && s.pcs[u].Critical()) { assert Apart(s, t, u); }
    if s.lock == 0 {
      forall fuel: nat | |q| < fuel ensures Follow(s, s.head, fuel) == q {
        FollowIs(s, q, 0, fuel);
        assert q[0..] == q;
      }
    }
  }

  // ---------- every operation ends ----------

  /** How many steps of its own a thread needs to finish its operation once it finds the lock free. */
  function StepsLeft(pc: Pc): nat {
    match pc
    case Idle => 0
    case PushLock(_) | PopLock => 5
    case PushHead(_) | PopRead => 4
    case PushTail(_) | PopTail(_) => 3
    case PushLink(_) | PopHead(_) => 2
    case PushUnlock(_) | PopUnlock(_) => 1
  }

  ghost predicate Ready(s: State, t: nat) {
    t < |s.pcs| && !s.pcs[t].Idle? && (s.pcs[t].Critical() || s.lock == 0)
  }

  /** The entry that the operation t is in has to leave in the log, if q is the queue when it takes effect. */
  function Entry(s: State, t: nat, q: seq<Node>): Op
    requires t < |s.pcs| && !s.pcs[t].Idle?
  {
    if s.pcs[t].Pushing() then Pushed(t, s.pcs[t].n) else Popped(t, if q == [] then None else Some(q[0]))
  }

  /** A step of a ready thread brings it closer to its end, which releases the lock and logs the operation. */
  lemma StepAdvances(s: State, t: nat, q: seq<Node>)
    requires InvWith(s, q) && Ready(s, t)
    ensures var s' := Next(s, t);
            && |s'.pcs| == |s.pcs| && (forall u :: 0 <= u < |s.pcs| && u != t ==> s'.pcs[u] == s.pcs[u])
            && StepsLeft(s'.pcs[t]) < StepsLeft(s.pcs[t])
            && if s'.pcs[t].Idle? then
                 && s'.lock == 0 && s'.log == s.log + [Entry(s, t, q)]
                 && s'.live == if s.pcs[t].Pushing() || q == [] then s.live else s.live - {q[0]}
               else Ready(s', t) && s'.lock == 1 && s'.log == s.log && s'.live == s.live
                    && Entry(s', t, q) == Entry(s, t, q) && s'.pcs[t].Pushing() == s.pcs[t].Pushing()
  {
    hide ListIs, Chained, NextOf;
    assert ThreadOk(s, t, q);
  }

  /** ss is a run of thread t alone from s, and its last state is the first in which t has finished. */
  ghost predicate Finishes(s: State, t: nat, ss: seq<State>) {
    && |ss| > 1 && ss[0] == s && t < |s.pcs|
    && (forall i :: 0 <= i < |ss| - 1 ==> Step(ss[i], t, Continue, ss[i + 1]))
    && |ss[|ss| - 1].pcs| == |s.pcs|
    && (forall u :: 0 <= u < |s.pcs| ==> ss[|ss| - 1].pcs[u] == if u == t then Idle else s.pcs[u])
    && ss[|ss| - 1].lock == 0
  }

  /** A thread in its critical section, or one that finds the lock free, finishes within five steps of its own, whatever
      the other threads are waiting for: the lock is free again, and the log has exactly one entry more, the push of its
      node or a pop of the first node of the queue, of none iff the queue is empty. */
  lemma {:induction false} OperationEnds(s: State, t: nat) returns (ss: seq<State>)
    requires Inv(s) && Ready(s, t)
    ensures Finishes(s, t, ss) && |ss| <= 6 && Inv(ss[|ss| - 1])
    ensures var (q, s') := (Replay(s.log).value, ss[|ss| - 1]);
            if s.pcs[t].Pushing() then
              s'.log == s.log + [Pushed(t, s.pcs[t].n)] && s'.live == s.live && Replay(s'.log) == Some(q + [s.pcs[t].n])
            else if q == [] then
              s'.log == s.log + [Popped(t, None)] && s'.live == s.live && Replay(s'.log) == Some([])
            else
              && s'.log == s.log + [Popped(t, Some(q[0]))] && s'.live == s.live - {q[0]}
              && Replay(s'.log) == Some(q[1..])
  {
    ss := FinishesIn(s, t);
    ReplayOne(s.log, Entry(s, t, Replay(s.log).value));
  }

  lemma {:induction false} FinishesIn(s: State, t: nat) returns (ss: seq<State>)
    requires Inv(s) && Ready(s, t)
    ensures Finishes(s, t, ss) && |ss| <= StepsLeft(s.pcs[t]) + 1 && Inv(ss[|ss| - 1])
    ensures var (q, s') := (Replay(s.log).value, ss[|ss| - 1]);
            && s'.log == s.log + [Entry(s, t, q)]
            && s'.live == if s.pcs[t].Pushing() || q == [] then s.live else s.live - {q[0]}
    decreases StepsLeft(s.pcs[t])
  {
    hide InvWith, Next, Replay;
    var s' := Next(s, t);
    StepAdvances(s, t, Replay(s.log).value);
    StepRefines(s, t, Continue, s');
    if s'.pcs[t].Idle? {
      ss := [s, s'];
    } else {
      var rest := FinishesIn(s', t);
      ss := [s] + rest;
    }
  }

  /** ss is a run of any threads from s. */
  ghost predicate Leads(s: State, ss: seq<State>) {
    |ss| > 0 && ss[0] == s && forall i :: 0 <= i < |ss| - 1 ==> SomeStep(ss[i], ss[i + 1])
  }

  lemma FinishesLeads(s: State, t: nat, ss: seq<State>)
    requires Finishes(s, t, ss)
    ensures Leads(s, ss)
  {
    hide Step;
    forall i | 0 <= i < |ss| - 1 ensures SomeStep(ss[i], ss[i + 1]) { assert Step(ss[i], t, Continue, ss[i + 1]); }
  }

  lemma LeadsOn(s: State, first: seq<State>, second: seq<State>)
    requires Leads(s, first) && Leads(first[|first| - 1], second)
    ensures Leads(s, first + second[1..]) && (first + second[1..])[|first + second[1..]| - 1] == second[|second| - 1]
  {
    hide SomeStep;
    var all := first + second[1..];
    forall i | 0 <= i < |all| - 1 ensures SomeStep(all[i], all[i + 1]) {
      if i >= |first| - 1 { assert SomeStep(second[i - (|first| - 1)], second[i - (|first| - 1) + 1]); }
    }
  }

  /** Who keeps t waiting. */
  lemma Blocker(s: State, t: nat) returns (u: nat)
    requires Inv(s) && t < |s.pcs| && !s.pcs[t].Idle? && !Ready(s, t)
    ensures u != t && u < |s.pcs| && s.pcs[u].Critical() && Ready(s, u) && StepsLeft(s.pcs[u]) <= 4
  {
    assert HasOwner(s);
    u :| 0 <= u < |s.pcs| && s.pcs[u].Critical();
  }

  lemma RunInv(ss: seq<State>, threads: nat, i: nat)
    requires IsRun(ss, threads) && i < |ss|
    ensures Inv(ss[i])
  {
    hide Inv;
    InitInv(threads);
    for k := 0 to i
      invariant Inv(ss[k])
    {
      assert SomeStep(ss[k], ss[k + 1]);
      var t, a :| Step(ss[k], t, a, ss[k + 1]);
      StepRefines(ss[k], t, a, ss[k + 1]);
    }
  }

  /** No deadlock, and no thread is locked out for good: in every state of every interleaving, every thread that is in
      an operation can be through with it after at most nine steps, those of the owner of the lock and then its own. */
  lemma EveryOperationCanEnd(ss: seq<State>, threads: nat, i: nat, t: nat) returns (more: seq<State>)
    requires IsRun(ss, threads) && i < |ss| && t < |ss[i].pcs| && !ss[i].pcs[t].Idle?
    ensures Leads(ss[i], more) && |more| <= 10
    ensures var (pc, s') := (ss[i].pcs[t], more[|more| - 1]);
            && t < |s'.pcs| && s'.pcs[t].Idle? && s'.lock == 0 && s'.log != []
            && var last := s'.log[|s'.log| - 1];
               if pc.Pushing() then last == Pushed(t, pc.n) else last.Popped? && last.thread == t
  {
    hide Inv, Replay, Leads;
    RunInv(ss, threads, i);
    var s := ss[i];
    if Ready(s, t) {
      more := FinishesIn(s, t);
      FinishesLeads(s, t, more);
    } else {
      var u := Blocker(s, t);
      var first := FinishesIn(s, u);
      FinishesLeads(s, u, first);
      var s' := first[|first| - 1];
      var second := FinishesIn(s', t);
      FinishesLeads(s', t, second);
      LeadsOn(s, first, second);
      more := first + second[1..];
    }
  }
}
