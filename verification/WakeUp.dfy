/** Queues and one-byte wake-ups: a producer pushes, then writes a byte; a consumer sleeps in epoll or select,
    reads bytes, and drains one queue until it is empty. No interleaving leaves a consumer asleep on work. */
module WakeUp {
  import opened Util

  /** Channel c is the wake-up socket that thread writer[c] writes and thread reader[c] reads
      after pushing to queue queueOf[c], which thread consumer[queueOf[c]] drains. */
  datatype Topology = Topology(
    threads: nat, writer: seq<nat>, reader: seq<nat>, queueOf: seq<nat>, consumer: seq<nat>, capacity: nat)

  ghost predicate WellFormed(top: Topology) {
    && |top.writer| == |top.reader| == |top.queueOf| && 0 < top.capacity
    && (forall c :: 0 <= c < |top.queueOf| ==>
          && top.queueOf[c] < |top.consumer| && top.writer[c] < top.threads
          && top.consumer[top.queueOf[c]] == top.reader[c])
    && (forall q :: 0 <= q < |top.consumer| ==> top.consumer[q] < top.threads)
  }

  /** Thread 0 is network IO, 1 the router, 2 to 5 the game services. Queue 0 runs from IO to the router, 1 back,
      2 to 5 from the router to each game service, and 6 from all game services to the router. */
  const SERVER := Topology(
    6,
    [0, 1, 1, 1, 1, 1, 2, 3, 4, 5],
    [1, 0, 2, 3, 4, 5, 1, 1, 1, 1],
    [0, 1, 2, 3, 4, 5, 6, 6, 6, 6],
    [1, 0, 2, 3, 4, 5, 1],
    65536)

  lemma ServerWellFormed()
    ensures WellFormed(SERVER)
  {
  }

  datatype Phase =
    | Looking              // in the event loop, check_que false
    | Reading(c: nat)      // handling the event of channel c: about to read its bytes
    | Draining(q: nat)     // check_que true, current queue q

  /** batch: channels that the last wait reported and that are not yet handled.
      wake: the channel to write to, between a push and its wake-up. */
  datatype Thread = Thread(phase: Phase, batch: seq<nat>, wake: Option<nat>)

  datatype State = State(queues: seq<seq<int>>, unread: seq<nat>, threads: seq<Thread>)

  datatype Action =
    | Wait(ready: seq<nat>)       // epoll_wait or select returns some of the readable channels
    | Take                        // the next reported event
    | Read(n: nat)                // n = 0 stands for EINTR and EAGAIN
    | Pop
    | PopNull                     // queue_pop returned NULL: stop checking the queue
    | Push(c: nat, msg: int)
    | Wake(full: bool)            // write one byte; EAGAIN exactly when the socket is full
    | WakeInterrupted             // write fails with EINTR and is not repeated

  function Init(top: Topology): State {
    State(seq(|top.consumer|, _ => []), seq(|top.queueOf|, _ => 0),
          seq(top.threads, _ => Thread(Looking, [], None)))
  }

  ghost predicate Sized(top: Topology, s: State) {
    |s.queues| == |top.consumer| && |s.unread| == |top.queueOf| && |s.threads| == top.threads
  }

  function SetThread(s: State, t: nat, th: Thread): State
    requires t < |s.threads|
  {
    s.(threads := s.threads[t := th])
  }

  ghost predicate Step(top: Topology, s: State, t: nat, a: Action, s': State)
    requires WellFormed(top) && Sized(top, s)
  {
    t < top.threads &&
    var th := s.threads[t];
    match a
    case Wait(ready) =>
      && th.wake.None? && th.phase == Looking && th.batch == [] && NoDup(ready)
      && (forall i :: 0 <= i < |ready| ==>
            ready[i] < |top.reader| && top.reader[ready[i]] == t && s.unread[ready[i]] > 0)
      && s' == SetThread(s, t, th.(batch := ready))
    case Take =>
      && th.wake.None? && th.phase == Looking && th.batch != []
      && s' == SetThread(s, t, th.(phase := Reading(th.batch[0]), batch := th.batch[1..]))
    case Read(n) =>
      && th.wake.None? && th.phase.Reading? && th.phase.c < |s.unread| && n <= s.unread[th.phase.c]
      && s' == SetThread(s, t, th.(phase := Draining(top.queueOf[th.phase.c])))
               .(unread := s.unread[th.phase.c := s.unread[th.phase.c] - n])
    case Pop =>
      && th.wake.None? && th.phase.Draining? && th.phase.q < |s.queues| && s.queues[th.phase.q] != []
      && s' == s.(queues := s.queues[th.phase.q := s.queues[th.phase.q][1..]])
    case PopNull =>
      && th.wake.None? && th.phase.Draining? && th.phase.q < |s.queues| && s.queues[th.phase.q] == []
      && s' == SetThread(s, t, th.(phase := Looking))
    case Push(c, msg) =>
      && th.wake.None? && c < |top.writer| && top.writer[c] == t
      && s' == SetThread(s, t, th.(wake := Some(c)))
               .(queues := s.queues[top.queueOf[c] := s.queues[top.queueOf[c]] + [msg]])
    case Wake(full) =>
      && th.wake.Some? && th.wake.value < |s.unread|
      && (full <==> top.capacity <= s.unread[th.wake.value])
      && s' == SetThread(s, t, th.(wake := None))
               .(unread := if full then s.unread else s.unread[th.wake.value := s.unread[th.wake.value] + 1])
    case WakeInterrupted =>
      && th.wake.Some? && s' == SetThread(s, t, th.(wake := None))
  }

  // ---------- the invariant ----------

  ghost predicate ThreadOk(top: Topology, s: State, t: nat)
    requires WellFormed(top) && Sized(top, s) && t < top.threads
  {
    var th := s.threads[t];
    && (th.wake.Some? ==> th.wake.value < |top.writer|)
    && (th.phase.Reading? ==> th.phase.c < |top.reader| && top.reader[th.phase.c] == t && th.phase.c !in th.batch)
    && (th.phase.Draining? ==> th.phase.q < |top.consumer| && top.consumer[th.phase.q] == t)
    && NoDup(th.batch)
    && (forall i :: 0 <= i < |th.batch| ==>
          th.batch[i] < |top.reader| && top.reader[th.batch[i]] == t && s.unread[th.batch[i]] > 0)
  }

  ghost predicate Attending(top: Topology, s: State, q: nat)
    requires WellFormed(top) && Sized(top, s) && q < |top.consumer|
  {
    match s.threads[top.consumer[q]].phase
    case Looking => false
    case Reading(c) => c < |top.queueOf| && top.queueOf[c] == q
    case Draining(p) => p == q
  }

  ghost predicate BytePending(top: Topology, s: State, q: nat)
    requires Sized(top, s)
  {
    exists c :: 0 <= c < |top.queueOf| && top.queueOf[c] == q && s.unread[c] > 0
  }

  ghost predicate WakePending(top: Topology, s: State, q: nat)
    requires Sized(top, s)
  {
    exists t :: 0 <= t < top.threads && s.threads[t].wake.Some? && s.threads[t].wake.value < |top.queueOf|
                && top.queueOf[s.threads[t].wake.value] == q
  }

  /** A non-empty queue is being attended to, or a wake-up byte for it is unread, or its producer is about to
      write one. */
  ghost predicate Covered(top: Topology, s: State, q: nat)
    requires WellFormed(top) && Sized(top, s) && q < |top.consumer|
  {
    s.queues[q] == [] || Attending(top, s, q) || BytePending(top, s, q) || WakePending(top, s, q)
  }

  ghost predicate Inv(top: Topology, s: State) {
    && WellFormed(top) && Sized(top, s)
    && (forall t :: 0 <= t < top.threads ==> ThreadOk(top, s, t))
    && (forall q :: 0 <= q < |top.consumer| ==> Covered(top, s, q))
  }

  /** Another thread than t is about to wake the consumer of q. */
  ghost predicate OtherWakes(top: Topology, s: State, t: nat, q: nat)
    requires Sized(top, s)
  {
    exists u :: 0 <= u < top.threads && u != t && s.threads[u].wake.Some?
                && s.threads[u].wake.value < |top.queueOf| && top.queueOf[s.threads[u].wake.value] == q
  }

  /** An interrupted wake-up write that mattered: work waits, its consumer is elsewhere, no byte for it is unread, and
      nobody else is about to write one. */
  ghost predicate Loses(top: Topology, s: State, t: nat, a: Action)
    requires WellFormed(top) && Sized(top, s)
  {
    && a.WakeInterrupted? && t < top.threads && s.threads[t].wake.Some? && s.threads[t].wake.value < |top.queueOf|
    && var q := top.queueOf[s.threads[t].wake.value];
       s.queues[q] != [] && !Attending(top, s, q) && !BytePending(top, s, q) && !OtherWakes(top, s, t, q)
  }

  lemma CoveredKept(top: Topology, s: State, t: nat, a: Action, s': State, q: nat)
    requires Inv(top, s) && Step(top, s, t, a, s') && !a.WakeInterrupted? && q < |top.consumer|
    ensures Sized(top, s') && Covered(top, s', q)
  {
    hide Attending, NoDup;
    assert ThreadOk(top, s, t) && Covered(top, s, q);
    var th := s.threads[t];
    if s'.queues[q] != [] && !Attending(top, s', q) {
      if a.Push? && top.queueOf[a.c] == q {
        assert s'.threads[t].wake == Some(a.c);
      } else if a.Wake? && top.queueOf[th.wake.value] == q {
        assert s'.unread[th.wake.value] > 0;
      } else {
        StillAttended(top, s, t, a, s', q);
        if BytePending(top, s, q) {
          var c :| 0 <= c < |top.queueOf| && top.queueOf[c] == q && s.unread[c] > 0;
          ByteStays(top, s, t, a, s', q, c);
        } else if WakePending(top, s, q) {
          var u :| 0 <= u < top.threads && s.threads[u].wake.Some? && s.threads[u].wake.value < |top.queueOf|
                   && top.queueOf[s.threads[u].wake.value] == q;
          assert s'.threads[u].wake == s.threads[u].wake;
        }
      }
    }
  }

  lemma StillAttended(top: Topology, s: State, t: nat, a: Action, s': State, q: nat)
    requires Inv(top, s) && Step(top, s, t, a, s') && q < |top.consumer| && s'.queues[q] != []
    ensures Attending(top, s, q) ==> Attending(top, s', q)
  {
    hide NoDup, Covered;
    assert ThreadOk(top, s, t);
  }

  lemma ByteStays(top: Topology, s: State, t: nat, a: Action, s': State, q: nat, c: nat)
    requires Inv(top, s) && Step(top, s, t, a, s') && q < |top.consumer| && !Attending(top, s', q)
    requires c < |top.queueOf| && top.queueOf[c] == q && s.unread[c] > 0
    ensures s'.unread[c] > 0
  {
    hide NoDup, Covered;
    assert ThreadOk(top, s, t);
  }

  /** An interrupted write leaves everything but the writer's own promise as it was. */
  lemma InterruptedIff(top: Topology, s: State, t: nat, s': State, q: nat)
    requires Inv(top, s) && Step(top, s, t, WakeInterrupted, s') && q < |top.consumer|
    ensures Sized(top, s')
    ensures Covered(top, s', q) <==> !(Loses(top, s, t, WakeInterrupted) && q == top.queueOf[s.threads[t].wake.value])
  {
    hide NoDup;
    assert ThreadOk(top, s, t) && Covered(top, s, q);
    assert Attending(top, s', q) <==> Attending(top, s, q);
    assert BytePending(top, s', q) <==> BytePending(top, s, q);
    assert WakePending(top, s', q) <==> OtherWakes(top, s, t, q) by { WakesLeft(top, s, t, s', q); }
    assert WakePending(top, s, q) <==> OtherWakes(top, s, t, q) || top.queueOf[s.threads[t].wake.value] == q;
  }

  lemma WakesLeft(top: Topology, s: State, t: nat, s': State, q: nat)
    requires Sized(top, s) && t < top.threads && s' == SetThread(s, t, s.threads[t].(wake := None))
    ensures WakePending(top, s', q) <==> OtherWakes(top, s, t, q)
  {
    if u :| 0 <= u < top.threads && u != t && s.threads[u].wake.Some?
            && s.threads[u].wake.value < |top.queueOf| && top.queueOf[s.threads[u].wake.value] == q
    {
      assert s'.threads[u].wake == s.threads[u].wake;
    }
    if u :| 0 <= u < top.threads && s'.threads[u].wake.Some? && s'.threads[u].wake.value < |top.queueOf|
            && top.queueOf[s'.threads[u].wake.value] == q
    {
      assert u != t && s.threads[u].wake == s'.threads[u].wake;
    }
  }

  lemma ThreadKept(top: Topology, s: State, t: nat, a: Action, s': State, u: nat)
    requires Inv(top, s) && Step(top, s, t, a, s') && u < top.threads
    ensures Sized(top, s') && ThreadOk(top, s', u)
  {
    hide Covered;
    assert ThreadOk(top, s, t) && ThreadOk(top, s, u);
    if a.Take? && u == t {
      var b := s.threads[t].batch;
      assert forall i :: 0 <= i < |b[1..]| ==> b[1..][i] == b[i + 1];
    }
  }

  lemma StepSized(top: Topology, s: State, t: nat, a: Action, s': State)
    requires WellFormed(top) && Sized(top, s) && Step(top, s, t, a, s')
    ensures Sized(top, s')
  {
  }

  /** Every step of every thread keeps every non-empty queue covered iff it is not an interrupted wake-up write
      that mattered. */
  lemma StepKeepsIff(top: Topology, s: State, t: nat, a: Action, s': State)
    requires Inv(top, s) && Step(top, s, t, a, s')
    ensures Inv(top, s') <==> !Loses(top, s, t, a)
  {
    hide Step, Covered, ThreadOk, Loses;
    StepSized(top, s, t, a, s');
    forall u | 0 <= u < top.threads ensures ThreadOk(top, s', u) { ThreadKept(top, s, t, a, s', u); }
    if a.WakeInterrupted? {
      LostQueue(top, s, t);
      forall q | 0 <= q < |top.consumer|
        ensures Covered(top, s', q)
                <==> !(Loses(top, s, t, WakeInterrupted) && q == top.queueOf[s.threads[t].wake.value])
      {
        InterruptedIff(top, s, t, s', q);
      }
      assert a == WakeInterrupted;
      if Loses(top, s, t, a) { assert !Covered(top, s', top.queueOf[s.threads[t].wake.value]); }
    } else {
      NothingLost(top, s, t, a);
      forall q | 0 <= q < |top.consumer| ensures Covered(top, s', q) { CoveredKept(top, s, t, a, s', q); }
    }
  }

  lemma NothingLost(top: Topology, s: State, t: nat, a: Action)
    requires WellFormed(top) && Sized(top, s) && !a.WakeInterrupted?
    ensures !Loses(top, s, t, a)
  {
  }

  lemma LostQueue(top: Topology, s: State, t: nat)
    requires WellFormed(top) && Sized(top, s)
    ensures Loses(top, s, t, WakeInterrupted) ==>
              t < |s.threads| && s.threads[t].wake.Some? && s.threads[t].wake.value < |top.queueOf|
              && 0 <= top.queueOf[s.threads[t].wake.value] < |top.consumer|
  {
  }

  /** Any interleaving: step i is action acts[i].1 of thread acts[i].0. */
  ghost predicate IsRun(top: Topology, acts: seq<(nat, Action)>, ss: seq<State>) {
    && WellFormed(top) && |ss| == |acts| + 1 && ss[0] == Init(top)
    && forall i :: 0 <= i < |acts| ==> Sized(top, ss[i]) && Step(top, ss[i], acts[i].0, acts[i].1, ss[i + 1])
  }

  /** The consumer of q would sleep: it is in its event loop and none of its channels is readable. */
  ghost predicate Asleep(top: Topology, s: State, t: nat)
    requires WellFormed(top) && Sized(top, s) && t < top.threads
  {
    && s.threads[t].phase == Looking && s.threads[t].batch == []
    && forall c :: 0 <= c < |top.reader| && top.reader[c] == t ==> s.unread[c] == 0
  }

  /** Every non-empty queue is covered in every state of a run iff none of its steps is an interrupted wake-up write
      that mattered. */
  lemma CoveredOnRuns(top: Topology, acts: seq<(nat, Action)>, ss: seq<State>)
    requires IsRun(top, acts, ss)
    ensures (forall i :: 0 <= i < |ss| ==> Inv(top, ss[i]))
            <==> (forall i :: 0 <= i < |acts| ==> !Loses(top, ss[i], acts[i].0, acts[i].1))
  {
    hide Step, Inv, Loses, Init;
    InitInv(top);
    if forall i :: 0 <= i < |ss| ==> Inv(top, ss[i]) {
      forall i | 0 <= i < |acts| ensures !Loses(top, ss[i], acts[i].0, acts[i].1) {
        StepKeepsIff(top, ss[i], acts[i].0, acts[i].1, ss[i + 1]);
        assert Inv(top, ss[i + 1]);
      }
    }
    if forall i :: 0 <= i < |acts| ==> !Loses(top, ss[i], acts[i].0, acts[i].1) {
      for i := 0 to |acts|
        invariant forall k :: 0 <= k <= i ==> Inv(top, ss[k])
      {
        StepKeepsIff(top, ss[i], acts[i].0, acts[i].1, ss[i + 1]);
      }
    }
  }

  lemma InitInv(top: Topology)
    requires WellFormed(top)
    ensures Inv(top, Init(top))
  {
  }

  /** No lost wake-up: on such a run a consumer that sleeps while work waits has a producer that has yet to write its
      byte; in particular on every run without interrupted wake-up writes. */
  lemma NoLostWakeUp(top: Topology, acts: seq<(nat, Action)>, ss: seq<State>, i: nat)
    requires IsRun(top, acts, ss) && i < |ss|
    requires forall k :: 0 <= k < |acts| && acts[k].1.WakeInterrupted? ==> !Loses(top, ss[k], acts[k].0, acts[k].1)
    ensures Inv(top, ss[i])
    ensures forall q :: 0 <= q < |top.consumer| && ss[i].queues[q] != [] && Asleep(top, ss[i], top.consumer[q])
              ==> WakePending(top, ss[i], q)
  {
    hide Step, Init;
    CoveredOnRuns(top, acts, ss);
    assert Inv(top, ss[i]);
    forall q | 0 <= q < |top.consumer| && ss[i].queues[q] != [] && Asleep(top, ss[i], top.consumer[q])
      ensures WakePending(top, ss[i], q)
    {
      assert Covered(top, ss[i], q);
    }
  }

  ghost predicate CanGoOn(top: Topology, s: State)
    requires WellFormed(top) && Sized(top, s)
  {
    exists t, a, s' :: Step(top, s, t, a, s') && !a.WakeInterrupted? && !a.Push? && s' != s
  }

  /** While any queue is non-empty some thread can wait, read, drain or wake, and change something by it: the system is
      never stuck with work. */
  lemma WorkIsNeverStuck(top: Topology, s: State, q: nat)
    requires Inv(top, s) && q < |top.consumer| && s.queues[q] != []
    ensures CanGoOn(top, s)
  {
    var t := top.consumer[q];
    var th := s.threads[t];
    assert Covered(top, s, q) && ThreadOk(top, s, t);
    if u :| 0 <= u < top.threads && s.threads[u].wake.Some? {
      Waker(top, s, u);
    } else if th.phase.Reading? {
      assert Step(top, s, t, Read(0), SetThread(s, t, th.(phase := Draining(top.queueOf[th.phase.c])))
        .(unread := s.unread[th.phase.c := s.unread[th.phase.c] - 0]));
    } else if th.phase.Draining? {
      Drainer(top, s, t);
    } else if th.batch != [] {
      assert Step(top, s, t, Take, SetThread(s, t, th.(phase := Reading(th.batch[0]), batch := th.batch[1..])));
    } else {
      var c :| 0 <= c < |top.queueOf| && top.queueOf[c] == q && s.unread[c] > 0;
      assert Step(top, s, t, Wait([c]), SetThread(s, t, th.(batch := [c])));
    }
  }

  lemma Waker(top: Topology, s: State, u: nat)
    requires Inv(top, s) && u < top.threads && s.threads[u].wake.Some?
    ensures CanGoOn(top, s)
  {
    assert ThreadOk(top, s, u);
    var th := s.threads[u];
    var c := th.wake.value;
    var full := top.capacity <= s.unread[c];
    var s' := if full then SetThread(s, u, th.(wake := None))
              else SetThread(s, u, th.(wake := None)).(unread := s.unread[c := s.unread[c] + 1]);
    assert Step(top, s, u, Wake(full), s');
  }

  lemma Drainer(top: Topology, s: State, t: nat)
    requires Inv(top, s) && t < top.threads && s.threads[t].phase.Draining? && s.threads[t].wake.None?
    ensures CanGoOn(top, s)
  {
    assert ThreadOk(top, s, t);
    var p := s.threads[t].phase.q;
    if s.queues[p] == [] {
      assert Step(top, s, t, PopNull, SetThread(s, t, s.threads[t].(phase := Looking)));
    } else {
      assert Step(top, s, t, Pop, s.(queues := s.queues[p := s.queues[p][1..]]));
    }
  }

  // ---------- work gets done ----------

  /** A step without a push or an interrupted wake-up write. */
  ghost predicate Goes(top: Topology, s: State, s': State) {
    Inv(top, s) && Inv(top, s') && exists t, a :: Step(top, s, t, a, s') && !a.Push? && !a.WakeInterrupted?
  }

  ghost predicate Leads(top: Topology, s: State, ss: seq<State>) {
    |ss| > 0 && ss[0] == s && forall i :: 0 <= i < |ss| - 1 ==> Goes(top, ss[i], ss[i + 1])
  }

  lemma StepGoes(top: Topology, s: State, t: nat, a: Action, s': State)
    requires Inv(top, s) && Step(top, s, t, a, s') && !a.Push? && !a.WakeInterrupted?
    ensures Inv(top, s') && Goes(top, s, s')
  {
    hide Step, Covered, ThreadOk, Loses;
    StepKeepsIff(top, s, t, a, s');
    NothingLost(top, s, t, a);
  }

  lemma Chain(top: Topology, s: State, first: seq<State>, second: seq<State>) returns (all: seq<State>)
    requires Leads(top, s, first) && Leads(top, first[|first| - 1], second)
    ensures Leads(top, s, all) && all[|all| - 1] == second[|second| - 1]
  {
    hide Goes;
    all := first + second[1..];
    forall i | 0 <= i < |all| - 1 ensures Goes(top, all[i], all[i + 1]) {
      if i >= |first| - 1 { assert Goes(top, second[i - (|first| - 1)], second[i - (|first| - 1) + 1]); }
    }
  }

  /** A draining thread empties its queue and goes back to its event loop. */
  lemma {:induction false} DrainToEnd(top: Topology, s: State, t: nat) returns (ss: seq<State>)
    requires Inv(top, s) && t < top.threads && s.threads[t].phase.Draining? && s.threads[t].wake.None?
    ensures s.threads[t].phase.q < |s.queues| && Leads(top, s, ss) && Inv(top, ss[|ss| - 1])
    ensures ss[|ss| - 1] == SetThread(s, t, s.threads[t].(phase := Looking))
                            .(queues := s.queues[s.threads[t].phase.q := []])
    decreases if s.threads[t].phase.q < |s.queues| then |s.queues[s.threads[t].phase.q]| else 0
  {
    hide Covered;
    assert ThreadOk(top, s, t);
    var p := s.threads[t].phase.q;
    if s.queues[p] == [] {
      var s' := SetThread(s, t, s.threads[t].(phase := Looking));
      StepGoes(top, s, t, PopNull, s');
      assert s.queues[p := []] == s.queues;
      ss := [s, s'];
    } else {
      var s' := s.(queues := s.queues[p := s.queues[p][1..]]);
      StepGoes(top, s, t, Pop, s');
      var rest := DrainToEnd(top, s', t);
      assert s'.queues[p := []] == s.queues[p := []];
      ss := [s] + rest;
    }
  }

  lemma WakeGoes(top: Topology, s: State, u: nat) returns (s': State)
    requires Inv(top, s) && u < top.threads && s.threads[u].wake.Some?
    ensures Inv(top, s') && Goes(top, s, s') && s'.queues == s.queues
    ensures s'.threads == s.threads[u := s.threads[u].(wake := None)]
    ensures s.threads[u].wake.value < |s'.unread| && 0 < s'.unread[s.threads[u].wake.value]
  {
    hide Covered;
    assert ThreadOk(top, s, u);
    var th := s.threads[u];
    var c := th.wake.value;
    var full := top.capacity <= s.unread[c];
    s' := if full then SetThread(s, u, th.(wake := None))
          else SetThread(s, u, th.(wake := None)).(unread := s.unread[c := s.unread[c] + 1]);
    StepGoes(top, s, u, Wake(full), s');
  }

  /** The next reported event is taken, or all the bytes of its channel are read. */
  lemma BatchGoes(top: Topology, s: State, t: nat) returns (s': State)
    requires Inv(top, s) && t < top.threads && s.threads[t].wake.None?
    requires s.threads[t].phase.Reading? || (s.threads[t].phase == Looking && s.threads[t].batch != [])
    ensures Inv(top, s') && Goes(top, s, s') && s'.queues == s.queues
    ensures if s.threads[t].phase.Reading? then
              var c := s.threads[t].phase.c;
              && c < |top.queueOf| && c < |s.unread| && s'.unread == s.unread[c := 0]
              && s'.threads == s.threads[t := s.threads[t].(phase := Draining(top.queueOf[c]))]
            else
              && s'.unread == s.unread
              && s'.threads == s.threads[t := Thread(Reading(s.threads[t].batch[0]), s.threads[t].batch[1..], None)]
  {
    hide Covered;
    assert ThreadOk(top, s, t);
    var th := s.threads[t];
    if th.phase.Reading? {
      var c := th.phase.c;
      s' := SetThread(s, t, th.(phase := Draining(top.queueOf[c]))).(unread := s.unread[c := 0]);
      assert s.unread[c := s.unread[c] - s.unread[c]] == s.unread[c := 0];
      StepGoes(top, s, t, Read(s.unread[c]), s');
    } else {
      s' := SetThread(s, t, Thread(Reading(th.batch[0]), th.batch[1..], None));
      StepGoes(top, s, t, Take, s');
    }
  }

  /** Any thread can finish what it is at and all that its last wait has reported. */
  lemma {:induction false} BecomesIdle(top: Topology, s: State, t: nat) returns (ss: seq<State>)
    requires Inv(top, s) && t < top.threads
    ensures Leads(top, s, ss) && Inv(top, ss[|ss| - 1])
    ensures ss[|ss| - 1].threads == s.threads[t := Thread(Looking, [], None)]
    decreases |s.threads[t].batch|,
              match s.threads[t].phase case Looking => 0 case Draining(_) => 1 case Reading(_) => 2,
              if s.threads[t].wake.Some? then 1 else 0
  {
    hide Covered, Goes;
    assert ThreadOk(top, s, t);
    var th := s.threads[t];
    if th.wake.None? && th.phase == Looking && th.batch == [] {
      ss := [s];
    } else {
      var first: seq<State>;
      if th.wake.Some? {
        var s' := WakeGoes(top, s, t);
        first := [s, s'];
      } else if th.phase.Draining? {
        first := DrainToEnd(top, s, t);
      } else {
        var s' := BatchGoes(top, s, t);
        first := [s, s'];
      }
      var rest := BecomesIdle(top, first[|first| - 1], t);
      ss := Chain(top, s, first, rest);
    }
  }

  /** A consumer in its event loop for which bytes wait on channel c reads them and drains the queue of c. */
  lemma Serves(top: Topology, s: State, t: nat, c: nat) returns (ss: seq<State>)
    requires Inv(top, s) && t < top.threads && s.threads[t] == Thread(Looking, [], None)
    requires c < |top.reader| && top.reader[c] == t && s.unread[c] > 0
    ensures Leads(top, s, ss) && Inv(top, ss[|ss| - 1])
    ensures ss[|ss| - 1] == s.(queues := s.queues[top.queueOf[c] := []], unread := s.unread[c := 0])
  {
    hide Covered, Goes;
    var s1 := SetThread(s, t, Thread(Looking, [c], None));
    StepGoes(top, s, t, Wait([c]), s1);
    assert [c][1..] == [];
    var s2 := BatchGoes(top, s1, t);
    var s3 := BatchGoes(top, s2, t);
    var rest := DrainToEnd(top, s3, t);
    ss := Chain(top, s, [s, s1, s2, s3], rest);
    assert ss[|ss| - 1].threads == s.threads;
  }

  /** The first n threads are in their event loops with nothing to do. */
  ghost predicate Idle(s: State, n: nat) {
    n <= |s.threads| && forall t :: 0 <= t < n ==> s.threads[t] == Thread(Looking, [], None)
  }

  ghost predicate AllRead(s: State, n: nat) {
    n <= |s.unread| && forall c :: 0 <= c < n ==> s.unread[c] == 0
  }

  /** Every thread has nothing to do, no byte is unread, and no message waits. */
  ghost predicate AtRest(top: Topology, s: State) {
    && Sized(top, s) && Idle(s, top.threads) && AllRead(s, |s.unread|)
    && forall q :: 0 <= q < |s.queues| ==> s.queues[q] == []
  }

  lemma AllIdle(top: Topology, s: State) returns (ss: seq<State>)
    requires Inv(top, s)
    ensures Leads(top, s, ss) && Inv(top, ss[|ss| - 1])
    ensures Idle(ss[|ss| - 1], top.threads)
  {
    hide Goes, ThreadOk, Covered;
    ss := [s];
    for t := 0 to top.threads
      invariant Leads(top, s, ss) && Inv(top, ss[|ss| - 1])
      invariant Idle(ss[|ss| - 1], t)
    {
      var more := BecomesIdle(top, ss[|ss| - 1], t);
      ss := Chain(top, s, ss, more);
    }
  }

  /** All work gets done: from any state in which all queues are covered, steps other than pushes and interrupted writes
      lead to one in which every queued message has been taken and every thread can sleep: the threads finish what they
      are at, producers write the bytes they owe, and consumers find the bytes and drain their queues. */
  lemma WorkGetsDone(top: Topology, s: State) returns (ss: seq<State>)
    requires Inv(top, s)
    ensures Leads(top, s, ss) && AtRest(top, ss[|ss| - 1])
  {
    hide Goes, ThreadOk, Covered;
    ss := AllIdle(top, s);
    for c := 0 to |top.queueOf|
      invariant Leads(top, s, ss) && Inv(top, ss[|ss| - 1])
      invariant Idle(ss[|ss| - 1], top.threads) && AllRead(ss[|ss| - 1], c)
    {
      if ss[|ss| - 1].unread[c] > 0 {
        ReaderExists(top, c);
        var more := Serves(top, ss[|ss| - 1], top.reader[c], c);
        ss := Chain(top, s, ss, more);
      }
    }
    IdleIsEmpty(top, ss[|ss| - 1]);
  }

  lemma ReaderExists(top: Topology, c: nat)
    requires WellFormed(top) && c < |top.queueOf|
    ensures top.reader[c] < top.threads
  {
  }

  lemma IdleIsEmpty(top: Topology, s: State)
    requires Inv(top, s) && Idle(s, top.threads) && AllRead(s, |s.unread|)
    ensures AtRest(top, s)
  {
    forall q | 0 <= q < |s.queues| ensures s.queues[q] == [] { assert Covered(top, s, q); }
  }

  /** The exclusion of EINTR is needed: in the server's own topology one interrupted wake-up write by the IO
      thread leaves the router asleep with a message in its queue and nobody about to wake it. */
  lemma InterruptedWakeUpIsLost(msg: int)
    ensures WellFormed(SERVER)
    ensures var s0 := Init(SERVER);
            var s1 := SetThread(s0, 0, Thread(Looking, [], Some(0))).(queues := s0.queues[0 := [msg]]);
            var s2 := SetThread(s1, 0, Thread(Looking, [], None));
            && Sized(SERVER, s0) && Sized(SERVER, s1) && Sized(SERVER, s2)
            && Step(SERVER, s0, 0, Push(0, msg), s1) && Step(SERVER, s1, 0, WakeInterrupted, s2)
            && s2.queues[0] == [msg] && Asleep(SERVER, s2, SERVER.consumer[0]) && !Covered(SERVER, s2, 0)
  {
    hide Covered, Asleep;
    var s0 := Init(SERVER);
    assert s0.queues[0] + [msg] == [msg];
    var s1 := SetThread(s0, 0, Thread(Looking, [], Some(0))).(queues := s0.queues[0 := [msg]]);
    NobodyComes(SetThread(s1, 0, Thread(Looking, [], None)), msg);
  }

  lemma NobodyComes(s: State, msg: int)
    requires WellFormed(SERVER) && Sized(SERVER, s) && s.queues[0] == [msg] && Idle(s, 6) && AllRead(s, 10)
    ensures Asleep(SERVER, s, SERVER.consumer[0]) && !Covered(SERVER, s, 0)
  {
  }
}
