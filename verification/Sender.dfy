/** One connection's sender, as bytes: what the kernel accepted, what waits in the backlog, and what was submitted. */
module Sender {
  import opened Util

  /** What a write call answers: some bytes taken, EINTR, EAGAIN, or another error. */
  datatype WriteResult = Accepts(n: nat) | Eintr | Eagain | Fatal

  /** backlog: the unsent bytes of each waiting block. pollOut: EPOLLOUT is registered. */
  datatype Conn = Conn(open: bool, backlog: seq<seq<byte>>, remain: int, accepted: seq<byte>, pollOut: bool)

  const FRESH := Conn(true, [], 0, [], false)

  function Min(a: nat, b: nat): nat { if a < b then a else b }

  function Flatten(blocks: seq<seq<byte>>): seq<byte> {
    if blocks == [] then [] else blocks[0] + Flatten(blocks[1..])
  }

  lemma {:induction false} FlattenAppend(a: seq<seq<byte>>, b: seq<byte>)
    ensures Flatten(a + [b]) == Flatten(a) + b
  {
    if a == [] {
      assert [b] == [b] + [];
    } else {
      FlattenAppend(a[1..], b);
      assert (a + [b])[1..] == a[1..] + [b];
    }
  }

  /** strncpy: copies up to the first NUL and pads with zeros. */
  function FirstNul(buf: seq<byte>): (z: nat)
    ensures z <= |buf| && (forall i :: 0 <= i < z ==> buf[i] != 0) && (z < |buf| ==> buf[z] == 0)
  {
    if buf == [] || buf[0] == 0 then 0 else 1 + FirstNul(buf[1..])
  }

  function StrNCpy(buf: seq<byte>): (r: seq<byte>)
    ensures |r| == |buf|
  {
    buf[..FirstNul(buf)] + seq(|buf| - FirstNul(buf), _ => 0)
  }

  /** From `start` on, nothing but zeros follows a zero of buf. */
  predicate NulSafe(buf: seq<byte>, start: nat) {
    forall i, j :: 0 <= i < j < |buf| && start <= j && buf[i] == 0 ==> buf[j] == 0
  }

  /** The copy keeps the bytes from `start` on exactly when they are NUL-safe. */
  lemma StrNCpyExact(buf: seq<byte>, start: nat)
    requires start <= |buf|
    ensures StrNCpy(buf)[start..] == buf[start..] <==> NulSafe(buf, start)
  {
    var z := FirstNul(buf);
    var c := StrNCpy(buf);
    if c[start..] == buf[start..] {
      forall i, j | 0 <= i < j < |buf| && start <= j && buf[i] == 0 ensures buf[j] == 0 {
        assert buf[start..][j - start] == c[start..][j - start];
      }
    }
    if NulSafe(buf, start) {
      forall k | start <= k < |buf| ensures c[k] == buf[k] {
        if z < k { assert buf[z] == 0; }
      }
    }
  }

  // ---------- the code ----------

  function Close(c: Conn): Conn {
    c.(open := false, backlog := [], remain := 0, pollOut := false)
  }

  /** append_remaindata: a copy of the block, of which the bytes from `start` on are to be sent. */
  function AppendRemain(c: Conn, buf: seq<byte>, start: nat): Conn
    requires start <= |buf|
  {
    c.(backlog := c.backlog + [StrNCpy(buf)[start..]], remain := c.remain + |buf| - start)
  }

  function Taken(r: WriteResult, len: nat): nat {
    if r.Accepts? then Min(r.n, len) else 0
  }

  /** send_data */
  function SendData(c: Conn, buf: seq<byte>, r: WriteResult): Conn {
    if c.backlog != [] then AppendRemain(c, buf, 0)
    else if r.Fatal? then Close(c)
    else
      var n := Taken(r, |buf|);
      var sent := c.(accepted := c.accepted + buf[..n]);
      if n == |buf| then sent else AppendRemain(sent, buf, n).(pollOut := true)
  }

  /** The backlog after a write of n bytes of its first block. As written, the size is reduced and then
      compared with n again, so a write of exactly half a block also drops the block. */
  function LeftOver(backlog: seq<seq<byte>>, n: nat): seq<seq<byte>>
    requires backlog != [] && n <= |backlog[0]|
  {
    var b := backlog[0];
    if n == |b| || n == |b| - n then backlog[1..] else [b[n..]] + backlog[1..]
  }

  /** One round of send_buffer's inner loop in which the kernel took n bytes. */
  function Wrote(c: Conn, n: nat): Conn
    requires c.backlog != [] && n <= |c.backlog[0]|
  {
    c.(accepted := c.accepted + c.backlog[0][..n], remain := c.remain - n, backlog := LeftOver(c.backlog, n))
  }

  /** send_buffer; the kernel answers the writes by `script` and then EAGAIN. */
  function SendBuffer(c: Conn, script: seq<WriteResult>): Conn
    decreases |script|
  {
    if c.backlog == [] then c.(pollOut := false)
    else if script == [] || script[0].Eagain? then c
    else match script[0]
      case Eintr => SendBuffer(c, script[1..])
      case Fatal => Close(c)
      case Accepts(k) => SendBuffer(Wrote(c, Min(k, |c.backlog[0]|)), script[1..])
  }

  datatype Event = Submit(buf: seq<byte>, answer: WriteResult) | Writable(script: seq<WriteResult>)

  function Step(c: Conn, e: Event): Conn {
    if !c.open then c
    else match e
      case Submit(buf, r) => SendData(c, buf, r)
      case Writable(script) => SendBuffer(c, script)
  }

  /** The connection after the events. */
  function Run(es: seq<Event>): Conn {
    if es == [] then FRESH else Step(Run(es[..|es| - 1]), es[|es| - 1])
  }

  /** Everything submitted while the connection was open. */
  function Submitted(es: seq<Event>): seq<byte> {
    if es == [] then []
    else
      var e := es[|es| - 1];
      Submitted(es[..|es| - 1]) + if e.Submit? && Run(es[..|es| - 1]).open then e.buf else []
  }

  // ---------- what each event does to the stream ----------

  function Flow(c: Conn): seq<byte> {
    c.accepted + Flatten(c.backlog)
  }

  /** No write of this drain takes exactly half of the block it is offered. */
  ghost predicate NoHalf(c: Conn, script: seq<WriteResult>)
    decreases |script|
  {
    if c.backlog == [] || script == [] || script[0].Eagain? || script[0].Fatal? then true
    else if script[0].Eintr? then NoHalf(c, script[1..])
    else
      var n := Min(script[0].n, |c.backlog[0]|);
      (0 < n ==> 2 * n != |c.backlog[0]|) && NoHalf(Wrote(c, n), script[1..])
  }

  /** What the literal code needs of an event to lose nothing. */
  ghost predicate Lossless(c: Conn, e: Event) {
    match e
    case Submit(buf, r) =>
      if c.backlog != [] then NulSafe(buf, 0)
      else r.Fatal? || NulSafe(buf, Taken(r, |buf|))
    case Writable(script) => NoHalf(c, script)
  }

  lemma WroteFlow(c: Conn, n: nat)
    requires c.backlog != [] && n <= |c.backlog[0]|
    ensures 0 < n && 2 * n == |c.backlog[0]| ==> |Flow(Wrote(c, n))| == |Flow(c)| - n
    ensures !(0 < n && 2 * n == |c.backlog[0]|) ==> Flow(Wrote(c, n)) == Flow(c)
    ensures Wrote(c, n).remain + |Wrote(c, n).accepted| == c.remain + |c.accepted|
  {
    var b := c.backlog[0];
    assert b == b[..n] + b[n..];
    if !(n == |b| || n == |b| - n) {
      assert ([b[n..]] + c.backlog[1..])[1..] == c.backlog[1..];
    }
  }

  lemma {:induction false} SendBufferFlow(c: Conn, script: seq<WriteResult>)
    requires c.open && (c.backlog != [] <==> c.pollOut)
    ensures var d := SendBuffer(c, script);
            && (d.open ==> (d.backlog != [] <==> d.pollOut) && d.remain + |d.accepted| == c.remain + |c.accepted|)
            && |d.accepted| <= |c.accepted + Flatten(c.backlog)|
            && (d.open && NoHalf(c, script) ==> Flow(d) == Flow(c))
            && (d.open && !NoHalf(c, script) ==> |Flow(d)| < |Flow(c)|)
            && (!d.open && NoHalf(c, script) ==> d.accepted <= Flow(c))
    decreases |script|
  {
    if c.backlog != [] && script != [] {
      match script[0]
      case Eintr => SendBufferFlow(c, script[1..]);
      case Accepts(k) =>
        var n := Min(k, |c.backlog[0]|);
        WroteFlow(c, n);
        var w := Wrote(c, n);
        if w.backlog != [] {
          SendBufferFlow(w, script[1..]);
        } else {
          assert SendBuffer(w, script[1..]) == w.(pollOut := false);
          assert Flow(w.(pollOut := false)) == Flow(w);
        }
        assert NoHalf(c, script) <==> (0 < n ==> 2 * n != |c.backlog[0]|) && NoHalf(w, script[1..]);
      case _ =>
    }
  }

  lemma CancelLeft(x: seq<byte>, a: seq<byte>, b: seq<byte>)
    ensures x + a == x + b <==> a == b
  {
    if x + a == x + b {
      assert a == (x + a)[|x|..] == (x + b)[|x|..] == b;
    }
  }

  ghost predicate Extends(c: Conn, d: Conn, buf: seq<byte>, faithful: bool) {
    && d.open && (d.backlog != [] <==> d.pollOut)
    && d.remain + |d.accepted| == c.remain + |c.accepted| + |buf|
    && |Flow(d)| == |Flow(c)| + |buf| && Flow(c) <= Flow(d)
    && (Flow(d) == Flow(c) + buf <==> faithful)
  }

  lemma AppendFlow(c: Conn, buf: seq<byte>)
    requires c.open && c.backlog != [] && c.pollOut
    ensures Extends(c, AppendRemain(c, buf, 0), buf, NulSafe(buf, 0))
  {
    FlattenAppend(c.backlog, StrNCpy(buf)[0..]);
    StrNCpyExact(buf, 0);
    assert Flow(AppendRemain(c, buf, 0)) == Flow(c) + StrNCpy(buf);
    CancelLeft(Flow(c), StrNCpy(buf), buf);
  }

  lemma DirectFlow(c: Conn, buf: seq<byte>, r: WriteResult)
    requires c.open && c.backlog == [] && !c.pollOut && !r.Fatal?
    ensures Extends(c, SendData(c, buf, r), buf, NulSafe(buf, Taken(r, |buf|)))
  {
    hide StrNCpy, NulSafe, FirstNul;
    var d := SendData(c, buf, r);
    var n := Taken(r, |buf|);
    StrNCpyExact(buf, n);
    assert buf == buf[..n] + buf[n..];
    assert Flow(c) == c.accepted;
    var rest := StrNCpy(buf)[n..];
    if n < |buf| {
      assert d.backlog == [rest];
      assert Flatten([rest]) == rest + Flatten([]) == rest;
    } else {
      assert buf[n..] == rest == [];
    }
    assert Flow(d) == c.accepted + (buf[..n] + rest);
    CancelLeft(c.accepted, buf[..n] + rest, buf[..n] + buf[n..]);
    CancelLeft(buf[..n], rest, buf[n..]);
  }

  lemma SendDataFlow(c: Conn, buf: seq<byte>, r: WriteResult)
    requires c.open && (c.backlog != [] <==> c.pollOut)
    ensures var d := SendData(c, buf, r);
            if d.open then Extends(c, d, buf, Lossless(c, Submit(buf, r))) else d.accepted == c.accepted
  {
    hide StrNCpy, NulSafe, Extends;
    if c.backlog != [] {
      AppendFlow(c, buf);
    } else if !r.Fatal? {
      DirectFlow(c, buf, r);
    }
    AppendOpen(c, buf);
  }

  lemma AppendOpen(c: Conn, buf: seq<byte>)
    ensures AppendRemain(c, buf, 0).open == c.open
  {
  }

  // ---------- conservation over whole runs ----------

  ghost predicate AllLossless(es: seq<Event>) {
    forall i :: 0 <= i < |es| ==> Run(es[..i]).open ==> Lossless(Run(es[..i]), es[i])
  }

  /** The accounts of a connection to which `sent` was submitted, faithfully or not. */
  ghost predicate Conserved(c: Conn, sent: seq<byte>, faithful: bool) {
    if c.open then
      && (c.backlog != [] <==> c.pollOut)
      && c.remain + |c.accepted| == |sent|
      && |Flow(c)| <= |sent|
      && (Flow(c) == sent <==> faithful)
    else faithful ==> c.accepted <= sent
  }

  lemma ExtendConserved(c: Conn, d: Conn, sent: seq<byte>, buf: seq<byte>, faithful: bool, before: bool)
    requires Extends(c, d, buf, faithful)
    requires |Flow(c)| <= |sent| && (Flow(c) == sent <==> before)
    ensures |Flow(d)| <= |sent + buf|
    ensures Flow(d) == sent + buf <==> before && faithful
  {
    hide Flow;
    assert |sent + buf| == |sent| + |buf|;
    if Flow(d) == sent + buf {
      assert Flow(c) == Flow(d)[..|sent|] == sent;
    }
  }

  lemma SubmitConserved(c: Conn, sent: seq<byte>, faithful: bool, buf: seq<byte>, r: WriteResult)
    requires c.open && Conserved(c, sent, faithful)
    ensures Conserved(SendData(c, buf, r), sent + buf, faithful && Lossless(c, Submit(buf, r)))
  {
    hide SendData, Lossless;
    SendDataFlow(c, buf, r);
    var d := SendData(c, buf, r);
    if d.open {
      ExtendConserved(c, d, sent, buf, Lossless(c, Submit(buf, r)), faithful);
    } else {
      assert faithful ==> c.accepted <= Flow(c) == sent;
    }
  }

  lemma DrainConserved(c: Conn, sent: seq<byte>, faithful: bool, script: seq<WriteResult>)
    requires c.open && Conserved(c, sent, faithful)
    ensures Conserved(SendBuffer(c, script), sent, faithful && Lossless(c, Writable(script)))
  {
    hide SendBuffer, NoHalf;
    SendBufferFlow(c, script);
  }

  /** Byte-stream conservation. While the connection is open: EPOLLOUT is registered iff the backlog is not empty,
      remain_size plus the accepted bytes is what was submitted, and accepted bytes followed by the backlog are exactly
      the submitted buffers in order iff no copied tail has a non-zero byte after a NUL and no drain write took
      exactly half of a block. After an error close of such a run the accepted bytes are a prefix of what was
      submitted. */
  lemma {:induction false} ConservationIff(es: seq<Event>)
    ensures Conserved(Run(es), Submitted(es), AllLossless(es))
  {
    hide SendData, SendBuffer, Lossless, Conserved;
    if es == [] {
      FreshConserved();
    } else {
      var front, e := es[..|es| - 1], es[|es| - 1];
      ConservationIff(front);
      LosslessFront(es);
      assert Submitted(front) + [] == Submitted(front);
      if Run(front).open {
        match e
        case Submit(buf, r) => SubmitConserved(Run(front), Submitted(front), AllLossless(front), buf, r);
        case Writable(script) => DrainConserved(Run(front), Submitted(front), AllLossless(front), script);
      }
    }
  }

  lemma FreshConserved()
    ensures Conserved(FRESH, [], true)
  {
    assert Flow(FRESH) == [];
  }

  lemma LosslessFront(es: seq<Event>)
    requires es != []
    ensures var c := Run(es[..|es| - 1]);
            AllLossless(es) <==> AllLossless(es[..|es| - 1]) && (c.open ==> Lossless(c, es[|es| - 1]))
  {
    hide Run, Lossless;
    var front := es[..|es| - 1];
    assert forall i :: 0 <= i < |front| ==> front[..i] == es[..i];
    assert es[..|front|] == front;
  }

  /** remain_size and the bytes that really wait. */
  ghost predicate Accounted(c: Conn, exact: bool) {
    c.open ==>
      && (c.backlog != [] <==> c.pollOut)
      && |Flatten(c.backlog)| <= c.remain && (c.remain == |Flatten(c.backlog)| <==> exact)
  }

  /** No drain has dropped half a block. */
  ghost predicate AllWhole(es: seq<Event>) {
    forall i :: 0 <= i < |es| && es[i].Writable? && Run(es[..i]).open ==> NoHalf(Run(es[..i]), es[i].script)
  }

  /** While the connection is open remain_size is the sum of the sizes of the waiting blocks if and only if no write of
      a drain took exactly half of the block it was offered; otherwise it is larger, and stays so. */
  lemma {:induction false} RemainIff(es: seq<Event>)
    ensures Accounted(Run(es), AllWhole(es))
  {
    hide SendData, SendBuffer, NoHalf, Extends, Accounted;
    if es == [] {
      FreshAccounted();
    } else {
      var front, e := es[..|es| - 1], es[|es| - 1];
      RemainIff(front);
      WholeFront(es);
      if Run(front).open {
        match e
        case Submit(buf, r) => SubmitAccounted(Run(front), AllWhole(front), buf, r);
        case Writable(script) => DrainAccounted(Run(front), AllWhole(front), script);
      } else {
        ClosedAccounted(Run(front), AllWhole(es));
      }
    }
  }

  lemma FreshAccounted()
    ensures Accounted(FRESH, true)
  {
  }

  lemma ClosedAccounted(c: Conn, exact: bool)
    ensures !c.open ==> Accounted(c, exact)
  {
  }

  lemma SubmitAccounted(c: Conn, exact: bool, buf: seq<byte>, r: WriteResult)
    requires c.open && Accounted(c, exact)
    ensures Accounted(SendData(c, buf, r), exact)
  {
    hide SendData, Lossless, Flatten;
    SendDataFlow(c, buf, r);
    FlowSize(c);
    FlowSize(SendData(c, buf, r));
  }

  lemma DrainAccounted(c: Conn, exact: bool, script: seq<WriteResult>)
    requires c.open && Accounted(c, exact)
    ensures Accounted(SendBuffer(c, script), exact && NoHalf(c, script))
  {
    hide SendBuffer, NoHalf, Flatten;
    SendBufferFlow(c, script);
    FlowSize(c);
    FlowSize(SendBuffer(c, script));
  }

  lemma FlowSize(c: Conn)
    ensures |Flow(c)| == |c.accepted| + |Flatten(c.backlog)|
  {
  }

  lemma WholeFront(es: seq<Event>)
    requires es != []
    ensures var c, e := Run(es[..|es| - 1]), es[|es| - 1];
            AllWhole(es) <==> AllWhole(es[..|es| - 1]) && (c.open && e.Writable? ==> NoHalf(c, e.script))
  {
    hide Run, NoHalf;
    var front := es[..|es| - 1];
    assert forall i :: 0 <= i < |front| ==> front[..i] == es[..i];
    assert es[..|front|] == front;
  }

  // ---------- how a drain ends ----------

  /** Whatever the kernel answers after `script`, draining c has by then come to d. */
  ghost predicate Drains(c: Conn, script: seq<WriteResult>, d: Conn) {
    forall rest: seq<WriteResult> :: SendBuffer(c, script + rest) == SendBuffer(d, rest)
  }

  lemma DrainsNothing(c: Conn)
    ensures Drains(c, [], c)
  {
    assert forall rest: seq<WriteResult> :: [] + rest == rest;
  }

  lemma DrainsOn(c: Conn, script: seq<WriteResult>, d: Conn, r: WriteResult)
    requires Drains(c, script, d) && d.backlog != [] && (r.Eintr? || r.Accepts?)
    ensures Drains(c, script + [r], if r.Eintr? then d else Wrote(d, Min(r.n, |d.backlog[0]|)))
  {
    hide Wrote;
    var d' := if r.Eintr? then d else Wrote(d, Min(r.n, |d.backlog[0]|));
    forall rest: seq<WriteResult> ensures SendBuffer(c, script + [r] + rest) == SendBuffer(d', rest) {
      assert script + [r] + rest == script + ([r] + rest);
      assert ([r] + rest)[1..] == rest;
    }
  }

  lemma DrainEnds(c: Conn, script: seq<WriteResult>, d: Conn)
    requires Drains(c, script, d)
    ensures d.backlog == [] ==> SendBuffer(c, script) == d.(pollOut := false)
    ensures d.backlog != [] ==> SendBuffer(c, script + [Eagain]) == d && SendBuffer(c, script + [Fatal]) == Close(d)
  {
    assert script + [] == script;
    assert SendBuffer(c, script + []) == SendBuffer(d, []);
  }

  /** A write shortens the waiting bytes by at least what the kernel took, and an empty block goes away. */
  lemma LeftShrinks(blocks: seq<seq<byte>>, n: nat)
    requires blocks != [] && n <= |blocks[0]|
    ensures |Flatten(LeftOver(blocks, n))| + n <= |Flatten(blocks)| && |LeftOver(blocks, n)| <= |blocks|
    ensures blocks[0] == [] ==> |LeftOver(blocks, n)| < |blocks|
  {
    var b := blocks[0];
    if !(n == |b| || n == |b| - n) { assert ([b[n..]] + blocks[1..])[1..] == blocks[1..]; }
  }

  ghost predicate Idle(r: WriteResult) { r.Eintr? || (r.Accepts? && r.n == 0) }

  ghost function IdleCount(script: seq<WriteResult>): (k: nat)
    ensures k <= |script|
  {
    if script == [] then 0 else (if Idle(script[0]) then 1 else 0) + IdleCount(script[1..])
  }

  /** A drain to which the kernel answers neither EAGAIN nor an error is done after at most as many answers as there are
      waiting bytes, waiting blocks and idle answers. */
  lemma {:induction false} DrainFinishes(c: Conn, script: seq<WriteResult>)
    requires forall i :: 0 <= i < |script| ==> script[i].Eintr? || script[i].Accepts?
    requires |Flatten(c.backlog)| + |c.backlog| + IdleCount(script) <= |script|
    ensures SendBuffer(c, script).backlog == [] && SendBuffer(c, script).open == c.open
    decreases |script|
  {
    if c.backlog != [] {
      assert script != [];
      if script[0].Eintr? {
        DrainFinishes(c, script[1..]);
      } else {
        var n := Min(script[0].n, |c.backlog[0]|);
        LeftShrinks(c.backlog, n);
        DrainFinishes(Wrote(c, n), script[1..]);
      }
    }
  }

  /** A kernel that takes every waiting block whole. */
  function TakeAll(blocks: seq<seq<byte>>): (script: seq<WriteResult>) {
    seq(|blocks|, k requires 0 <= k < |blocks| => Accepts(|blocks[k]|))
  }

  /** It empties the backlog, and no write takes exactly half a block. */
  lemma {:induction false} TakeAllDrains(c: Conn)
    ensures var d := SendBuffer(c, TakeAll(c.backlog));
            d.backlog == [] && d.open == c.open && NoHalf(c, TakeAll(c.backlog))
    decreases |c.backlog|
  {
    if c.backlog != [] {
      var n := |c.backlog[0]|;
      TakeAllDrains(Wrote(c, n));
      assert TakeAll(c.backlog)[1..] == TakeAll(c.backlog[1..]);
    }
  }

  /** Both conditions matter: a drain that gets 2 of 4 bytes out forgets the other 2 (and still counts them in
      remain_size), and a copied tail loses what follows a zero byte. */
  lemma LiteralLosses()
    ensures Run([Submit([1, 2, 3, 4], Eagain), Writable([Accepts(2)])]) == Conn(true, [], 2, [1, 2], false)
    ensures Run([Submit([8, 0, 16, 4], Eagain)]) == Conn(true, [[8, 0, 0, 0]], 4, [], true)
  {
    hide Run, SendData, FirstNul;
    NoNul([1, 2, 3, 4]);
    assert StrNCpy([1, 2, 3, 4]) == [1, 2, 3, 4];
    FirstSubmit([1, 2, 3, 4]);
    RunAppend([Submit([1, 2, 3, 4], Eagain)], Writable([Accepts(2)]));
    assert [Submit([1, 2, 3, 4], Eagain)] + [Writable([Accepts(2)])]
           == [Submit([1, 2, 3, 4], Eagain), Writable([Accepts(2)])];
    HalfForgotten();
    NulAtOne();
    FirstSubmit([8, 0, 16, 4]);
  }

  lemma RunAppend(es: seq<Event>, e: Event)
    ensures Run(es + [e]) == Step(Run(es), e)
  {
    assert (es + [e])[..|es|] == es;
  }

  lemma FirstSubmit(buf: seq<byte>)
    requires buf != []
    ensures Run([Submit(buf, Eagain)]) == Conn(true, [StrNCpy(buf)], |buf|, [], true)
  {
    hide StrNCpy;
    RunAppend([], Submit(buf, Eagain));
    assert [] + [Submit(buf, Eagain)] == [Submit(buf, Eagain)];
    assert StrNCpy(buf)[0..] == StrNCpy(buf) && [] + buf[..0] == [];
  }

  lemma HalfForgotten()
    ensures SendBuffer(Conn(true, [[1, 2, 3, 4]], 4, [], true), [Accepts(2)]) == Conn(true, [], 2, [1, 2], false)
  {
    var c := Conn(true, [[1, 2, 3, 4]], 4, [], true);
    assert Wrote(c, 2) == Conn(true, [], 2, [1, 2], true);
  }

  lemma NulAtOne()
    ensures StrNCpy([8, 0, 16, 4]) == [8, 0, 0, 0]
  {
    assert FirstNul([8, 0, 16, 4]) == 1;
  }

  lemma NoNul(buf: seq<byte>)
    requires forall i :: 0 <= i < |buf| ==> buf[i] != 0
    ensures FirstNul(buf) == |buf|
  {
  }
}
