/** The sender as it runs: a linked backlog of blocks, each with a cursor into its buffer.
    Every method is proved against module Sender. */
module SocketBacklog {
  import opened Util
  import opened Sender

  /** The kernel's side of one socket: its answer to each write call, without end; how many calls there were, the bytes
      it took, and the EPOLLOUT flag. */
  class Kernel {
    const answers: nat -> WriteResult
    var clock: nat
    var accepted: seq<byte>
    var interest: bool

    constructor (answers: nat -> WriteResult)
      ensures this.answers == answers && clock == 0 && accepted == [] && !interest
    {
      this.answers, clock, accepted, interest := answers, 0, [], false;
    }

    method Write(data: seq<byte>) returns (n: int, errno: WriteResult)
      modifies this`clock, this`accepted
      ensures errno == answers(old(clock)) && clock == old(clock) + 1
      ensures errno.Accepts? ==> n == Min(errno.n, |data|) && accepted == old(accepted) + data[..n]
      ensures !errno.Accepts? ==> n == -1 && accepted == old(accepted)
    {
      errno, clock := answers(clock), clock + 1;
      if !errno.Accepts? { return -1, errno; }
      n := Min(errno.n, |data|);
      accepted := accepted + data[..n];
    }

    /** The answers to the calls from `first` on, before `next`. */
    ghost function Answers(first: nat, next: nat): (r: seq<WriteResult>)
      requires first <= next
      ensures |r| == next - first
    {
      if first == next then [] else Answers(first, next - 1) + [answers(next - 1)]
    }

    lemma OneMore(first: nat, next: nat)
      requires first <= next
      ensures Answers(first, next + 1) == Answers(first, next) + [answers(next)] && Answers(first, first) == []
    {
    }

    /** From call `quiet` on, no answer is EINTR or takes no byte: idle answers are finitely many. */
    ghost predicate Settles(quiet: nat) {
      forall k :: quiet <= k ==> !Idle(answers(k))
    }
  }

  class AppendBuffer {
    const buffer: seq<byte>
    var current: nat
    var size: nat
    var next: AppendBuffer?

    constructor (buffer: seq<byte>, start: nat)
      requires start <= |buffer|
      ensures this.buffer == buffer && current == start && size == |buffer| - start && next == null
    {
      this.buffer, current, size, next := buffer, start, |buffer| - start, null;
    }

    /** The unsent bytes, which reach to the end of the buffer. */
    ghost predicate Valid()
      reads this
    {
      current + size == |buffer|
    }

    ghost function Pending(): (r: seq<byte>)
      reads this
    {
      if current <= |buffer| then buffer[current..] else []
    }
  }

  class Socket {
    const kernel: Kernel
    var id: int
    var connected: bool
    var remain_size: int
    var head: AppendBuffer?
    var tail: AppendBuffer?
    ghost var nodes: seq<AppendBuffer>

    /** The list from head is `nodes`; tail is its last node. While it is empty tail is not looked at. */
    ghost predicate Chained()
      reads this, nodes
    {
      && NoDup(nodes)
      && (forall i :: 0 <= i < |nodes| ==> nodes[i].Valid())
      && (nodes == [] ==> head == null)
      && (nodes != [] ==> head == nodes[0] && tail == nodes[|nodes| - 1] && nodes[|nodes| - 1].next == null)
      && (forall i :: 0 <= i < |nodes| - 1 ==> nodes[i].next == nodes[i + 1])
    }

    ghost predicate Valid()
      reads this, nodes
    {
      Chained() && (nodes == [] ==> tail == null)
    }

    ghost function Blocks(): (r: seq<seq<byte>>)
      reads this, nodes
    {
      seq(|nodes|, i requires 0 <= i < |nodes| reads this, nodes => nodes[i].Pending())
    }

    ghost function State(): Conn
      reads this, nodes, kernel
    {
      Conn(connected, Blocks(), remain_size, kernel.accepted, kernel.interest)
    }

    constructor (kernel: Kernel, id: int)
      requires kernel.accepted == [] && !kernel.interest
      ensures Valid() && this.kernel == kernel && this.id == id && nodes == [] && State() == FRESH
    {
      this.kernel, this.id, connected, remain_size := kernel, id, true, 0;
      head, tail, nodes := null, null, [];
    }

    method AppendRemaindata(buf: seq<byte>, start: nat)
      requires Valid() && start <= |buf|
      modifies this`remain_size, this`head, this`tail, this`nodes, nodes
      ensures Valid() && forall n :: n in nodes && n !in old(nodes) ==> fresh(n)
      ensures State() == AppendRemain(old(State()), buf, start)
    {
      hide StrNCpy, FirstNul;
      var node := new AppendBuffer(StrNCpy(buf), start);
      remain_size := remain_size + node.size;
      LinkLast(node);
    }

    /** The pointer part of append_remaindata. */
    method LinkLast(node: AppendBuffer)
      requires Valid() && node !in nodes && node.Valid() && node.next == null
      modifies this`head, this`tail, this`nodes, nodes
      ensures Valid() && nodes == old(nodes) + [node]
      ensures Blocks() == old(Blocks()) + [node.Pending()]
    {
      if head == null {
        head, tail := node, node;
      } else {
        tail.next := node;
        tail := node;
      }
      nodes := nodes + [node];
    }

    /** close_fd: frees the backlog and clears the slot, the id included. */
    method CloseFd()
      requires Chained()
      modifies this, kernel`interest
      ensures Valid() && nodes == [] && !connected && id == 0
      ensures State() == Close(old(State()))
    {
      var tmp := head;
      while tmp != null
        invariant Chained() && tmp == head
        invariant kernel.accepted == old(kernel.accepted)
        decreases |nodes|
      {
        head := head.next;
        nodes := nodes[1..];
        tmp := head;
      }
      connected, id, head, tail, remain_size, kernel.interest := false, 0, null, null, 0, false;
    }

    /** send_data; only for a connected socket, as its assert demands. On a write error the socket is closed
        and the close is reported for the id found after that, which is 0. */
    method SendData(buf: seq<byte>) returns (ret: int, reported: Option<int>)
      requires Valid() && connected
      modifies this, nodes, kernel
      ensures Valid() && forall n :: n in nodes && n !in old(nodes) ==> fresh(n)
      ensures State() == Sender.SendData(old(State()), buf, kernel.answers(old(kernel.clock)))
      ensures kernel.clock == old(kernel.clock) + if old(nodes) == [] then 1 else 0
      ensures ret == if connected then 0 else -1
      ensures reported == if connected then None else Some(0)
    {
      if head == null {
        var n, errno := kernel.Write(buf);
        if n == -1 {
          if errno.Eintr? || errno.Eagain? {
            n := 0;
          } else {
            CloseFd();
            return -1, Some(id);
          }
        }
        if n == |buf| {
          assert buf[..n] == buf;
          return 0, None;
        }
        AppendRemaindata(buf, n);
        kernel.interest := true;
      } else {
        AppendRemaindata(buf, 0);
      }
      return 0, None;
    }

    /** Moves the cursor of the first block on by n bytes. */
    method MoveCursor(n: nat)
      requires Chained() && nodes != [] && n <= nodes[0].size
      modifies nodes[0]
      ensures Chained() && nodes[0].size == old(nodes[0].size) - n
      ensures Blocks() == [old(Blocks())[0][n..]] + old(Blocks())[1..]
    {
      ghost var blocks := Blocks();
      head.current := head.current + n;
      head.size := head.size - n;
      forall i | 0 <= i < |nodes| ensures Blocks()[i] == ([blocks[0][n..]] + blocks[1..])[i] {
        if i > 0 { assert nodes[i] != nodes[0]; }
      }
    }

    /** Drops the first block, sent or not. */
    method DropFirst()
      requires Chained() && nodes != []
      modifies this`head, this`nodes
      ensures Chained() && nodes == old(nodes)[1..]
      ensures Blocks() == old(Blocks())[1..]
    {
      head := head.next;
      nodes := nodes[1..];
    }

    lemma HeadIs()
      requires Chained()
      ensures head == null <==> nodes == []
      ensures nodes != [] ==> head == nodes[0] && head.current + head.size == |head.buffer|
                              && Blocks() != [] && Blocks()[0] == head.buffer[head.current..]
    {
    }

    method ResetTail()
      requires Chained() && nodes == []
      modifies this`tail
      ensures Valid()
    {
      tail := null;
    }

    method AfterWrite(n: nat) returns (done: bool)
      requires Chained() && nodes != [] && n <= nodes[0].size
      modifies this`remain_size, this`head, this`nodes, nodes[0]
      ensures Chained() && nodes == if done then old(nodes)[1..] else old(nodes)
      ensures remain_size == old(remain_size) - n
      ensures n <= |old(Blocks())[0]| && Blocks() == LeftOver(old(Blocks()), n)
    {
      hide Chained, Blocks;
      HeadIs();
      CountDown(n);
      HeadIs();
      if n != head.size {
        MoveCursor(n);
        HeadIs();
      }
      if n == head.size {
        DropFirst();
        return true;
      }
      return false;
    }

    method CountDown(n: nat)
      requires Chained()
      modifies this`remain_size
      ensures Chained() && remain_size == old(remain_size) - n && Blocks() == old(Blocks())
    {
      remain_size := remain_size - n;
    }

    /** The idle answers that may still come before the kernel settles. */
    ghost function IdleLeft(quiet: nat): nat
      reads kernel
    {
      if kernel.clock < quiet then quiet - kernel.clock else 0
    }

    ghost predicate Fewer(idle: nat, blocks: seq<seq<byte>>, quiet: nat)
      reads this, nodes, kernel
    {
      || IdleLeft(quiet) < idle
      || (IdleLeft(quiet) == idle && |Flatten(Blocks())| < |Flatten(blocks)|)
      || (IdleLeft(quiet) == idle && |Flatten(Blocks())| == |Flatten(blocks)| && |Blocks()| < |blocks|)
    }

    /** One round of the inner loop: one write of the first block. stop: EAGAIN, or an error that closed the socket. */
    method WriteFront(ghost quiet: nat, ghost c: Conn, ghost start: nat)
        returns (done: bool, stop: bool, reported: Option<int>)
      requires Chained() && connected && nodes != [] && kernel.Settles(quiet)
      requires start <= kernel.clock && Drains(c, kernel.Answers(start, kernel.clock), State())
      modifies this, nodes, kernel`clock, kernel`accepted, kernel`interest
      ensures kernel.clock == old(kernel.clock) + 1
      ensures stop ==> State() == Sender.SendBuffer(c, kernel.Answers(start, kernel.clock)) && Chained()
      ensures stop && connected ==> nodes == old(nodes) && kernel.answers(kernel.clock - 1).Eagain? && reported == None
      ensures stop && !connected ==>
                Valid() && nodes == [] && kernel.answers(kernel.clock - 1).Fatal? && reported == Some(0)
      ensures !stop ==> connected && Chained() && nodes == if done then old(nodes)[1..] else old(nodes)
      ensures !stop ==> Drains(c, kernel.Answers(start, kernel.clock), State())
      ensures !stop ==> Fewer(old(IdleLeft(quiet)), old(Blocks()), quiet)
      ensures !stop ==> IdleLeft(quiet) <= old(IdleLeft(quiet)) && |Flatten(Blocks())| <= old(|Flatten(Blocks())|)
    {
      hide Chained, Blocks, LeftOver, Drains, Sender.SendBuffer, Flatten, Kernel.Answers;
      HeadIs();
      BlockCount();
      var pending := head.buffer[head.current..head.current + head.size];
      ghost var before, script := State(), kernel.Answers(start, kernel.clock);
      assert pending == Blocks()[0];
      DrainEnds(c, script, before);
      var n, errno := kernel.Write(pending);
      kernel.OneMore(start, kernel.clock - 1);
      if errno.Eintr? {
        DrainsOn(c, script, before, errno);
        return false, false, None;
      } else if errno.Eagain? {
        return false, true, None;
      } else if errno.Fatal? {
        CloseFd();
        return false, true, Some(id);
      }
      DrainsOn(c, script, before, errno);
      LeftShrinks(before.backlog, n);
      done := AfterWrite(n);
      BlockCount();
      assert State() == Wrote(before, n);
      return done, false, None;
    }

    /** The socket on its way through send_buffer, which began at call `start` in state c. */
    ghost predicate Draining(c: Conn, start: nat)
      reads this, nodes, kernel
    {
      && Chained() && connected && (nodes == [] <==> head == null)
      && start <= kernel.clock && Drains(c, kernel.Answers(start, kernel.clock), State())
    }

    ghost predicate Stopped(c: Conn, start: nat, reported: Option<int>)
      reads this, nodes, kernel
    {
      && Valid() && start < kernel.clock
      && State() == Sender.SendBuffer(c, kernel.Answers(start, kernel.clock))
      && if connected then nodes != [] && kernel.answers(kernel.clock - 1).Eagain? && reported == None
         else kernel.answers(kernel.clock - 1).Fatal? && reported == Some(0)
    }

    /** The inner loop: writes until the first block is gone. */
    method DrainFront(ghost quiet: nat, ghost c: Conn, ghost start: nat) returns (stop: bool, reported: Option<int>)
      requires Draining(c, start) && nodes != [] && kernel.Settles(quiet)
      modifies this, nodes, kernel`clock, kernel`accepted, kernel`interest
      ensures stop ==> Stopped(c, start, reported)
      ensures !stop ==> Draining(c, start) && nodes == old(nodes)[1..]
      ensures !stop ==> IdleLeft(quiet) <= old(IdleLeft(quiet)) && |Flatten(Blocks())| <= old(|Flatten(Blocks())|)
    {
      hide Chained, Blocks, LeftOver, Drains, Sender.SendBuffer, Flatten, Kernel.Answers;
      var done := false;
      while !done
        invariant Draining(c, start) && nodes == if done then old(nodes)[1..] else old(nodes)
        invariant IdleLeft(quiet) <= old(IdleLeft(quiet)) && |Flatten(Blocks())| <= old(|Flatten(Blocks())|)
        decreases IdleLeft(quiet), |Flatten(Blocks())|, |nodes|
      {
        BlockCount();
        done, stop, reported := WriteFront(quiet, c, start);
        if stop {
          if connected { AfterStop(); }
          return true, reported;
        }
        HeadIs();
        BlockCount();
      }
      return false, None;
    }

    /** send_buffer: writes blocks until the backlog is empty, the kernel answers EAGAIN, or an error closes the socket.
        EINTR is retried. The loops end because with every write the idle answers left or else the unsent bytes, or
        the empty blocks, become fewer. */
    method SendBuffer(ghost quiet: nat) returns (ret: int, reported: Option<int>)
      requires Valid() && connected && kernel.Settles(quiet)
      modifies this, nodes, kernel
      ensures Valid() && kernel.clock >= old(kernel.clock)
      ensures State() == Sender.SendBuffer(old(State()), kernel.Answers(old(kernel.clock), kernel.clock))
      ensures connected && nodes != [] ==> kernel.clock > old(kernel.clock) && kernel.answers(kernel.clock - 1).Eagain?
      ensures !connected ==> kernel.clock > old(kernel.clock) && kernel.answers(kernel.clock - 1).Fatal?
      ensures reported == if connected then None else Some(0)
      ensures connected ==> (ret == 0 <==> nodes == [])
    {
      hide Chained, Blocks, LeftOver, Drains, Sender.SendBuffer, Flatten, Kernel.Answers, Draining;
      ghost var start, c := kernel.clock, State();
      Begins();
      while head != null
        invariant Draining(c, start)
        invariant |nodes| <= |old(nodes)| && nodes == old(nodes)[|old(nodes)| - |nodes|..]
        decreases IdleLeft(quiet), |Flatten(Blocks())|, |nodes|
      {
        DrainingMeans(c, start);
        var stop;
        stop, reported := DrainFront(quiet, c, start);
        if stop { return -1, reported; }
      }
      DrainingMeans(c, start);
      DrainEnds(c, kernel.Answers(start, kernel.clock), State());
      NoBlocks();
      ResetTail();
      kernel.interest := false;
      NoBlocks();
      return 0, None;
    }

    lemma Begins()
      requires Valid() && connected
      ensures Draining(State(), kernel.clock)
    {
      hide Drains;
      DrainsNothing(State());
    }

    lemma DrainingMeans(c: Conn, start: nat)
      requires Draining(c, start)
      ensures Chained() && connected && (nodes == [] <==> head == null)
      ensures start <= kernel.clock && Drains(c, kernel.Answers(start, kernel.clock), State())
    {
    }

    lemma AfterStop()
      requires Chained() && nodes != []
      ensures Valid()
    {
    }

    lemma BlockCount()
      ensures |Blocks()| == |nodes|
    {
    }

    lemma NoBlocks()
      ensures nodes == [] <==> Blocks() == []
    {
    }
  }
}
