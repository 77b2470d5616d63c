/** The socket structure itself: its two write buffer lists are linked nodes, and the loops and
    relinkings over them are proved to do what the specification functions say of sequences. */
module SocketObject {
  import opened Basics
  import opened SocketSlot
  import opened WriteBuffers

  /** f is what g leads to after sent bytes more. */
  ghost predicate SameFlush(f: Flushed, g: Flushed, sent: nat) {
    f.list == g.list && f.chan == g.chan && f.failed == g.failed && f.rest == g.rest && f.bytes == sent + g.bytes
  }

  /** One turn of the flush: it stops, or goes on behind the head. */
  lemma FlushTurn(list: seq<WriteBuffer>, c: Channel, ks: seq<WriteResult>)
    requires AllOk(list) && list != []
    ensures
      var f, r, b := Flush(list, c, ks), if ks == [] then Again else ks[0], list[0];
      var rest := if ks == [] then [] else ks[1..];
      match r
      case Again => f == Flushed(list, c, 0, false, rest)
      case Fail => f == Flushed(list, c, 0, true, rest)
      case Accept(n) =>
        if n < b.Unsent() then
          f == Flushed([WriteBuffer(b.pkg, b.offset + n)] + list[1..], Emit(c, b, n), n, false, rest)
        else SameFlush(f, Flush(list[1..], Emit(c, b, b.Unsent()), rest), b.Unsent())
  {
    hide Emit;
  }

  ghost predicate Suffix(s: seq<Node>, all: seq<Node>) {
    |s| <= |all| && s == all[|all| - |s|..]
  }

  class SocketFields {
    var ty: Type
    var id: nat
    var tcp: bool
    const high: BufferList
    const low: BufferList
    var wbSize: int
    var tag: nat
    var sending: nat
    var writing: bool
    var closing: bool
    var dw: Option<WriteBuffer>
    ghost var chan: Channel

    constructor (start: Socket)
      requires start.high == [] && start.low == []
      ensures Valid() && Model() == start && fresh(high) && fresh(low)
    {
      ty, id, tcp, wbSize, tag, sending := start.ty, start.id, start.tcp, start.wbSize, start.tag, start.sending;
      writing, closing, dw, chan := start.writing, start.closing, start.dw, start.chan;
      high := new BufferList();
      low := new BufferList();
    }

    ghost predicate Valid()
      reads this, high, low, high.nodes, low.nodes
    {
      high != low && high.Valid() && low.Valid()
    }

    ghost function Model(): Socket
      reads this, high, low
    {
      Socket(ty, id, tcp, high.bufs, low.bufs, wbSize, tag, sending, writing, closing, dw, chan)
    }

    /** ForceClose under the lock, as a flush calls it. */
    method ForceClose()
      requires Valid()
      modifies this, high, low
      ensures Valid() && Model() == SocketSlot.ForceClose(old(Model()))
    {
      if ty == Invalid { return; }
      high.Free();
      low.Free();
      ty, dw := Invalid, None;
    }

    method CloseWrite() returns (report: Report)
      requires Valid()
      modifies this, high, low
      ensures Valid() && (Model(), report) == SocketSlot.CloseWrite(old(Model()))
    {
      if closing || ty == HalfCloseRead {
        ForceClose();
        return Quiet;
      }
      if ty == HalfCloseWrite { return Quiet; }
      ty := HalfCloseWrite;
      writing := false;
      return Err;
    }

    /** Offers the head of a list to the kernel. `stop` ends the loop: the kernel took less than
        it was given, or failed. */
    method SendHead(list: BufferList, ks: seq<WriteResult>, ghost other: BufferList)
      returns (stop: bool, failed: bool, rest: seq<WriteResult>, ghost sent: nat)
      requires list.Valid() && AllOk(list.bufs) && list.bufs != [] && other.Valid() && other != list
      modifies this`chan, this`wbSize, list, list.nodes
      ensures list.Valid() && AllOk(list.bufs) && wbSize == old(wbSize) - sent
      ensures other.Valid() && other.bufs == old(other.bufs) && other.nodes == old(other.nodes)
      ensures stop ==> Flush(old(list.bufs), old(chan), ks) == Flushed(list.bufs, chan, sent, failed, rest)
      ensures !stop ==> !failed && SameFlush(Flush(old(list.bufs), old(chan), ks), Flush(list.bufs, chan, rest), sent)
      ensures !stop ==> |list.bufs| < |old(list.bufs)|
      ensures Suffix(list.nodes, old(list.nodes))
    {
      hide Emit, Flush, BufferList.Valid;
      FlushTurn(list.bufs, chan, ks);
      HeadTells(list);
      var buf := list.head;
      var r := if ks == [] then Again else ks[0];
      stop, failed, rest, sent := true, r.Fail?, if ks == [] then [] else ks[1..], 0;
      if r.Accept? {
        var size := |buf.pkg.data| - buf.offset;
        var n := if r.n < size then r.n else size;
        stop, sent := r.n < size, n;
        chan := Emit(chan, WriteBuffer(buf.pkg, buf.offset), n);
        wbSize := wbSize - n;
        if stop {
          list.Advance(r.n, other);
        } else {
          var gone := list.TakeHead(other);
        }
        HeadTells(list);
      }
    }

    /** Writes a list from the front until it is empty, blocked or failed. */
    method SendListTCP(list: BufferList, ks: seq<WriteResult>, ghost other: BufferList)
      returns (failed: bool, rest: seq<WriteResult>)
      requires list.Valid() && AllOk(list.bufs) && other.Valid() && other != list
      modifies this`chan, this`wbSize, list, list.nodes
      ensures list.Valid() && AllOk(list.bufs)
      ensures other.Valid() && other.bufs == old(other.bufs) && other.nodes == old(other.nodes)
      ensures
        var f := Flush(old(list.bufs), old(chan), ks);
        && list.bufs == f.list && failed == f.failed && rest == f.rest
        && chan == f.chan && wbSize == old(wbSize) - f.bytes
      ensures Suffix(list.nodes, old(list.nodes))
    {
      hide Emit, Flush, BufferList.Valid, AllOk;
      failed, rest := false, ks;
      ghost var sent: nat := 0;
      ghost var start := Flush(list.bufs, chan, ks);
      HeadTells(list);
      while list.head != null
        invariant list.Valid() && AllOk(list.bufs) && !failed
        invariant other.Valid() && other.bufs == old(other.bufs) && other.nodes == old(other.nodes)
        invariant Suffix(list.nodes, old(list.nodes))
        invariant wbSize == old(wbSize) - sent
        invariant SameFlush(start, Flush(list.bufs, chan, rest), sent)
        invariant list.head == null <==> list.bufs == []
        decreases |list.bufs|
      {
        var stop;
        ghost var size;
        stop, failed, rest, size := SendHead(list, rest, other);
        sent := sent + size;
        if stop { return; }
        HeadTells(list);
      }
      NothingToFlush(list.bufs, chan, rest);
    }

    /** Moves the head of the low list to the empty high list. */
    method RaiseUncomplete()
      requires Valid() && low.bufs != [] && high.bufs == []
      modifies this, high, low, high.nodes, low.nodes
      ensures Valid() && Model() == SocketSlot.RaiseUncomplete(old(Model()))
      ensures high.nodes == [old(low.nodes)[0]] && low.nodes == old(low.nodes)[1..]
    {
      hide BufferList.Valid;
      HeadTells(low);
      var n := low.TakeHead(high);
      high.Append(n, low);
    }

    /** The second half of SendBuffer_: the high list is empty, the low list is not. */
    method FlushLow(ks: seq<WriteResult>, epollOk: bool) returns (report: Report)
      requires Valid() && AllOk(low.bufs) && high.bufs == []
      modifies this, high, low, high.nodes, low.nodes
      ensures Valid() && (Model(), report) == SocketSlot.FlushLow(old(Model()), ks, epollOk)
    {
      hide Flush, SocketSlot.CloseWrite, AllOk, BufferList.Valid, Drained;
      var failed, rest := SendListTCP(low, ks, high);
      HeadTells(low);
      if failed {
        report := CloseWrite();
      } else if low.head != null && low.head.offset != 0 {
        RaiseUncomplete();
        report := Quiet;
      } else if low.head != null {
        report := Quiet;
      } else {
        report := Drain(epollOk);
      }
    }

    /** Step 4 of SendBuffer_: both lists are empty. */
    method Drain(epollOk: bool) returns (report: Report)
      requires Valid()
      modifies this, high, low
      ensures Valid() && (Model(), report) == Drained(old(Model()), epollOk)
    {
      if closing {
        ForceClose();
        return Quiet;
      }
      writing := false;
      report := if epollOk then Quiet else Err;
    }

    /** SendBuffer_ */
    method FlushBoth(ks: seq<WriteResult>, epollOk: bool) returns (report: Report)
      requires Valid() && AllOk(high.bufs) && AllOk(low.bufs)
      modifies this, high, low, high.nodes, low.nodes
      ensures Valid() && (Model(), report) == SocketSlot.FlushBoth(old(Model()), ks, epollOk)
    {
      hide Flush, SocketSlot.CloseWrite, SocketSlot.FlushLow, AllOk, Drained, BufferList.Valid;
      HeadTells(low);
      var failed, rest := SendListTCP(high, ks, low);
      HeadTells(high);
      if failed {
        report := CloseWrite();
      } else if high.head != null {
        report := Quiet;
      } else if low.head != null {
        report := FlushLow(rest, epollOk);
      } else {
        report := Drain(epollOk);
      }
    }

    /** The direct-write buffer becomes the first node of the high list. */
    method TakeDirectBuffer()
      requires Valid()
      modifies this, high
      ensures Valid() && Model() == TakeDirect(old(Model())) && low.nodes == old(low.nodes)
      ensures
        || high.nodes == old(high.nodes)
        || (|high.nodes| > 0 && fresh(high.nodes[0]) && high.nodes[1..] == old(high.nodes))
    {
      hide BufferList.Valid;
      if dw.Some? {
        var node := new Node(dw.value.pkg, dw.value.offset);
        wbSize := wbSize + dw.value.Unsent();
        high.Prepend(node, low);
        dw := None;
      }
    }

    /** SendBuffer, holding the direct-write lock. */
    method SendBuffer(ks: seq<WriteResult>, epollOk: bool) returns (report: Report)
      requires Valid() && BuffersOk(Model())
      modifies this, high, low, high.nodes, low.nodes
      ensures Valid() && (Model(), report) == SocketSlot.SendBuffer(old(Model()), ks, epollOk)
    {
      hide SocketSlot.FlushBoth, BufferList.Valid;
      TakeDirectBuffer();
      report := FlushBoth(ks, epollOk);
    }
  }

  lemma NothingToFlush(list: seq<WriteBuffer>, c: Channel, ks: seq<WriteResult>)
    requires AllOk(list)
    ensures list == [] ==> Flush(list, c, ks) == Flushed([], c, 0, false, ks)
  {
  }
}
