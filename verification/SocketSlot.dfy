/** One TCP slot of the socket server: its fields, and what each handler of the socket
    thread does to them. The kernel is nondeterministic: it appears as a list of results
    of `write`, one per call. */
module SocketSlot {
  import opened Basics

  datatype Type =
    | Invalid | Reserve | Plisten | Listen | Connecting | Connected
    | HalfCloseRead | HalfCloseWrite | IPaccept | Bind

  /** A package handed to Send or SendLowpriority. The stamp is the order in which the
      slot accepted it; `low` its priority. */
  datatype Package = Package(stamp: nat, low: bool, data: seq<byte>)

  /** A package of which the first `offset` bytes are already written. */
  datatype WriteBuffer = WriteBuffer(pkg: Package, offset: nat) {
    function Unsent(): int { |pkg.data| - offset }
    predicate Ok() { offset == 0 || offset < |pkg.data| }
  }

  /** What the kernel has taken on this fd: every byte, the packages completed in order,
      and the package that is on the wire in part. */
  datatype Channel = Channel(wire: seq<byte>, done: seq<Package>, part: Option<WriteBuffer>)

  datatype Socket = Socket(
    ty: Type,
    id: nat,
    tcp: bool,                   // protocol is known to be TCP
    high: seq<WriteBuffer>,
    low: seq<WriteBuffer>,
    wbSize: int,
    tag: nat,                    // high part of `sending`
    sending: nat,                // low 16 bits of `sending`
    writing: bool,
    closing: bool,
    dw: Option<WriteBuffer>,     // dw_buffer and dw_offset
    chan: Channel)

  datatype WriteResult = Accept(n: nat) | Again | Fail

  /** What a handler reports to the service that owns the socket. */
  datatype Report = Quiet | Close | Data | Open | Err

  predicate Live(s: Socket) { s.ty != Invalid && s.ty != Reserve }

  predicate SendBufferEmpty(s: Socket) { s.high == [] && s.low == [] }

  predicate NomoreSendingData(s: Socket) {
    (SendBufferEmpty(s) && s.dw == None && s.sending == 0) || s.ty == HalfCloseWrite
  }

  /** What a worker asks for, without the lock and under it, before it writes to the fd itself. */
  predicate CanDirectWrite(s: Socket) { NomoreSendingData(s) && s.ty == Connected }

  // ---------------------------------------------------------------- writing to the fd

  function Packages(list: seq<WriteBuffer>): seq<Package> {
    if |list| == 0 then [] else [list[0].pkg] + Packages(list[1..])
  }

  function Unsent(list: seq<WriteBuffer>): int {
    if |list| == 0 then 0 else list[0].Unsent() + Unsent(list[1..])
  }

  /** The package of b is on the wire in part. */
  function Partial(b: WriteBuffer): Option<WriteBuffer> {
    if b.offset > 0 then Some(b) else None
  }

  function HeadPartial(list: seq<WriteBuffer>): Option<WriteBuffer> {
    if |list| == 0 then None else Partial(list[0])
  }

  /** The kernel takes k bytes of b. */
  function Emit(c: Channel, b: WriteBuffer, k: nat): Channel
    requires b.offset + k <= |b.pkg.data|
  {
    var wire := c.wire + b.pkg.data[b.offset..b.offset + k];
    if b.offset + k == |b.pkg.data| then Channel(wire, c.done + [b.pkg], None)
    else Channel(wire, c.done, Partial(WriteBuffer(b.pkg, b.offset + k)))
  }

  datatype Flushed = Flushed(list: seq<WriteBuffer>, chan: Channel, bytes: nat, failed: bool, rest: seq<WriteResult>)

  predicate AllOk(list: seq<WriteBuffer>) {
    forall i :: 0 <= i < |list| ==> list[i].Ok()
  }

  /** SendListTCP: writes buffers from the front until the list is empty, the kernel
      takes less than it was given, or an error. */
  function Flush(list: seq<WriteBuffer>, c: Channel, ks: seq<WriteResult>): (r: Flushed)
    requires AllOk(list)
  {
    if |list| == 0 then Flushed(list, c, 0, false, ks)
    else if |ks| == 0 || ks[0].Again? then Flushed(list, c, 0, false, if |ks| == 0 then [] else ks[1..])
    else if ks[0].Fail? then Flushed(list, c, 0, true, ks[1..])
    else
      var b := list[0];
      if ks[0].n < b.Unsent() then
        Flushed([WriteBuffer(b.pkg, b.offset + ks[0].n)] + list[1..], Emit(c, b, ks[0].n), ks[0].n, false, ks[1..])
      else
        var r := Flush(list[1..], Emit(c, b, b.Unsent()), ks[1..]);
        r.(bytes := b.Unsent() + r.bytes)
  }

  // ---------------------------------------------------------------- the handlers

  function ForceClose(s: Socket): Socket {
    if s.ty == Invalid then s else s.(high := [], low := [], ty := Invalid, dw := None)
  }

  /** What ForceClose does before it has the direct-write lock. */
  function FreeLists(s: Socket): Socket { s.(high := [], low := []) }

  /** Why a close was decided: everything is written, it was asked to drop the rest, or the
      connection or its write side is gone. */
  datatype Reason = Emptied | Told | Gone

  /** A close that was decided and waits for the direct-write lock, with what it will report. */
  datatype Closing = Closing(reason: Reason, report: Report)

  /** The report is the one the caller passes on; kSocketRst is dropped by its caller. */
  function CloseWrite(s: Socket): (Socket, Report) {
    if s.closing || s.ty == HalfCloseRead then (ForceClose(s), Quiet)
    else if s.ty == HalfCloseWrite then (s, Quiet)
    else (s.(ty := HalfCloseWrite, writing := false), Err)
  }

  function WithHigh(s: Socket, f: Flushed): Socket {
    s.(high := f.list, chan := f.chan, wbSize := s.wbSize - f.bytes)
  }

  function WithLow(s: Socket, f: Flushed): Socket {
    s.(low := f.list, chan := f.chan, wbSize := s.wbSize - f.bytes)
  }

  predicate ListUncomplete(list: seq<WriteBuffer>) { |list| > 0 && list[0].offset != 0 }

  function RaiseUncomplete(s: Socket): Socket
    requires s.low != []
  {
    s.(high := [s.low[0]], low := s.low[1..])
  }

  /** Both lists are empty. `epollOk` is the result of turning the write event off. */
  function Drained(s: Socket, epollOk: bool): (Socket, Report) {
    if s.closing then (ForceClose(s), Quiet)
    else (s.(writing := false), if epollOk then Quiet else Err)
  }

  function FlushLow(s: Socket, ks: seq<WriteResult>, epollOk: bool): (Socket, Report)
    requires AllOk(s.low)
  {
    var f := Flush(s.low, s.chan, ks);
    var s2 := WithLow(s, f);
    if f.failed then CloseWrite(s2)
    else if ListUncomplete(s2.low) then (RaiseUncomplete(s2), Quiet)
    else if s2.low != [] then (s2, Quiet)
    else Drained(s2, epollOk)
  }

  /** SendBuffer_ */
  function FlushBoth(s: Socket, ks: seq<WriteResult>, epollOk: bool): (Socket, Report)
    requires AllOk(s.high) && AllOk(s.low)
  {
    var f := Flush(s.high, s.chan, ks);
    var s1 := WithHigh(s, f);
    if f.failed then CloseWrite(s1)
    else if s1.high != [] then (s1, Quiet)
    else if s1.low != [] then FlushLow(s1, f.rest, epollOk)
    else Drained(s1, epollOk)
  }

  /** The direct-write buffer goes in front of everything queued. */
  function TakeDirect(s: Socket): Socket {
    match s.dw
    case None => s
    case Some(b) => s.(high := [b] + s.high, wbSize := s.wbSize + b.Unsent(), dw := None)
  }

  predicate BuffersOk(s: Socket) {
    AllOk(s.high) && AllOk(s.low) && (s.dw.Some? ==> s.dw.value.Ok())
  }

  /** SendBuffer, once it has the direct-write lock. */
  function SendBuffer(s: Socket, ks: seq<WriteResult>, epollOk: bool): (Socket, Report)
    requires BuffersOk(s)
  {
    FlushBoth(TakeDirect(s), ks, epollOk)
  }

  /** SendSocket refuses the package. */
  predicate Refuses(s: Socket, id: nat) {
    || s.ty == Invalid || s.id != id || s.ty == HalfCloseWrite || s.ty == IPaccept || s.closing
    || s.ty == Plisten || s.ty == Listen
  }

  function SendSocket(s: Socket, id: nat, p: Package, epollOk: bool): (Socket, Report) {
    var b := WriteBuffer(p, 0);
    if Refuses(s, id) then (s, Quiet)
    else if SendBufferEmpty(s) then
      (s.(high := [b], wbSize := s.wbSize + b.Unsent(), writing := true), if epollOk then Quiet else Err)
    else if p.low then (s.(low := s.low + [b], wbSize := s.wbSize + b.Unsent()), Quiet)
    else (s.(high := s.high + [b], wbSize := s.wbSize + b.Unsent()), Quiet)
  }

  /** DecSendingRef; its assertion is `DecSendingRefAsserts`. */
  function DecSendingRef(s: Socket, id: nat): Socket {
    if s.id == id && s.tcp && s.sending > 0 then s.(sending := s.sending - 1) else s
  }

  predicate DecSendingRefAsserts(s: Socket, id: nat) {
    s.id == id && s.tcp ==> s.sending != 0
  }

  function TriggerWrite(s: Socket, id: nat, epollOk: bool): (Socket, Report) {
    if s.id != id || s.ty == Invalid then (s, Quiet)
    else (s.(writing := true), if s.writing || epollOk then Quiet else Err)
  }

  function CloseRead(s: Socket): Socket { s.(ty := HalfCloseRead) }

  /** CloseSocket closes the fd at once. */
  predicate ClosesNow(s: Socket, shutdown: bool) { shutdown || NomoreSendingData(s) }

  predicate CloseDecides(s: Socket, id: nat, shutdown: bool) {
    s.id == id && s.ty != Invalid && ClosesNow(s, shutdown)
  }

  /** A close that is decided here is finished by `ForceClose`, under the lock. */
  function CloseSocket(s: Socket, id: nat, shutdown: bool): (Socket, Report) {
    if s.id != id || s.ty == Invalid then (s, Quiet)
    else if ClosesNow(s, shutdown) then (FreeLists(s), Quiet)
    else if s.ty == HalfCloseRead then (s.(closing := true), Quiet)
    else (CloseRead(s.(closing := true)), Close)
  }

  /** kSocketClose is not raised again once the read side is closed. */
  function CloseReport(s: Socket): Report {
    if s.ty == HalfCloseRead then Quiet else Close
  }

  function CloseClosing(s: Socket, id: nat, shutdown: bool): Option<Closing> {
    if !CloseDecides(s, id, shutdown) then None
    else Some(Closing(if shutdown then Told else if s.ty == HalfCloseWrite then Gone else Emptied, CloseReport(s)))
  }

  function ResumeSocket(s: Socket, id: nat, epollOk: bool): (Socket, Report) {
    if s.id != id || s.ty == Invalid || s.ty == HalfCloseRead || !epollOk then (s, Err)
    else if s.ty == IPaccept then (s.(ty := Connected), Open)
    else if s.ty == Plisten then (s.(ty := Listen), Open)
    else (s, if s.ty == Connected then Open else Quiet)
  }

  /** NewFd on a reserved slot: fresh counters and an fd nothing was written to. */
  function NewFd(s: Socket): Socket {
    s.(tcp := true, tag := s.id, sending := 0, writing := false, closing := false, wbSize := 0, dw := None)
  }

  datatype OpenResult = Refused | FailedLate | Opened(ty: Type)

  function OpenSocket(s: Socket, r: OpenResult): (Socket, Report) {
    match r
    case Refused => (s.(ty := Invalid), Err)
    case FailedLate => (NewFd(s).(ty := Invalid), Err)
    case Opened(ty) => (NewFd(s).(ty := ty, writing := ty == Connecting), if ty == Connecting then Quiet else Open)
  }

  function ReportConnect(s: Socket, connected: bool, epollOk: bool): (Socket, Report) {
    if !connected then (FreeLists(s), Quiet)
    else
      var s1 := s.(ty := Connected);
      if !NomoreSendingData(s1) then (s1, Open)
      else if epollOk then (s1.(writing := false), Open)
      else (FreeLists(s1.(writing := false)), Quiet)
  }

  function ConnectClosing(s: Socket, connected: bool, epollOk: bool): Option<Closing> {
    if !connected || (NomoreSendingData(s.(ty := Connected)) && !epollOk) then Some(Closing(Gone, Err)) else None
  }

  datatype ReadResult = Bytes | Eof | Nothing | Broken

  /** ForwardMessageTCP */
  function ForwardMessage(s: Socket, r: ReadResult): (Socket, Report) {
    match r
    case Nothing => (s, Quiet)
    case Broken => (s, Err)
    case Bytes => (s, if s.ty == HalfCloseRead then Quiet else Data)
    case Eof =>
      if s.closing then (if NomoreSendingData(s) then FreeLists(s) else s, Quiet)
      else if s.ty == HalfCloseRead then (s, Quiet)
      else if s.ty == HalfCloseWrite then (FreeLists(s), Quiet)
      else (CloseRead(s), Close)
  }

  function ReadClosing(s: Socket, r: ReadResult): Option<Closing> {
    if !r.Eof? then None
    else if s.closing then
      if NomoreSendingData(s) then Some(Closing(if s.ty == HalfCloseWrite then Gone else Emptied, Quiet)) else None
    else if s.ty == HalfCloseWrite then Some(Closing(Gone, Close))
    else None
  }

  /** The eof event of Poll: both directions are gone. */
  function HangUpClosing(s: Socket): Closing { Closing(Gone, CloseReport(s)) }

  // ---------------------------------------------------------------- writing past the queue

  predicate AllLow(list: seq<WriteBuffer>) {
    forall i :: 0 <= i < |list| ==> list[i].pkg.low
  }

  /** A direct write: the kernel takes n bytes of a package nothing of which is written. */
  function DirectEmit(c: Channel, p: Package, n: nat): Channel
    requires n <= |p.data|
  {
    if n > 0 then Emit(c, WriteBuffer(p, 0), n)
    else if p.data == [] then c.(done := c.done + [p])
    else c
  }

  // ---------------------------------------------------------------- what a flush keeps

  function Payload(ps: seq<Package>): seq<byte> {
    if |ps| == 0 then [] else Payload(ps[..|ps| - 1]) + ps[|ps| - 1].data
  }

  function PartialBytes(part: Option<WriteBuffer>): seq<byte> {
    match part
    case None => []
    case Some(b) => if b.offset <= |b.pkg.data| then b.pkg.data[..b.offset] else b.pkg.data
  }

  /** The bytes on the wire are whole packages in sequence, then at most one in part. */
  predicate WholePackages(c: Channel) {
    c.wire == Payload(c.done) + PartialBytes(c.part)
  }

  /** Only the head of the list may be partly written. */
  predicate HeadOnly(list: seq<WriteBuffer>) {
    AllOk(list) && forall i :: 0 < i < |list| ==> list[i].offset == 0
  }

  lemma EmitKeepsPackagesWhole(c: Channel, b: WriteBuffer, k: nat)
    requires b.offset + k <= |b.pkg.data|
    requires WholePackages(c) && c.part == Partial(b)
    ensures WholePackages(Emit(c, b, k))
  {
    var d, o, n := b.pkg.data, b.offset, b.offset + k;
    assert d[..o] + d[o..n] == d[..n];
    WriteExtends(c.wire, Payload(c.done), d[..o], d[o..n]);
    if n == |d| {
      assert d[..n] == d;
      assert (c.done + [b.pkg])[..|c.done|] == c.done;
      assert Payload(c.done + [b.pkg]) == Payload(c.done) + d;
    }
  }

  lemma WriteExtends(wire: seq<byte>, whole: seq<byte>, prefix: seq<byte>, more: seq<byte>)
    requires wire == whole + prefix
    ensures wire + more == whole + (prefix + more)
  {
  }

  /** A flush leaves the wire whole, and any partial package at the head of the list. */
  lemma {:induction false} FlushKeepsPackagesWhole(list: seq<WriteBuffer>, c: Channel, ks: seq<WriteResult>)
    requires HeadOnly(list) && WholePackages(c) && c.part == HeadPartial(list)
    ensures var r := Flush(list, c, ks);
            HeadOnly(r.list) && WholePackages(r.chan) && r.chan.part == HeadPartial(r.list)
  {
    hide WholePackages;
    if |list| > 0 && |ks| > 0 && ks[0].Accept? {
      var b, n := list[0], ks[0].n;
      if n < b.Unsent() {
        EmitKeepsPackagesWhole(c, b, n);
      } else {
        EmitKeepsPackagesWhole(c, b, b.Unsent());
        FlushKeepsPackagesWhole(list[1..], Emit(c, b, b.Unsent()), ks[1..]);
      }
    }
  }

  /** A flush neither loses, duplicates nor reorders a package. */
  lemma {:induction false} FlushKeepsOrder(list: seq<WriteBuffer>, c: Channel, ks: seq<WriteResult>)
    requires AllOk(list)
    ensures var r := Flush(list, c, ks); r.chan.done + Packages(r.list) == c.done + Packages(list)
  {
    if |list| > 0 && |ks| > 0 && ks[0].Accept? {
      var b, n, tail := list[0], ks[0].n, list[1..];
      if n < b.Unsent() {
        assert ([WriteBuffer(b.pkg, b.offset + n)] + tail)[1..] == tail;
      } else {
        FlushKeepsOrder(tail, Emit(c, b, b.Unsent()), ks[1..]);
        assert c.done + ([b.pkg] + Packages(tail)) == (c.done + [b.pkg]) + Packages(tail);
      }
    }
  }

  lemma {:induction false} FlushCountsBytes(list: seq<WriteBuffer>, c: Channel, ks: seq<WriteResult>)
    requires AllOk(list)
    ensures var r := Flush(list, c, ks); r.bytes == Unsent(list) - Unsent(r.list)
  {
    if |list| > 0 && |ks| > 0 && ks[0].Accept? && ks[0].n >= list[0].Unsent() {
      FlushCountsBytes(list[1..], Emit(c, list[0], list[0].Unsent()), ks[1..]);
    }
  }

  lemma {:induction false} NoFailure(list: seq<WriteBuffer>, c: Channel, ks: seq<WriteResult>)
    requires AllOk(list) && Fail !in ks
    ensures !Flush(list, c, ks).failed && Fail !in Flush(list, c, ks).rest
  {
    if |list| > 0 && |ks| > 0 && ks[0].Accept? && ks[0].n >= list[0].Unsent() {
      NoFailure(list[1..], Emit(c, list[0], list[0].Unsent()), ks[1..]);
    }
  }

  lemma {:induction false} UnsentAppend(a: seq<WriteBuffer>, b: WriteBuffer)
    ensures Unsent(a + [b]) == Unsent(a) + b.Unsent()
  {
    if |a| > 0 {
      UnsentAppend(a[1..], b);
      assert (a + [b])[1..] == a[1..] + [b];
    }
  }
}
