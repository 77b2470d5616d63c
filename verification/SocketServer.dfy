/** The send and close machinery of the socket server as a protocol: any number of worker
    threads and one socket thread share a slot through a control pipe, a try-lock and
    the counter `sending`. Each action is one atomic step of one thread; a run is any
    sequence of enabled actions. */
module SocketServer {
  import opened Basics
  import opened SocketSlot

  /** 'O', 'L' and 'B' (all open a reserved slot), 'D' and 'P', 'W', 'K', 'R'. */
  datatype Request =
    | ReqOpen(id: nat)
    | ReqSend(id: nat, pkg: Package)
    | ReqTrigger(id: nat)
    | ReqClose(id: nat, shutdown: bool)
    | ReqResume(id: nat)

  /** The direct-write lock: held by a worker that found both lists and the direct-write buffer
      empty, by one that then found no send in flight, or by one that has written n bytes and
      not yet stored the rest. */
  datatype Holder = Unlocked | Looked | Checked(pkg: Package) | Wrote(pkg: Package, n: nat)

  datatype Event = Event(kind: Report, id: nat)

  datatype World = World(
    sock: Socket,
    lock: Holder,
    pipe: seq<Request>,
    aboutToSend: multiset<nat>,     // past IncSendingRef, before writing 'D' or 'P'
    aboutToTrigger: multiset<nat>,  // stored a direct-write buffer, before writing 'W'
    tested: multiset<nat>,          // past the test without the lock, before taking the lock
    aboutToOpen: bool,              // reserved the slot, before writing 'O'
    clock: nat,                     // packages accepted for the current id
    dropped: set<nat>,              // stamps of packages SendSocket refused
    uncounted: nat,                 // sends for the current id that IncSendingRef skipped
    pending: Option<Closing>,       // the socket thread is in ForceClose, waiting for the lock
    torn: bool,                     // a direct write went into the middle of a package
    overtaken: bool,                // a direct write went ahead of a queued high-priority package
    events: seq<Event>)

  datatype Action =
    // worker threads
    | DoReserve(id: nat)
    | PostOpen
    | CountSend(id: nat)
    | PostSend(id: nat, low: bool, data: seq<byte>)
    | Test(id: nat)
    | Look
    | Pass(data: seq<byte>)
    | GiveUp
    | WriteDirect(n: nat)
    | StoreDirect
    | PostTrigger(id: nat)
    | PostClose(id: nat, shutdown: bool)
    | PostResume(id: nat)
    // the socket thread
    | Handle(open: OpenResult, epollOk: bool)
    | Accepted(id: nat)
    | ConnectEvent(connected: bool, epollOk: bool)
    | ReadEvent(r: ReadResult)
    | WriteEvent(ks: seq<WriteResult>, epollOk: bool)
    | ErrorEvent
    | HangUpEvent
    | FinishClose

  const NewChannel := Channel([], [], None)

  function Start(): World {
    World(Socket(Invalid, 0, false, [], [], 0, 0, 0, false, false, None, NewChannel), Unlocked,
          [], multiset{}, multiset{}, multiset{}, false, 0, {}, 0, None, false, false, [])
  }

  // ---------------------------------------------------------------- enabled steps

  /** The id has been returned to a caller, so its opening request is in the pipe or
      handled. */
  predicate Published(w: World, id: nat) {
    0 < id <= w.sock.id && (w.aboutToOpen ==> id < w.sock.id)
  }

  /** `Poll` sends the event to its default case. */
  predicate TakesEvents(s: Socket) { Live(s) && s.ty != Connecting && s.ty != Listen }

  /** The socket thread is not inside ForceClose. */
  predicate AtPoll(w: World) { w.pending == None }

  /** The assertion in `DecSendingRef` fails on the request at the head of the pipe; the
      process aborts. */
  predicate Aborts(w: World) {
    w.pipe != [] && w.pipe[0].ReqSend? && !DecSendingRefAsserts(w.sock, w.pipe[0].id)
  }

  predicate Enabled(w: World, a: Action) {
    match a
    case DoReserve(id) => w.sock.ty == Invalid && id > w.sock.id
    case PostOpen => w.aboutToOpen
    case CountSend(id) => Published(w, id) && !(w.sock.tcp && w.sock.tag == id && w.sock.sending == 0xffff)
    case PostSend(id, _, _) => w.aboutToSend[id] > 0
    case Test(id) => Published(w, id) && w.sock.id == id && w.sock.sending == 0
    case Look =>
      && w.tested[w.sock.id] > 0 && w.lock == Unlocked
      && w.sock.ty == Connected && SendBufferEmpty(w.sock) && w.sock.dw == None
    case Pass(_) => w.lock == Looked && w.sock.ty == Connected && w.sock.sending == 0
    case GiveUp => w.lock == Looked && !(w.sock.ty == Connected && w.sock.sending == 0)
    case WriteDirect(n) => w.lock.Checked? && n <= |w.lock.pkg.data|
    case StoreDirect => w.lock.Wrote?
    case PostTrigger(id) => w.aboutToTrigger[id] > 0
    case PostClose(id, _) => Published(w, id)
    case PostResume(id) => Published(w, id)
    case Handle(open, _) =>
      AtPoll(w) && w.pipe != [] && !Aborts(w) && (open.Opened? ==> open.ty in {Connected, Connecting, Plisten, Bind})
    case Accepted(id) => AtPoll(w) && w.sock.ty == Invalid && id > w.sock.id
    case ConnectEvent(_, _) => AtPoll(w) && w.sock.ty == Connecting
    case ReadEvent(_) => AtPoll(w) && TakesEvents(w.sock)
    case WriteEvent(_, _) => AtPoll(w) && TakesEvents(w.sock) && w.lock == Unlocked && BuffersOk(w.sock)
    case ErrorEvent => AtPoll(w) && TakesEvents(w.sock)
    case HangUpEvent => AtPoll(w) && TakesEvents(w.sock)
    case FinishClose => w.pending.Some? && w.lock == Unlocked
  }

  // ---------------------------------------------------------------- their effect

  function Raise(w: World, r: (Socket, Report), id: nat): World {
    w.(sock := r.0, events := if r.1 == Quiet then w.events else w.events + [Event(r.1, id)])
  }

  function TakeId(w: World, id: nat): World {
    w.(sock := w.sock.(ty := Reserve, id := id, tcp := false, chan := NewChannel),
       clock := 0, dropped := {}, uncounted := 0, torn := false, overtaken := false)
  }

  function IncSendingRef(w: World, id: nat): World {
    if w.sock.tcp && w.sock.tag == id then w.(sock := w.sock.(sending := w.sock.sending + 1))
    else if w.sock.id == id then w.(uncounted := w.uncounted + 1)
    else w
  }

  /** The slot and the report after a request other than an opening one. */
  function RequestResult(s: Socket, q: Request, epollOk: bool): (Socket, Report) {
    match q
    case ReqOpen(_) => (s, Quiet)
    case ReqSend(id, p) => SendSocket(s, id, p, epollOk)
    case ReqTrigger(id) => TriggerWrite(s, id, epollOk)
    case ReqClose(id, shutdown) => CloseSocket(s, id, shutdown)
    case ReqResume(id) => ResumeSocket(s, id, epollOk)
  }

  function HandleResult(s: Socket, q: Request, open: OpenResult, epollOk: bool): (Socket, Report) {
    match q
    case ReqOpen(_) => OpenSocket(s, open)
    case ReqSend(id, _) =>
      var r := RequestResult(s, q, epollOk);
      (DecSendingRef(r.0, id), r.1)
    case _ => RequestResult(s, q, epollOk)
  }

  /** The close a request decides, if any. */
  function RequestClosing(s: Socket, q: Request): Option<Closing> {
    if q.ReqClose? then CloseClosing(s, q.id, q.shutdown) else None
  }

  /** SendSocket refuses the package of the request. */
  predicate Drops(s: Socket, q: Request) { q.ReqSend? && s.id == q.id && Refuses(s, q.id) }

  function Handled(w: World, q: Request, r: (Socket, Report)): World {
    Raise(w, r, q.id).(
      pending := RequestClosing(w.sock, q),
      dropped := if Drops(w.sock, q) then w.dropped + {q.pkg.stamp} else w.dropped)
  }

  /** The slot and the report after an event of the poll loop. */
  function EventResult(s: Socket, a: Action): (Socket, Report)
    requires a.WriteEvent? ==> BuffersOk(s)
  {
    match a
    case ConnectEvent(connected, epollOk) => ReportConnect(s, connected, epollOk)
    case ReadEvent(r) => ForwardMessage(s, r)
    case WriteEvent(ks, epollOk) => SendBuffer(s, ks, epollOk)
    case ErrorEvent => (s, Err)
    case HangUpEvent => (FreeLists(s), Quiet)
    case _ => (s, Quiet)
  }

  /** The close an event decides, if any. */
  function EventClosing(s: Socket, a: Action): Option<Closing> {
    match a
    case ConnectEvent(connected, epollOk) => ConnectClosing(s, connected, epollOk)
    case ReadEvent(r) => ReadClosing(s, r)
    case HangUpEvent => Some(HangUpClosing(s))
    case _ => None
  }

  predicate IsEvent(a: Action) {
    a.ConnectEvent? || a.ReadEvent? || a.WriteEvent? || a.ErrorEvent? || a.HangUpEvent?
  }

  function AfterEvent(w: World, a: Action): World
    requires a.WriteEvent? ==> BuffersOk(w.sock)
  {
    Raise(w, EventResult(w.sock, a), w.sock.id).(pending := EventClosing(w.sock, a))
  }

  /** A worker takes, holds or releases the direct-write lock. */
  predicate ByLock(a: Action) {
    a.Look? || a.Pass? || a.GiveUp? || a.WriteDirect? || a.StoreDirect?
  }

  function AfterLock(w: World, a: Action): World
    requires Enabled(w, a) && ByLock(a)
  {
    var s := w.sock;
    match a
    case Look => w.(lock := Looked, tested := w.tested - multiset{s.id})
    case Pass(data) =>
      w.(lock := Checked(Package(w.clock, false, data)), clock := w.clock + 1,
         overtaken := w.overtaken || !AllLow(s.high))
    case GiveUp => w.(lock := Unlocked)
    case WriteDirect(n) =>
      var p := w.lock.pkg;
      w.(sock := s.(chan := DirectEmit(s.chan, p, n)),
         lock := if n == |p.data| then Unlocked else Wrote(p, n),
         torn := w.torn || (n > 0 && s.chan.part.Some?))
    case StoreDirect =>
      w.(sock := s.(dw := Some(WriteBuffer(w.lock.pkg, w.lock.n))), lock := Unlocked,
         aboutToTrigger := w.aboutToTrigger + multiset{s.id})
  }

  /** The request a worker writes to the pipe, if any. */
  function Posting(w: World, a: Action): Option<Request> {
    match a
    case PostOpen => Some(ReqOpen(w.sock.id))
    case PostSend(id, low, data) => Some(ReqSend(id, Package(w.clock, low, data)))
    case PostTrigger(id) => Some(ReqTrigger(id))
    case PostClose(id, shutdown) => Some(ReqClose(id, shutdown))
    case PostResume(id) => Some(ReqResume(id))
    case _ => None
  }

  function AfterPosting(w: World, a: Action): World
    requires Posting(w, a).Some?
  {
    var w1 := w.(pipe := w.pipe + [Posting(w, a).value]);
    match a
    case PostOpen => w1.(aboutToOpen := false)
    case PostSend(id, _, _) =>
      w1.(aboutToSend := w.aboutToSend - multiset{id}, clock := if id == w.sock.id then w.clock + 1 else w.clock)
    case PostTrigger(id) => w1.(aboutToTrigger := w.aboutToTrigger - multiset{id})
    case _ => w1
  }

  /** The slot is taken for a new id. */
  predicate TakesId(a: Action) { a.DoReserve? || a.Accepted? }

  function AfterTaking(w: World, a: Action): World
    requires TakesId(a)
  {
    var w1 := TakeId(w, a.id);
    if a.DoReserve? then w1.(aboutToOpen := true) else w1.(sock := NewFd(w1.sock).(ty := IPaccept))
  }

  function AfterHandle(w: World, a: Action): World
    requires a.Handle? && w.pipe != []
  {
    Handled(w, w.pipe[0], HandleResult(w.sock, w.pipe[0], a.open, a.epollOk)).(pipe := w.pipe[1..])
  }

  function AfterFinish(w: World): World
    requires w.pending.Some?
  {
    Raise(w, (ForceClose(w.sock), w.pending.value.report), w.sock.id).(pending := None)
  }

  function Next(w: World, a: Action): World
    requires Enabled(w, a)
  {
    if ByLock(a) then AfterLock(w, a)
    else if Posting(w, a).Some? then AfterPosting(w, a)
    else if TakesId(a) then AfterTaking(w, a)
    else if IsEvent(a) then AfterEvent(w, a)
    else if a.Handle? then AfterHandle(w, a)
    else if a.FinishClose? then AfterFinish(w)
    else if a.Test? then w.(tested := w.tested + multiset{a.id})
    else IncSendingRef(w, a.id).(aboutToSend := w.aboutToSend + multiset{a.id})
  }

  /** A run of the protocol from its start. */
  ghost predicate Run(ws: seq<World>, acts: seq<Action>) {
    && |ws| == |acts| + 1
    && ws[0] == Start()
    && forall i {:trigger acts[i]} :: 0 <= i < |acts| ==> Enabled(ws[i], acts[i]) && ws[i + 1] == Next(ws[i], acts[i])
  }
}
