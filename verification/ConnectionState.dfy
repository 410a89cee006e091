/** The connection protocol: an accepting thread, n sub-reactor threads and any number of
    worker threads, as interleaved steps over the shared tables. One step is one critical
    section, or one stretch of a reactor's handler that touches only its own connection. */
module ConnectionState {
  import opened Text
  import SocketCompat

  // ---------- Data ----------

  datatype ConnId = ConnId(fd: nat, gen: nat)

  /** The connection that was accepted after uid others: its descriptor and reactor. The
      uid names the socket itself; the program only ever sees descriptors and generations. */
  datatype Peer = Peer(fd: nat, reactor: nat)

  /** Whom a descriptor belongs to; owner is -1 and context false after unregistering. */
  datatype Binding = Binding(gen: nat, owner: int, context: bool, uid: nat)

  /** Response bytes, and the connection whose request they answer. */
  datatype Response = Response(data: string, uid: nat)

  datatype Ctx = Ctx(gen: nat, uid: nat, inFlight: int, current: Option<Response>, keepAlive: bool, offset: nat)

  datatype Slot = Slot(reactor: nat, fd: nat)
  datatype Pending = Pending(id: ConnId, response: Response, keepAlive: bool)

  /** A submitted request task; uid is the connection its bytes were read from. */
  datatype Task = Task(reactor: nat, id: ConnId, uid: nat, posted: bool)

  /** One-shot interest of a descriptor in its reactor's epoll. */
  datatype Arm = Disarmed | Reading | Writing
  datatype Reg = Reg(reactor: nat, gen: nat, arm: Arm)

  /** What the event loop of a reactor still has to do in the handler it is in. A hang-up
      check knows its descriptor only; uid is the connection that hung up. */
  datatype Todo = Nothing | Wake(items: seq<Pending>) | Sweep(ids: seq<ConnId>) | HangupCheck(fd: nat, uid: nat)

  /** The second half of a call that a handler has begun. */
  datatype Op = Free | Closing(fd: nat, owner: nat, uid: nat) | Submitting(id: ConnId, uid: nat)

  datatype Reactor = Reactor(pending: seq<Pending>, todo: Todo, op: Op)

  /** How far the accepting thread is with a new connection. */
  datatype Stage = Opened | Cleared | Registered | Inserted
  datatype Acceptor = Waiting | Setup(stage: Stage, fd: nat, reactor: nat, uid: nat)

  /** open is the kernel's view; peers, closes (of which connection) and stray (calls of
      close that did not hit the socket they were meant for) are histories. */
  datatype State = State(
    conns: map<nat, Binding>, ctxs: map<Slot, Ctx>, epoll: map<nat, Reg>, open: map<nat, nat>,
    tasks: multiset<Task>, reactors: seq<Reactor>, acceptor: Acceptor,
    peers: seq<Peer>, closes: multiset<nat>, stray: nat)

  function Generation(uid: nat): nat { SocketCompat.Generation(uid) }


  // ---------- The shared tables ----------

  predicate Owns(s: State, r: nat, id: ConnId) {
    && id.fd in s.conns && s.conns[id.fd].context && s.conns[id.fd].owner == r
    && s.conns[id.fd].gen != 0 && s.conns[id.fd].gen == id.gen
  }

  predicate Has(s: State, r: nat, fd: nat) { Slot(r, fd) in s.ctxs }

  function Ctxt(s: State, r: nat, fd: nat): Ctx
    requires Has(s, r, fd)
  {
    s.ctxs[Slot(r, fd)]
  }

  function Put(s: State, r: nat, fd: nat, c: Ctx): State { s.(ctxs := s.ctxs[Slot(r, fd) := c]) }

  function WithReactor(s: State, r: nat, reactor: Reactor): State
    requires r < |s.reactors|
  {
    s.(reactors := s.reactors[r := reactor])
  }

  function WithTodo(s: State, r: nat, todo: Todo): State
    requires r < |s.reactors|
  {
    WithReactor(s, r, s.reactors[r].(todo := todo))
  }

  function WithOp(s: State, r: nat, op: Op): State
    requires r < |s.reactors|
  {
    WithReactor(s, r, s.reactors[r].(op := op))
  }

  function Without(items: seq<Pending>, fd: nat): (r: seq<Pending>)
    ensures forall p :: p in r <==> p in items && p.id.fd != fd
  {
    if items == [] then []
    else if items[0].id.fd == fd then Without(items[1..], fd)
    else [items[0]] + Without(items[1..], fd)
  }

  function DropPending(s: State, r: nat, fd: nat): State
    requires r < |s.reactors|
  {
    WithReactor(s, r, s.reactors[r].(pending := Without(s.reactors[r].pending, fd)))
  }

  function Post(s: State, r: nat, p: Pending): State
    requires r < |s.reactors|
  {
    WithReactor(s, r, s.reactors[r].(pending := s.reactors[r].pending + [p]))
  }

  /** markInFlight: only the very connection, told by its generation, is counted; leaving
      below zero is clamped. */
  function MarkInFlight(s: State, r: nat, id: ConnId, enter: bool): State {
    if !Has(s, r, id.fd) || Ctxt(s, r, id.fd).gen != id.gen then s
    else
      var c := Ctxt(s, r, id.fd);
      Put(s, r, id.fd, c.(inFlight := if enter then c.inFlight + 1 else if c.inFlight <= 0 then 0 else c.inFlight - 1))
  }

  /** epoll_ctl MOD; a descriptor this epoll does not know is ignored. */
  function Rearm(s: State, r: nat, id: ConnId, arm: Arm): State {
    if id.fd in s.epoll && s.epoll[id.fd].reactor == r then s.(epoll := s.epoll[id.fd := Reg(r, id.gen, arm)]) else s
  }

  // ---------- Closing ----------

  /** closeConnectionId, up to the point where nobody else can close the same connection. */
  function BeginClose(s: State, r: nat, id: ConnId): State
    requires r < |s.reactors|
  {
    if id.fd !in s.conns || !s.conns[id.fd].context || s.conns[id.fd].gen != id.gen then s
    else
      var b := s.conns[id.fd];
      var t := s.(conns := s.conns[id.fd := b.(owner := -1, context := false)]);
      if 0 <= b.owner < |s.reactors| then WithOp(t, r, Closing(id.fd, b.owner, b.uid)) else t
  }

  /** closeConnection: the identity is taken from the reactor's own context, if any. */
  function CloseConnection(s: State, r: nat, fd: nat): State
    requires r < |s.reactors|
  {
    if Has(s, r, fd) then BeginClose(s, r, ConnId(fd, Ctxt(s, r, fd).gen)) else s
  }

  /** The system call, meant for connection uid. */
  function CloseFd(s: State, fd: nat, uid: nat): State {
    s.(open := s.open - {fd}, epoll := s.epoll - {fd},
       closes := s.closes + multiset{uid},
       stray := if fd in s.open && s.open[fd] == uid then s.stray else s.stray + 1)
  }

  function EraseCtx(s: State, r: nat, fd: nat): State {
    s.(ctxs := s.ctxs - {Slot(r, fd)})
  }

  // ---------- Requests and responses ----------

  /** Whether the buffered bytes hold a request to answer (accepted or refused) or not yet. */
  datatype Parsed = Incomplete | Request

  /** recv: end of file or fatal error, nothing there, bytes that are refused without
      parsing (too many, or no block for them), bytes to parse. */
  datatype Input = Eof | NoData | Refused | Bytes(parsed: Parsed)

  /** send: n bytes at most, and whether it ended with an error other than would-block. */
  datatype Output = Output(n: nat, fatal: bool)

  /** enqueueRequestTask, the first half: the connection is in flight before the task
      exists. */
  function BeginSubmit(s: State, r: nat, id: ConnId, uid: nat): State
    requires r < |s.reactors|
  {
    WithOp(MarkInFlight(s, r, id, true), r, Submitting(id, uid))
  }

  function DispatchBuffered(s: State, r: nat, id: ConnId, parsed: Parsed): State
    requires r < |s.reactors|
  {
    if !Has(s, r, id.fd) then CloseConnection(s, r, id.fd)
    else if Ctxt(s, r, id.fd).current.Some? then s
    else if parsed == Incomplete then Rearm(s, r, id, Reading)
    else BeginSubmit(s, r, id, Ctxt(s, r, id.fd).uid)
  }

  function HandleRead(s: State, r: nat, id: ConnId, input: Input): State
    requires r < |s.reactors|
  {
    if !Has(s, r, id.fd) then CloseConnection(s, r, id.fd)
    else
      match input
      case Eof => CloseConnection(s, r, id.fd)
      case NoData => Rearm(s, r, id, Reading)
      case Refused => BeginSubmit(s, r, id, Ctxt(s, r, id.fd).uid)
      case Bytes(parsed) => DispatchBuffered(s, r, id, parsed)
  }

  /** The bytes of the response that send accepted. */
  function SentNow(c: Ctx, out: Output): nat
    requires c.current.Some?
  {
    var left := if c.offset >= |c.current.value.data| then 0 else |c.current.value.data| - c.offset;
    if out.n <= left then out.n else left
  }

  predicate Completes(c: Ctx, out: Output)
    requires c.current.Some?
  {
    c.offset + SentNow(c, out) >= |c.current.value.data|
  }

  /** rest is what the buffer holds when the response is complete, None when it is empty. */
  function WriteCurrent(s: State, r: nat, fd: nat, out: Output, rest: Option<Parsed>): State
    requires r < |s.reactors| && Has(s, r, fd)
  {
    var c := Ctxt(s, r, fd);
    var id := ConnId(fd, c.gen);
    if c.current.None? then s
    else if Completes(c, out) then
      var t := Put(s, r, fd, c.(offset := 0, current := None));
      if !c.keepAlive then CloseConnection(t, r, fd)
      else
        var u := Rearm(t, r, id, Reading);
        if rest.Some? then DispatchBuffered(u, r, id, rest.value) else u
    else
      var t := Put(s, r, fd, c.(offset := c.offset + SentNow(c, out)));
      if SentNow(c, out) == 0 && out.fatal then CloseConnection(t, r, fd)
      else Rearm(t, r, id, Writing)
  }

  function HandleWrite(s: State, r: nat, fd: nat, out: Output, rest: Option<Parsed>): State
    requires r < |s.reactors|
  {
    if !Has(s, r, fd) then CloseConnection(s, r, fd)
    else if Ctxt(s, r, fd).current.None? then Rearm(s, r, ConnId(fd, Ctxt(s, r, fd).gen), Reading)
    else WriteCurrent(s, r, fd, out, rest)
  }

  /** One posted response: dropped unless its connection is still there. */
  function Deliver(s: State, r: nat, p: Pending, out: Output, rest: Option<Parsed>): State
    requires r < |s.reactors|
  {
    if !Owns(s, r, p.id) then s
    else if !Has(s, r, p.id.fd) || Ctxt(s, r, p.id.fd).gen != p.id.gen then s
    else
      var c := Ctxt(s, r, p.id.fd);
      WriteCurrent(Put(s, r, p.id.fd, c.(current := Some(p.response), keepAlive := p.keepAlive, offset := 0)),
                   r, p.id.fd, out, rest)
  }

  // ---------- Steps ----------

  /** Hup carries what is read first when the event also says readable. */
  datatype Event = In(input: Input) | Out(output: Output, rest: Option<Parsed>) | Hup(first: Option<Input>)

  datatype Action =
    // the accepting thread
    | Accept(fd: nat) | ClearStale | Register | Insert | AddToEpoll(ok: bool)
    // reactor r
    | Harvest(r: nat, fd: nat) | Handle(r: nat, id: ConnId, event: Event) | CheckHangup(r: nat)
    | TakePending(r: nat) | DeliverNext(r: nat, output: Output, rest: Option<Parsed>)
    | CollectIdle(r: nat, ids: seq<ConnId>) | SweepNext(r: nat)
    | Submit(r: nat, ok: bool) | FinishClose(r: nat)
    // workers
    | Execute(task: Task, data: string, keepAlive: bool, posts: bool) | Leave(task: Task)

  predicate Idle(s: State, r: nat) {
    r < |s.reactors| && s.reactors[r].op == Free && s.reactors[r].todo == Nothing
  }

  predicate AtStage(s: State, stage: Stage) { s.acceptor.Setup? && s.acceptor.stage == stage }

  /** A connection the kernel can report events of: its descriptor was added to epoll. */
  predicate Announced(s: State, id: ConnId) {
    !(s.acceptor.Setup? && id == ConnId(s.acceptor.fd, Generation(s.acceptor.uid)))
  }

  /** What handleTimer may judge idle: contexts without a request in flight. */
  predicate MayBeIdle(s: State, r: nat, id: ConnId) {
    Has(s, r, id.fd) && Ctxt(s, r, id.fd).gen == id.gen && Ctxt(s, r, id.fd).inFlight <= 0
  }

  predicate Enabled(s: State, a: Action) {
    match a
    case Accept(fd) => s.acceptor.Waiting? && fd !in s.open && |s.reactors| > 0
    case ClearStale => AtStage(s, Opened) && s.acceptor.reactor < |s.reactors|
    case Register => AtStage(s, Cleared)
    case Insert => AtStage(s, Registered)
    case AddToEpoll(ok) => AtStage(s, Inserted) && (ok ==> s.acceptor.fd in s.open)
    case Harvest(r, fd) => r < |s.reactors|
    case Handle(r, id, event) => Idle(s, r) && Announced(s, id)
    case CheckHangup(r) => r < |s.reactors| && s.reactors[r].op == Free && s.reactors[r].todo.HangupCheck?
    case TakePending(r) => Idle(s, r)
    case DeliverNext(r, output, rest) => r < |s.reactors| && s.reactors[r].op == Free && s.reactors[r].todo.Wake?
    case CollectIdle(r, ids) => Idle(s, r) && forall id :: id in ids ==> MayBeIdle(s, r, id)
    case SweepNext(r) => r < |s.reactors| && s.reactors[r].op == Free && s.reactors[r].todo.Sweep?
    case Submit(r, ok) => r < |s.reactors| && s.reactors[r].op.Submitting?
    case FinishClose(r) => r < |s.reactors| && s.reactors[r].op.Closing? && s.reactors[r].op.owner < |s.reactors|
    case Execute(task, data, keepAlive, posts) => task in s.tasks && !task.posted && task.reactor < |s.reactors|
    case Leave(task) => task in s.tasks && task.posted
  }

  /** accept4, and the round-robin choice of a reactor. */
  function AcceptStep(s: State, fd: nat): State
    requires |s.reactors| > 0
  {
    var uid := |s.peers|;
    var r := uid % |s.reactors|;
    s.(open := s.open[fd := uid], peers := s.peers + [Peer(fd, r)], acceptor := Setup(Opened, fd, r, uid))
  }

  function SetupStep(s: State, a: Action): State
    requires Enabled(s, a) && (a.ClearStale? || a.Register? || a.Insert? || a.AddToEpoll?)
  {
    var fd, r, uid := s.acceptor.fd, s.acceptor.reactor, s.acceptor.uid;
    match a
    case ClearStale => DropPending(s, r, fd).(acceptor := Setup(Cleared, fd, r, uid))
    case Register =>
      s.(conns := s.conns[fd := Binding(Generation(uid), r, true, uid)], acceptor := Setup(Registered, fd, r, uid))
    case Insert =>
      Put(s, r, fd, Ctx(Generation(uid), uid, 0, None, false, 0)).(acceptor := Setup(Inserted, fd, r, uid))
    case AddToEpoll(ok) =>
      if ok then s.(epoll := s.epoll[fd := Reg(r, Generation(uid), Reading)], acceptor := Waiting)
      else CloseFd(EraseCtx(s, r, fd).(conns := s.conns - {fd}), fd, uid).(acceptor := Waiting)
  }

  function HandleStep(s: State, r: nat, id: ConnId, event: Event): State
    requires r < |s.reactors|
  {
    if !Owns(s, r, id) then s
    else
      match event
      case In(input) => HandleRead(s, r, id, input)
      case Out(output, rest) => HandleWrite(s, r, id.fd, output, rest)
      case Hup(first) =>
        WithTodo(if first.Some? then HandleRead(s, r, id, first.value) else s, r, HangupCheck(id.fd, s.conns[id.fd].uid))
  }

  /** The rest of the hang-up branch looks the descriptor up again. */
  function CheckHangupStep(s: State, r: nat): State
    requires Enabled(s, CheckHangup(r))
  {
    var fd := s.reactors[r].todo.fd;
    var t := WithTodo(s, r, Nothing);
    if Has(s, r, fd) && (Ctxt(s, r, fd).inFlight > 0 || Ctxt(s, r, fd).current.Some?) then t
    else CloseConnection(t, r, fd)
  }

  function DeliverStep(s: State, r: nat, output: Output, rest: Option<Parsed>): State
    requires Enabled(s, DeliverNext(r, output, rest))
  {
    var items := s.reactors[r].todo.items;
    if items == [] then WithTodo(s, r, Nothing)
    else Deliver(WithTodo(s, r, Wake(items[1..])), r, items[0], output, rest)
  }

  function SweepStep(s: State, r: nat): State
    requires Enabled(s, SweepNext(r))
  {
    var ids := s.reactors[r].todo.ids;
    if ids == [] then WithTodo(s, r, Nothing) else BeginClose(WithTodo(s, r, Sweep(ids[1..])), r, ids[0])
  }

  /** The second half of enqueueRequestTask; a refused submission is taken back. */
  function SubmitStep(s: State, r: nat, ok: bool): State
    requires Enabled(s, Submit(r, ok))
  {
    var op := s.reactors[r].op;
    var t := WithOp(s, r, Free);
    if ok then t.(tasks := t.tasks + multiset{Task(r, op.id, op.uid, false)}) else MarkInFlight(t, r, op.id, false)
  }

  /** The rest of closeConnectionId. */
  function FinishCloseStep(s: State, r: nat): State
    requires Enabled(s, FinishClose(r))
  {
    var op := s.reactors[r].op;
    CloseFd(DropPending(EraseCtx(WithOp(s, r, Free), op.owner, op.fd), op.owner, op.fd), op.fd, op.uid)
  }

  function ExecuteStep(s: State, task: Task, data: string, keepAlive: bool, posts: bool): State
    requires Enabled(s, Execute(task, data, keepAlive, posts))
  {
    var t := s.(tasks := s.tasks - multiset{task} + multiset{task.(posted := true)});
    if posts then Post(t, task.reactor, Pending(task.id, Response(data, task.uid), keepAlive)) else t
  }

  function Step(s: State, a: Action): State
    requires Enabled(s, a)
  {
    match a
    case Accept(fd) => AcceptStep(s, fd)
    case ClearStale => SetupStep(s, a)
    case Register => SetupStep(s, a)
    case Insert => SetupStep(s, a)
    case AddToEpoll(ok) => SetupStep(s, a)
    case Harvest(r, fd) =>
      if fd in s.epoll && s.epoll[fd].reactor == r then s.(epoll := s.epoll[fd := s.epoll[fd].(arm := Disarmed)]) else s
    case Handle(r, id, event) => HandleStep(s, r, id, event)
    case CheckHangup(r) => CheckHangupStep(s, r)
    case TakePending(r) => WithReactor(s, r, Reactor([], Wake(s.reactors[r].pending), Free))
    case DeliverNext(r, output, rest) => DeliverStep(s, r, output, rest)
    case CollectIdle(r, ids) => WithTodo(s, r, Sweep(ids))
    case SweepNext(r) => SweepStep(s, r)
    case Submit(r, ok) => SubmitStep(s, r, ok)
    case FinishClose(r) => FinishCloseStep(s, r)
    case Execute(task, data, keepAlive, posts) => ExecuteStep(s, task, data, keepAlive, posts)
    case Leave(task) => MarkInFlight(s.(tasks := s.tasks - multiset{task}), task.reactor, task.id, false)
  }

  function Initial(n: nat): State {
    State(map[], map[], map[], map[], multiset{}, seq(n, _ => Reactor([], Nothing, Free)), Waiting, [], multiset{}, 0)
  }
}
