/** No connection is stranded: while events are handled one at a time and nothing fails,
    every connection has something to wait for. */
module ConnectionLiveness {
  import opened Text
  import opened ConnectionState
  import opened ConnectionInvariant
  import opened ConnectionOwnership
  import opened ConnectionSafety

  // ---------- Undisturbed steps ----------

  /** Any step but the event loop's, or one event that is delivered and handled at once. */
  datatype Move = Base(a: Action) | Event(r: nat, id: ConnId, event: ConnectionState.Event)

  /** An event the kernel can deliver: one-shot interest, still armed for it, no error or
      hang-up. */
  predicate Armed(s: State, r: nat, id: ConnId, event: ConnectionState.Event) {
    && id.fd in s.epoll && s.epoll[id.fd].reactor == r && s.epoll[id.fd].gen == id.gen
    && match s.epoll[id.fd].arm
       case Disarmed => false
       case Reading => event.In?
       case Writing => event.Out?
  }

  predicate Undisturbed(s: State, m: Move) {
    match m
    case Base(a) =>
      && Possible(s, a) && Intact(s, a) && !a.Harvest? && !a.Handle?
      && (a.Submit? ==> a.ok) && (a.Execute? ==> a.posts)
    case Event(r, id, event) => Idle(s, r) && Armed(s, r, id, event)
  }

  function Delivered(s: State, fd: nat): State
    requires fd in s.epoll
  {
    s.(epoll := s.epoll[fd := s.epoll[fd].(arm := Disarmed)])
  }

  function Next(s: State, m: Move): State
    requires Undisturbed(s, m)
  {
    match m
    case Base(a) => Step(s, a)
    case Event(r, id, event) => HandleStep(Delivered(s, id.fd), r, id, event)
  }

  function Go(n: nat, run: seq<Move>): Option<State> {
    if run == [] then Some(Initial(n))
    else
      match Go(n, run[..|run| - 1])
      case None => None
      case Some(t) => if Undisturbed(t, run[|run| - 1]) then Some(Next(t, run[|run| - 1])) else None
  }

  // ---------- What a connection waits for ----------

  /** The responses posted to a reactor and not yet delivered. */
  function Line(s: State, r: nat): seq<Pending>
    requires r < |s.reactors|
  {
    (if s.reactors[r].todo.Wake? then s.reactors[r].todo.items else []) + s.reactors[r].pending
  }

  ghost predicate Queued(s: State, r: nat, uid: nat) {
    r < |s.reactors| && exists p :: p in Line(s, r) && p.response.uid == uid
  }

  /** A request of the connection is being submitted, is queued or running, or its response
      is on the way. */
  ghost predicate Awaited(s: State, k: Slot)
    requires k in s.ctxs
  {
    var id, uid := IdOf(k, s.ctxs[k]), s.ctxs[k].uid;
    || s.tasks[Task(k.reactor, id, uid, false)] > 0
    || BeingSubmitted(s, k.reactor, id, uid)
    || Queued(s, k.reactor, uid)
  }

  /** Once the accepting thread is done with it and until it is being closed, a connection
      is known to epoll, it is write-armed exactly while it has a response to send, and if it
      is not armed at all, a request of its is awaited. */
  ghost predicate LiveOk(s: State, k: Slot)
    requires k in s.ctxs
  {
    var c := s.ctxs[k];
    if InSetup(s, c.uid) then c.current.None?
    else
      || BeingClosed(s, k.reactor, k.fd, c.uid)
      || (&& k.fd in s.epoll && s.epoll[k.fd].reactor == k.reactor
          && (c.current.Some? <==> s.epoll[k.fd].arm == Writing)
          && (s.epoll[k.fd].arm == Disarmed ==> Awaited(s, k)))
  }

  ghost predicate Lively(s: State) { forall k :: k in s.ctxs ==> LiveOk(s, k) }

  // ---------- Handlers ----------

  /** t differs from s only in what belongs to connection k, whose thread was in no call. */
  ghost predicate OnlySlot(s: State, t: State, k: Slot) {
    && k.reactor < |s.reactors| && |t.reactors| == |s.reactors| && s.reactors[k.reactor].op == Free
    && t.tasks == s.tasks && t.acceptor == s.acceptor
    && (forall l :: l in t.ctxs <==> l in s.ctxs) && (forall l :: l in s.ctxs && l != k ==> t.ctxs[l] == s.ctxs[l])
    && (forall fd :: fd in t.epoll <==> fd in s.epoll) && (forall fd :: fd in s.epoll && fd != k.fd ==> t.epoll[fd] == s.epoll[fd])
    && (forall q :: 0 <= q < |s.reactors| && q != k.reactor ==> t.reactors[q] == s.reactors[q])
    && t.reactors[k.reactor].(op := Free) == s.reactors[k.reactor]
  }

  lemma OtherStaysLive(s: State, t: State, k: Slot, l: Slot)
    requires OnlySlot(s, t, k) && l in s.ctxs && l.fd != k.fd && LiveOk(s, l)
    ensures LiveOk(t, l)
  {
    if l.reactor < |s.reactors| { assert Line(t, l.reactor) == Line(s, l.reactor); }
  }

  lemma OthersStayLive(s: State, t: State, k: Slot)
    requires OnlySlot(s, t, k) && Contexts(s) && Sockets(s) && k in s.ctxs
    requires forall l :: l in s.ctxs && l != k ==> LiveOk(s, l)
    requires LiveOk(t, k)
    ensures Lively(t)
  {
    hide LiveOk;
    forall l | l in t.ctxs ensures LiveOk(t, l) {
      OneSlot(s, k.reactor, k.fd, l);
      if l != k { OtherStaysLive(s, t, k, l); }
    }
  }

  lemma CloseOnly(s: State, r: nat, fd: nat)
    requires r < |s.reactors| && s.reactors[r].op == Free
    ensures OnlySlot(s, CloseConnection(s, r, fd), Slot(r, fd))
  {}

  lemma OnlyTwice(s: State, t: State, u: State, k: Slot)
    requires OnlySlot(s, t, k) && OnlySlot(t, u, k)
    ensures OnlySlot(s, u, k)
  {}

  lemma RearmOnly(s: State, r: nat, id: ConnId, arm: Arm)
    requires r < |s.reactors| && s.reactors[r].op == Free
    ensures OnlySlot(s, Rearm(s, r, id, arm), Slot(r, id.fd))
  {}

  lemma PutOnly(s: State, r: nat, fd: nat, c: Ctx)
    requires r < |s.reactors| && s.reactors[r].op == Free && Has(s, r, fd)
    ensures OnlySlot(s, Put(s, r, fd, c), Slot(r, fd))
  {}

  lemma SubmitOnly(s: State, r: nat, id: ConnId, uid: nat)
    requires r < |s.reactors| && s.reactors[r].op == Free
    ensures OnlySlot(s, BeginSubmit(s, r, id, uid), Slot(r, id.fd))
  {}

  lemma SameOnly(s: State, k: Slot)
    requires k.reactor < |s.reactors| && s.reactors[k.reactor].op == Free
    ensures OnlySlot(s, s, k)
  {}

  lemma DispatchOnly(s: State, r: nat, id: ConnId, parsed: Parsed)
    requires r < |s.reactors| && s.reactors[r].op == Free
    ensures OnlySlot(s, DispatchBuffered(s, r, id, parsed), Slot(r, id.fd))
  {
    hide CloseConnection, Rearm, BeginSubmit, OnlySlot;
    CloseOnly(s, r, id.fd);
    RearmOnly(s, r, id, Reading);
    if Has(s, r, id.fd) { SubmitOnly(s, r, id, Ctxt(s, r, id.fd).uid); }
    SameOnly(s, Slot(r, id.fd));
  }

  lemma ReadOnly(s: State, r: nat, id: ConnId, input: Input)
    requires r < |s.reactors| && s.reactors[r].op == Free
    ensures OnlySlot(s, HandleRead(s, r, id, input), Slot(r, id.fd))
  {
    hide CloseConnection, DispatchBuffered;
    CloseOnly(s, r, id.fd);
    if input.Bytes? { DispatchOnly(s, r, id, input.parsed); }
  }

  lemma WriteOnly(s: State, r: nat, fd: nat, out: Output, rest: Option<Parsed>)
    requires r < |s.reactors| && s.reactors[r].op == Free && Has(s, r, fd)
    ensures OnlySlot(s, WriteCurrent(s, r, fd, out, rest), Slot(r, fd))
  {
    hide Completes, SentNow, CloseConnection, DispatchBuffered, OnlySlot, Rearm;
    var c := Ctxt(s, r, fd);
    var k, id := Slot(r, fd), ConnId(fd, c.gen);
    SameOnly(s, k);
    if c.current.Some? {
      var d := if Completes(c, out) then c.(offset := 0, current := None) else c.(offset := c.offset + SentNow(c, out));
      var t := Put(s, r, fd, d);
      PutOnly(s, r, fd, d);
      CloseOnly(t, r, fd);
      OnlyTwice(s, t, CloseConnection(t, r, fd), k);
      RearmOnly(t, r, id, Writing);
      OnlyTwice(s, t, Rearm(t, r, id, Writing), k);
      RearmOnly(t, r, id, Reading);
      OnlyTwice(s, t, Rearm(t, r, id, Reading), k);
      if rest.Some? {
        RearmFree(t, r, id, Reading);
        DispatchOnly(Rearm(t, r, id, Reading), r, id, rest.value);
        OnlyTwice(s, Rearm(t, r, id, Reading), DispatchBuffered(Rearm(t, r, id, Reading), r, id, rest.value), k);
      }
    }
  }

  lemma RearmFree(s: State, r: nat, id: ConnId, arm: Arm)
    ensures Rearm(s, r, id, arm).reactors == s.reactors
  {}

  /** The connection acted on: the reactor may act on it and its epoll knows it. */
  ghost predicate Acting(s: State, r: nat, id: ConnId) {
    MayAct(s, r, id) && id.fd in s.epoll && s.epoll[id.fd].reactor == r
  }

  lemma CloseSettles(s: State, r: nat, id: ConnId)
    requires MayAct(s, r, id)
    ensures Has(CloseConnection(s, r, id.fd), r, id.fd) && LiveOk(CloseConnection(s, r, id.fd), Slot(r, id.fd))
  {
    assert CtxOk(s, Slot(r, id.fd)) && BindingOk(s, id.fd);
    assert BeingClosed(CloseConnection(s, r, id.fd), r, id.fd, Ctxt(s, r, id.fd).uid);
  }

  lemma RearmSettles(s: State, r: nat, id: ConnId)
    requires Acting(s, r, id) && Ctxt(s, r, id.fd).current.None?
    ensures Has(Rearm(s, r, id, Reading), r, id.fd) && LiveOk(Rearm(s, r, id, Reading), Slot(r, id.fd))
  {
    hide Own;
  }

  lemma SubmitSettles(s: State, r: nat, id: ConnId)
    requires Acting(s, r, id) && Ctxt(s, r, id.fd).current.None? && s.epoll[id.fd].arm != Writing
    ensures (
        var t := BeginSubmit(s, r, id, Ctxt(s, r, id.fd).uid);
        Has(t, r, id.fd) && LiveOk(t, Slot(r, id.fd)))
  {
    hide Own, Queued;
  }

  lemma DispatchSettles(s: State, r: nat, id: ConnId, parsed: Parsed)
    requires Acting(s, r, id) && Ctxt(s, r, id.fd).current.None? && s.epoll[id.fd].arm != Writing
    ensures Has(DispatchBuffered(s, r, id, parsed), r, id.fd)
    ensures LiveOk(DispatchBuffered(s, r, id, parsed), Slot(r, id.fd))
  {
    hide Own, LiveOk, Rearm, BeginSubmit;
    RearmSettles(s, r, id);
    SubmitSettles(s, r, id);
  }

  lemma ReadSettles(s: State, r: nat, id: ConnId, input: Input)
    requires Acting(s, r, id) && Ctxt(s, r, id.fd).current.None? && s.epoll[id.fd].arm == Disarmed
    ensures Has(HandleRead(s, r, id, input), r, id.fd) && LiveOk(HandleRead(s, r, id, input), Slot(r, id.fd))
  {
    hide Own, LiveOk, Rearm, BeginSubmit, CloseConnection, DispatchBuffered;
    CloseSettles(s, r, id);
    RearmSettles(s, r, id);
    SubmitSettles(s, r, id);
    if input.Bytes? { DispatchSettles(s, r, id, input.parsed); }
  }

  lemma WriteSettles(s: State, r: nat, id: ConnId, out: Output, rest: Option<Parsed>)
    requires Acting(s, r, id) && Ctxt(s, r, id.fd).current.Some?
    ensures Has(WriteCurrent(s, r, id.fd, out, rest), r, id.fd)
    ensures LiveOk(WriteCurrent(s, r, id.fd, out, rest), Slot(r, id.fd))
  {
    hide Own, Completes, SentNow, CloseConnection, DispatchBuffered;
    var c := Ctxt(s, r, id.fd);
    var d := if Completes(c, out) then c.(offset := 0, current := None) else c.(offset := c.offset + SentNow(c, out));
    var t := Put(s, r, id.fd, d);
    CurrentIsOwn(s, r, id.fd);
    PutMay(s, r, id, d);
    CloseSettles(t, r, id);
    RearmMay(t, r, id, Reading);
    if rest.Some? && Completes(c, out) { DispatchSettles(Rearm(t, r, id, Reading), r, id, rest.value); }
  }

  // ---------- Steps ----------

  /** What is armed in an idle reactor's epoll is a connection of that reactor. */
  lemma ArmedIsOwned(s: State, r: nat, id: ConnId, event: ConnectionState.Event)
    requires Inv(s) && Idle(s, r) && Armed(s, r, id, event)
    ensures Owns(s, r, id) && Announced(s, id) && Has(s, r, id.fd)
  {
    assert EpollOk(s, id.fd) && CtxOk(s, Slot(r, id.fd)) && SocketOk(s, Slot(r, id.fd));
    assert BindingOk(s, id.fd);
    SocketCompat.GenerationsRepeatAfterPeriod(s.conns[id.fd].uid, 0);
  }

  lemma DeliveredInv(s: State, r: nat, fd: nat)
    requires Inv(s) && r < |s.reactors| && fd in s.epoll && s.epoll[fd].reactor == r
    ensures Inv(Delivered(s, fd))
  {
    hide Inv;
    StepKeeps(s, Harvest(r, fd));
  }

  lemma LiveNow(s: State, r: nat, id: ConnId, event: ConnectionState.Event)
    requires Inv(s) && Lively(s) && Idle(s, r) && Armed(s, r, id, event) && Has(s, r, id.fd)
    requires !InSetup(s, Ctxt(s, r, id.fd).uid)
    ensures Ctxt(s, r, id.fd).current.Some? <==> event.Out?
  {
    hide Inv;
    assert LiveOk(s, Slot(r, id.fd));
  }

  lemma DeliveredBound(s: State, r: nat, id: ConnId)
    requires Owns(s, r, id)
    ensures BoundTo(s, id.fd, s.conns[id.fd].uid)
  {}

  lemma DeliveredMay(s: State, r: nat, id: ConnId, event: ConnectionState.Event)
    requires Inv(s) && Lively(s) && Idle(s, r) && Armed(s, r, id, event)
    ensures (
        var t := Delivered(s, id.fd);
        && Inv(t) && Acting(t, r, id) && t.epoll[id.fd].arm == Disarmed && Owns(t, r, id)
        && (Ctxt(t, r, id.fd).current.Some? <==> event.Out?))
  {
    InvParts(s);
    hide Inv, Lively, Own;
    ArmedIsOwned(s, r, id, event);
    OwnedCtx(s, r, id);
    DeliveredBound(s, r, id);
    LiveNow(s, r, id, event);
    DeliveredInv(s, r, id.fd);
  }

  lemma DeliveredOthers(s: State, k: Slot)
    requires Lively(s) && Contexts(s) && Sockets(s) && k.fd in s.epoll && k in s.ctxs && k.reactor < |s.reactors|
    requires s.reactors[k.reactor].op == Free
    ensures forall l :: l in s.ctxs && l != k ==> LiveOk(Delivered(s, k.fd), l)
  {
    hide LiveOk;
    var t := Delivered(s, k.fd);
    forall l | l in s.ctxs && l != k ensures LiveOk(t, l) {
      OneSlot(s, k.reactor, k.fd, l);
      OtherStaysLive(s, t, k, l);
    }
  }

  lemma EventKeepsInv(s: State, r: nat, id: ConnId, event: ConnectionState.Event)
    requires Inv(s) && Lively(s) && Undisturbed(s, Event(r, id, event))
    ensures Inv(Next(s, Event(r, id, event)))
  {
    hide Inv, Lively, HandleStep;
    DeliveredInv(s, r, id.fd);
    ArmedIsOwned(s, r, id, event);
    StepKeeps(Delivered(s, id.fd), Handle(r, id, event));
  }

  lemma EventKeepsLively(s: State, r: nat, id: ConnId, event: ConnectionState.Event)
    requires Inv(s) && Lively(s) && Undisturbed(s, Event(r, id, event))
    ensures Lively(Next(s, Event(r, id, event)))
  {
    var t, k := Delivered(s, id.fd), Slot(r, id.fd);
    DeliveredMay(s, r, id, event);
    DeliveredOthers(s, k);
    InvTables(t);
    hide Inv, Own, Lively, HandleRead, WriteCurrent, OnlySlot, LiveOk, Contexts, Sockets;
    if event.In? {
      ReadSettles(t, r, id, event.input);
      ReadOnly(t, r, id, event.input);
      OthersStayLive(t, HandleRead(t, r, id, event.input), k);
    } else {
      WriteSettles(t, r, id, event.output, event.rest);
      WriteOnly(t, r, id.fd, event.output, event.rest);
      OthersStayLive(t, WriteCurrent(t, r, id.fd, event.output, event.rest), k);
    }
  }

  lemma InvTables(s: State)
    requires Inv(s)
    ensures Contexts(s) && Sockets(s)
  {}

  // ---------- The other steps ----------

  /** t leaves as it is everything that LiveOk says of l. */
  ghost predicate Spares(s: State, t: State, l: Slot)
    requires l in s.ctxs
  {
    && l in t.ctxs && t.ctxs[l].(inFlight := 0) == s.ctxs[l].(inFlight := 0)
    && (l.fd in s.epoll ==> l.fd in t.epoll && t.epoll[l.fd] == s.epoll[l.fd])
    && (InSetup(t, s.ctxs[l].uid) <==> InSetup(s, s.ctxs[l].uid))
    && (BeingClosed(s, l.reactor, l.fd, s.ctxs[l].uid) ==> BeingClosed(t, l.reactor, l.fd, s.ctxs[l].uid))
    && (Awaited(s, l) ==> Awaited(t, l))
  }

  lemma SparedStays(s: State, t: State, l: Slot)
    requires l in s.ctxs && Spares(s, t, l) && LiveOk(s, l)
    ensures LiveOk(t, l)
  {
    hide Awaited, BeingClosed;
  }

  /** What the accepting thread is setting up is not yet in any other reactor's or task's hands. */
  lemma SameUidSameSlot(s: State, k: Slot, l: Slot)
    requires Contexts(s) && k in s.ctxs && l in s.ctxs && s.ctxs[k].uid == s.ctxs[l].uid
    ensures k == l
  {
    assert CtxOk(s, k) && CtxOk(s, l);
  }

  lemma AcceptSpares(s: State, fd: nat, l: Slot)
    requires Inv(s) && Enabled(s, Accept(fd)) && l in s.ctxs
    ensures Spares(s, AcceptStep(s, fd), l)
  {
    assert CtxOk(s, l);
    hide Inv;
    var t := AcceptStep(s, fd);
    if l.reactor < |s.reactors| { assert Line(t, l.reactor) == Line(s, l.reactor); }
  }

  /** Dropping what is pending for one descriptor leaves the others' responses queued. */
  lemma DropKeepsQueued(s: State, r: nat, fd: nat, l: Slot)
    requires Inv(s) && r < |s.reactors| && l in s.ctxs && l.fd != fd && Queued(s, l.reactor, s.ctxs[l].uid)
    ensures Queued(DropPending(s, r, fd), l.reactor, s.ctxs[l].uid)
  {
    assert QueuesOk(s, l.reactor) && CtxOk(s, l);
    hide Inv;
    var t := DropPending(s, r, fd);
    var p :| p in Line(s, l.reactor) && p.response.uid == s.ctxs[l].uid;
    assert Known(s, l.reactor, p);
    assert p in Line(t, l.reactor);
  }

  lemma ClearQueued(s: State, l: Slot)
    requires Inv(s) && Enabled(s, ClearStale) && l in s.ctxs && Queued(s, l.reactor, s.ctxs[l].uid)
    ensures Queued(SetupStep(s, ClearStale), l.reactor, s.ctxs[l].uid)
  {
    OnlyOwnSlot(s, l);
    DropKeepsQueued(s, s.acceptor.reactor, s.acceptor.fd, l);
    hide Inv;
    var p :| p in Line(DropPending(s, s.acceptor.reactor, s.acceptor.fd), l.reactor) && p.response.uid == s.ctxs[l].uid;
    assert p in Line(SetupStep(s, ClearStale), l.reactor);
  }

  lemma SameSpares(s: State, t: State, l: Slot)
    requires l in s.ctxs && t.ctxs == s.ctxs && t.epoll == s.epoll && t.tasks == s.tasks && |t.reactors| == |s.reactors|
    requires l.reactor < |s.reactors| ==> t.reactors[l.reactor].op == s.reactors[l.reactor].op
    requires forall uid :: InSetup(t, uid) <==> InSetup(s, uid)
    requires Queued(s, l.reactor, s.ctxs[l].uid) ==> Queued(t, l.reactor, s.ctxs[l].uid)
    ensures Spares(s, t, l)
  {
    hide Queued;
  }

  lemma ClearSpares(s: State, l: Slot)
    requires Inv(s) && Enabled(s, ClearStale) && l in s.ctxs
    ensures Spares(s, SetupStep(s, ClearStale), l)
  {
    if Queued(s, l.reactor, s.ctxs[l].uid) { ClearQueued(s, l); }
    hide Inv, Queued, Spares;
    SameSpares(s, SetupStep(s, ClearStale), l);
  }

  lemma SetupSpares(s: State, a: Action, l: Slot)
    requires Inv(s) && (a == Register || a == Insert) && Enabled(s, a) && l in s.ctxs
    ensures Spares(s, SetupStep(s, a), l)
  {
    hide Kernel, Tables, Sockets, Closers, Bindings, Contexts, Interests, Ops, Queues, Tasks;
    var t := SetupStep(s, a);
    if l.reactor < |s.reactors| { assert Line(t, l.reactor) == Line(s, l.reactor); }
  }

  /** While a descriptor is being added, it and its connection are no other context's. */
  lemma AddedSlot(s: State, l: Slot)
    requires Inv(s) && Enabled(s, AddToEpoll(true)) && l in s.ctxs
    ensures l == Slot(s.acceptor.reactor, s.acceptor.fd) <==> s.ctxs[l].uid == s.acceptor.uid
    ensures l.fd == s.acceptor.fd ==> l == Slot(s.acceptor.reactor, s.acceptor.fd)
  {
    assert CtxOk(s, l) && SocketOk(s, l) && SetupOk(s) && Enrolled(s);
    hide Inv;
  }

  lemma AddedLive(s: State, l: Slot)
    requires Inv(s) && Enabled(s, AddToEpoll(true)) && l in s.ctxs && LiveOk(s, l)
    ensures LiveOk(SetupStep(s, AddToEpoll(true)), l)
  {
    AddedSlot(s, l);
    hide Inv;
    var t := SetupStep(s, AddToEpoll(true));
    if l.reactor < |s.reactors| { assert Line(t, l.reactor) == Line(s, l.reactor); }
  }

  lemma KeptSpares(s: State, t: State, l: Slot)
    requires l in s.ctxs && l in t.ctxs && t.ctxs[l] == s.ctxs[l] && t.tasks == s.tasks && |t.reactors| == |s.reactors|
    requires l.fd in s.epoll ==> l.fd in t.epoll && t.epoll[l.fd] == s.epoll[l.fd]
    requires l.reactor < |s.reactors| ==>
               var op := s.reactors[l.reactor].op;
               t.reactors[l.reactor].op == op || (op.Closing? && op.fd != l.fd)
    requires InSetup(t, s.ctxs[l].uid) <==> InSetup(s, s.ctxs[l].uid)
    requires Queued(s, l.reactor, s.ctxs[l].uid) ==> Queued(t, l.reactor, s.ctxs[l].uid)
    ensures Spares(s, t, l)
  {
    hide Queued;
  }

  lemma GoneSpares(s: State, t: State, r: nat, fd: nat, uid: nat, l: Slot)
    requires Gone(s, t, r, fd, uid) && Contexts(s) && Sockets(s) && l in t.ctxs
    requires InSetup(t, s.ctxs[l].uid) <==> InSetup(s, s.ctxs[l].uid)
    requires Queued(s, l.reactor, s.ctxs[l].uid) ==> Queued(t, l.reactor, s.ctxs[l].uid)
    ensures Spares(s, t, l)
  {
    GoneCtx(s, t, r, fd, uid, l);
    hide Contexts, Sockets, Queued, IsOpen, CtxOf, BoundTo, Spares, InSetup;
    if l.reactor < |s.reactors| { assert LetGo(s.reactors[l.reactor], t.reactors[l.reactor], l.reactor, fd); }
    KeptSpares(s, t, l);
  }

  lemma RollbackQueued(s: State, r: nat, uid: nat)
    requires Enabled(s, AddToEpoll(false))
    ensures Queued(SetupStep(s, AddToEpoll(false)), r, uid) <==> Queued(s, r, uid)
  {
    if r < |s.reactors| { assert Line(SetupStep(s, AddToEpoll(false)), r) == Line(s, r); }
  }

  lemma RollbackSpares(s: State, l: Slot)
    requires Inv(s) && Enabled(s, AddToEpoll(false)) && Intact(s, AddToEpoll(false))
    requires l in SetupStep(s, AddToEpoll(false)).ctxs
    ensures l in s.ctxs && Spares(s, SetupStep(s, AddToEpoll(false)), l)
  {
    var a := s.acceptor;
    SetupHolds(s);
    SameUidSameSlotAs(s, l);
    RollbackGone(s);
    RollbackQueued(s, l.reactor, s.ctxs[l].uid);
    hide Queued, Spares;
    GoneSpares(s, SetupStep(s, AddToEpoll(false)), a.reactor, a.fd, a.uid, l);
  }

  lemma SameUidSameSlotAs(s: State, l: Slot)
    requires Inv(s) && AtStage(s, Inserted) && CtxOf(s, s.acceptor.reactor, s.acceptor.fd, s.acceptor.uid)
    requires l in s.ctxs
    ensures InSetup(s, s.ctxs[l].uid) ==> l == Slot(s.acceptor.reactor, s.acceptor.fd)
  {
    if InSetup(s, s.ctxs[l].uid) { SameUidSameSlot(s, l, Slot(s.acceptor.reactor, s.acceptor.fd)); }
  }

  lemma CloseSpares(s: State, r: nat, id: ConnId, l: Slot)
    requires r < |s.reactors| && s.reactors[r].op == Free && l in s.ctxs
    ensures Spares(s, BeginClose(s, r, id), l)
  {
    var t := BeginClose(s, r, id);
    if l.reactor < |s.reactors| { assert Line(t, l.reactor) == Line(s, l.reactor); }
  }

  /** A reactor that neither leaves nor enters handleWake. */
  lemma TodoSpares(s: State, r: nat, todo: Todo, l: Slot)
    requires r < |s.reactors| && l in s.ctxs
    requires s.reactors[r].todo == Wake([]) || !s.reactors[r].todo.Wake?
    requires !todo.Wake?
    ensures Spares(s, WithTodo(s, r, todo), l)
  {
    var t := WithTodo(s, r, todo);
    if l.reactor < |s.reactors| { assert Line(t, l.reactor) == Line(s, l.reactor); }
  }

  lemma TakeSpares(s: State, r: nat, l: Slot)
    requires Enabled(s, TakePending(r)) && l in s.ctxs
    ensures Spares(s, Step(s, TakePending(r)), l)
  {
    var t := Step(s, TakePending(r));
    if l.reactor < |s.reactors| { assert Line(t, l.reactor) == Line(s, l.reactor); }
  }

  lemma SubmitSpares(s: State, r: nat, l: Slot)
    requires Enabled(s, Submit(r, true)) && l in s.ctxs
    ensures Spares(s, SubmitStep(s, r, true), l)
  {
    var t := SubmitStep(s, r, true);
    if l.reactor < |s.reactors| { assert Line(t, l.reactor) == Line(s, l.reactor); }
  }

  /** Finishing a close drops what is pending for its descriptor and nothing else. */
  lemma FinishLine(s: State, r: nat, q: nat)
    requires Enabled(s, FinishClose(r)) && s.reactors[r].op.owner == r && q < |s.reactors|
    ensures FinishCloseStep(s, r).acceptor == s.acceptor && |FinishCloseStep(s, r).reactors| == |s.reactors|
    ensures Line(FinishCloseStep(s, r), q) == Line(DropPending(s, r, s.reactors[r].op.fd), q)
  {}

  lemma FinishQueued(s: State, r: nat, l: Slot)
    requires Inv(s) && Enabled(s, FinishClose(r)) && l in s.ctxs && l.fd != s.reactors[r].op.fd
    requires Queued(s, l.reactor, s.ctxs[l].uid)
    ensures Queued(FinishCloseStep(s, r), l.reactor, s.ctxs[l].uid)
  {
    InvParts(s);
    CloserHolds(s, r);
    DropKeepsQueued(s, r, s.reactors[r].op.fd, l);
    hide Inv, Own, Wired, FinishCloseStep, DropPending, Line;
    FinishLine(s, r, l.reactor);
  }

  lemma GoneCtx(s: State, t: State, r: nat, fd: nat, uid: nat, l: Slot)
    requires Gone(s, t, r, fd, uid) && Contexts(s) && Sockets(s) && l in t.ctxs
    ensures l in s.ctxs && l.fd != fd
  {
    hide Contexts, Sockets;
    OneSlot(s, r, fd, l);
  }

  lemma FinishedGone(s: State, t: State, r: nat)
    requires Inv(s) && Enabled(s, FinishClose(r)) && t == FinishCloseStep(s, r)
    ensures Gone(s, t, r, s.reactors[r].op.fd, s.reactors[r].op.uid) && Contexts(s) && Sockets(s)
    ensures forall uid :: InSetup(t, uid) <==> InSetup(s, uid)
  {
    InvParts(s);
    InvTables(s);
    hide Gone, FinishCloseStep, Inv, Contexts, Sockets, Own, Wired, Line, DropPending, InSetup;
    CloserHolds(s, r);
    FinishCloseGone(s, r);
    FinishLine(s, r, r);
    SameAcceptor(s, t);
  }

  lemma FinishLively(s: State, t: State, r: nat)
    requires Inv(s) && Lively(s) && Enabled(s, FinishClose(r)) && t == FinishCloseStep(s, r)
    ensures Lively(t)
  {
    var fd, uid := s.reactors[r].op.fd, s.reactors[r].op.uid;
    FinishedGone(s, t, r);
    hide Inv, Lively, Gone, Contexts, Sockets, Spares, Queued, FinishCloseStep;
    forall l | l in t.ctxs ensures l in s.ctxs && Spares(s, t, l) {
      GoneCtx(s, t, r, fd, uid, l);
      if Queued(s, l.reactor, s.ctxs[l].uid) { FinishQueued(s, r, l); }
      GoneSpares(s, t, r, fd, uid, l);
    }
    AllSpared(s, t);
  }

  lemma SameAcceptor(s: State, t: State)
    requires t.acceptor == s.acceptor
    ensures forall uid :: InSetup(t, uid) <==> InSetup(s, uid)
  {}

  lemma ExecuteSpares(s: State, x: Task, data: string, keepAlive: bool, l: Slot)
    requires Enabled(s, Execute(x, data, keepAlive, true)) && l in s.ctxs
    ensures Spares(s, ExecuteStep(s, x, data, keepAlive, true), l)
  {
    var t := ExecuteStep(s, x, data, keepAlive, true);
    var p := Pending(x.id, Response(data, x.uid), keepAlive);
    assert p in Line(t, x.reactor);
    if Queued(s, l.reactor, s.ctxs[l].uid) {
      var q :| q in Line(s, l.reactor) && q.response.uid == s.ctxs[l].uid;
      assert q in Line(t, l.reactor);
    }
  }

  lemma LeaveSpares(s: State, x: Task, l: Slot)
    requires Enabled(s, Leave(x)) && l in s.ctxs
    ensures Spares(s, Step(s, Leave(x)), l)
  {
    var t := Step(s, Leave(x));
    if l.reactor < |s.reactors| { assert Line(t, l.reactor) == Line(s, l.reactor); }
  }

  // handleWake.

  /** One posted response less: only its own connection can miss it. */
  lemma ItemTaken(s: State, r: nat, l: Slot)
    requires r < |s.reactors| && s.reactors[r].todo.Wake? && s.reactors[r].todo.items != [] && l in s.ctxs
    requires l.reactor == r ==> s.reactors[r].todo.items[0].response.uid != s.ctxs[l].uid
    ensures Spares(s, WithTodo(s, r, Wake(s.reactors[r].todo.items[1..])), l)
  {
    var t := WithTodo(s, r, Wake(s.reactors[r].todo.items[1..]));
    if Queued(s, l.reactor, s.ctxs[l].uid) {
      var p :| p in Line(s, l.reactor) && p.response.uid == s.ctxs[l].uid;
      if l.reactor == r {
        assert s.reactors[r].todo.items == [s.reactors[r].todo.items[0]] + s.reactors[r].todo.items[1..];
        assert p in Line(t, r);
      } else {
        assert p in Line(t, l.reactor);
      }
    }
  }

  lemma Delivers(s: State, r: nat, p: Pending)
    requires Inv(s) && r < |s.reactors| && s.reactors[r].op == Free && s.reactors[r].todo.Wake? && Known(s, r, p)
    ensures Owns(s, r, p.id) <==> CtxOf(s, r, p.id.fd, p.response.uid)
    ensures Owns(s, r, p.id) ==> MayAct(s, r, p.id)
    ensures forall l :: l in s.ctxs && s.ctxs[l].uid == p.response.uid ==> l == Slot(r, p.id.fd)
  {
    forall l | l in s.ctxs && s.ctxs[l].uid == p.response.uid ensures l == Slot(r, p.id.fd) { assert CtxOk(s, l); }
    SocketCompat.GenerationsRepeatAfterPeriod(p.response.uid, p.response.uid);
    if Owns(s, r, p.id) {
      CloseTarget(s, r, p.id, p.response.uid);
      assert CtxOk(s, Slot(r, p.id.fd));
    }
    if CtxOf(s, r, p.id.fd, p.response.uid) {
      assert CtxOk(s, Slot(r, p.id.fd)) && SocketOk(s, Slot(r, p.id.fd)) && BindingOk(s, p.id.fd);
    }
  }

  lemma DeliverOne(s: State, r: nat, p: Pending, out: Output, rest: Option<Parsed>)
    requires Inv(s) && r < |s.reactors| && s.reactors[r].op == Free && s.reactors[r].todo.Wake? && Known(s, r, p)
    requires Owns(s, r, p.id) ==> p.id.fd in s.epoll && s.epoll[p.id.fd].reactor == r
    requires forall l :: l in s.ctxs && l != Slot(r, p.id.fd) ==> LiveOk(s, l)
    ensures Owns(s, r, p.id) ==> Lively(Deliver(s, r, p, out, rest))
  {
    var k := Slot(r, p.id.fd);
    Delivers(s, r, p);
    hide Inv, LiveOk, OnlySlot, WriteCurrent, MayAct, Contexts, Sockets;
    if Owns(s, r, p.id) {
      assert Has(s, r, p.id.fd) && Ctxt(s, r, p.id.fd).gen == p.id.gen && Ctxt(s, r, p.id.fd).uid == p.response.uid by {
        hide *;
        ActsOn(s, r, p);
      }
      var d := Ctxt(s, r, p.id.fd).(current := Some(p.response), keepAlive := p.keepAlive, offset := 0);
      var v := Put(s, r, p.id.fd, d);
      PutMay(s, r, p.id, d);
      WriteSettles(v, r, p.id, out, rest);
      ActsOn(s, r, p);
      PutOnly(s, r, p.id.fd, d);
      WriteOnly(v, r, p.id.fd, out, rest);
      OnlyTwice(s, v, WriteCurrent(v, r, p.id.fd, out, rest), k);
      InvTables(s);
      OthersStayLive(s, WriteCurrent(v, r, p.id.fd, out, rest), k);
    }
  }

  lemma ActsOn(s: State, r: nat, p: Pending)
    requires MayAct(s, r, p.id) && CtxOf(s, r, p.id.fd, p.response.uid)
    ensures Has(s, r, p.id.fd) && Ctxt(s, r, p.id.fd).gen == p.id.gen && Ctxt(s, r, p.id.fd).uid == p.response.uid
    ensures Contexts(s)
  {}

  lemma DeliverLively(s: State, r: nat, out: Output, rest: Option<Parsed>)
    requires Inv(s) && Lively(s) && Enabled(s, DeliverNext(r, out, rest)) && s.reactors[r].todo.items != []
    ensures Lively(DeliverStep(s, r, out, rest))
  {
    var p, u := s.reactors[r].todo.items[0], WithTodo(s, r, Wake(s.reactors[r].todo.items[1..]));
    var k := Slot(r, p.id.fd);
    assert QueuesOk(s, r) && p in s.reactors[r].todo.items && Known(s, r, p);
    TodoOwn(s, r, s.reactors[r].(todo := Wake(s.reactors[r].todo.items[1..])));
    TodoWired(s, r, s.reactors[r].(todo := Wake(s.reactors[r].todo.items[1..])));
    Delivers(s, r, p);
    if Owns(s, r, p.id) { KnownToEpoll(s, r, p.id); }
    hide Inv, LiveOk, Spares, Deliver;
    forall l | l in s.ctxs && (l != k || !Owns(s, r, p.id)) ensures LiveOk(u, l) {
      ItemTaken(s, r, l);
      SparedStays(s, u, l);
    }
    DeliverOne(u, r, p, out, rest);
    if !Owns(u, r, p.id) { NotOwned(u, r, p, out, rest); }
  }

  lemma NotOwned(s: State, r: nat, p: Pending, out: Output, rest: Option<Parsed>)
    requires r < |s.reactors| && !Owns(s, r, p.id)
    ensures Deliver(s, r, p, out, rest) == s
  {}

  /** A connection its idle reactor may act on has been added to epoll. */
  lemma KnownToEpoll(s: State, r: nat, id: ConnId)
    requires MayAct(s, r, id) && Lively(s)
    ensures Acting(s, r, id)
  {
    assert LiveOk(s, Slot(r, id.fd));
  }

  // Every undisturbed step.

  lemma AllSpared(s: State, t: State)
    requires Lively(s) && forall l :: l in t.ctxs ==> l in s.ctxs && Spares(s, t, l)
    ensures Lively(t)
  {
    hide Spares, LiveOk;
    forall l | l in t.ctxs ensures LiveOk(t, l) { SparedStays(s, t, l); }
  }

  lemma SetupLively(s: State, a: Action)
    requires Inv(s) && Lively(s) && Enabled(s, a) && Intact(s, a) && (SetupAction(a) || a == AddToEpoll(false))
    ensures Lively(SetupStep(s, a))
  {
    hide Inv, Spares, Intact;
    var t := SetupStep(s, a);
    match a
    case ClearStale => forall l | l in t.ctxs ensures Spares(s, t, l) { ClearSpares(s, l); } AllSpared(s, t);
    case Register => forall l | l in t.ctxs ensures Spares(s, t, l) { SetupSpares(s, a, l); } AllSpared(s, t);
    case Insert =>
      forall l | l in t.ctxs ensures LiveOk(t, l) {
        if l in s.ctxs { SetupSpares(s, a, l); SparedStays(s, t, l); } else { assert InSetup(t, t.ctxs[l].uid); }
      }
    case AddToEpoll(ok) =>
      if ok {
        forall l | l in t.ctxs ensures LiveOk(t, l) { AddedLive(s, l); }
      } else {
        forall l | l in t.ctxs ensures l in s.ctxs && Spares(s, t, l) { RollbackSpares(s, l); }
        AllSpared(s, t);
      }
  }

  lemma TodoLively(s: State, r: nat, todo: Todo)
    requires Lively(s) && r < |s.reactors| && !todo.Wake? && (s.reactors[r].todo == Wake([]) || !s.reactors[r].todo.Wake?)
    ensures Lively(WithTodo(s, r, todo))
  {
    hide Spares;
    var t := WithTodo(s, r, todo);
    forall l | l in t.ctxs ensures l in s.ctxs && Spares(s, t, l) { TodoSpares(s, r, todo, l); }
    AllSpared(s, t);
  }

  lemma CloseLively(s: State, r: nat, id: ConnId)
    requires Lively(s) && r < |s.reactors| && s.reactors[r].op == Free
    ensures Lively(BeginClose(s, r, id))
  {
    hide Spares;
    var t := BeginClose(s, r, id);
    forall l | l in t.ctxs ensures l in s.ctxs && Spares(s, t, l) { CloseSpares(s, r, id, l); }
    AllSpared(s, t);
  }

  lemma LoopLively(s: State, a: Action)
    requires Inv(s) && Lively(s) && Enabled(s, a)
    requires a.CheckHangup? || a.TakePending? || a.DeliverNext? || a.CollectIdle? || a.SweepNext?
    ensures Lively(Step(s, a))
  {
    hide Inv, Lively, BeginClose, Deliver, Spares;
    var r := a.r;
    match a
    case CheckHangup(_) =>
      var t := WithTodo(s, r, Nothing);
      TodoLively(s, r, Nothing);
      if Has(s, r, s.reactors[r].todo.fd) {
        CloseLively(t, r, ConnId(s.reactors[r].todo.fd, Ctxt(s, r, s.reactors[r].todo.fd).gen));
      }
    case TakePending(_) =>
      var t := Step(s, a);
      forall l | l in t.ctxs ensures l in s.ctxs && Spares(s, t, l) { TakeSpares(s, r, l); }
      AllSpared(s, t);
    case DeliverNext(_, out, rest) =>
      if s.reactors[r].todo.items == [] { TodoLively(s, r, Nothing); } else { DeliverLively(s, r, out, rest); }
    case CollectIdle(_, ids) => TodoLively(s, r, Sweep(ids));
    case SweepNext(_) =>
      var ids := s.reactors[r].todo.ids;
      if ids == [] {
        TodoLively(s, r, Nothing);
      } else {
        TodoLively(s, r, Sweep(ids[1..]));
        CloseLively(WithTodo(s, r, Sweep(ids[1..])), r, ids[0]);
      }
  }

  lemma TaskLively(s: State, a: Action)
    requires Inv(s) && Lively(s) && Undisturbed(s, Base(a)) && (a.Accept? || a.Submit? || a.FinishClose? || a.Execute? || a.Leave?)
    ensures Lively(Step(s, a))
  {
    hide Inv, Lively, Spares, AcceptStep, SubmitStep, FinishCloseStep, ExecuteStep, MarkInFlight;
    var t := Step(s, a);
    match a
    case Accept(fd) => forall l | l in s.ctxs ensures Spares(s, t, l) { AcceptSpares(s, fd, l); } AcceptCtxs(s, fd); AllSpared(s, t);
    case Submit(r, ok) => forall l | l in s.ctxs ensures Spares(s, t, l) { SubmitSpares(s, r, l); } SubmitOldCtxs(s, r); AllSpared(s, t);
    case FinishClose(r) => FinishLively(s, t, r);
    case Execute(x, data, keepAlive, posts) =>
      forall l | l in s.ctxs ensures Spares(s, t, l) { ExecuteSpares(s, x, data, keepAlive, l); }
      ExecuteCtxs(s, x, data, keepAlive);
      AllSpared(s, t);
    case Leave(x) => forall l | l in s.ctxs ensures Spares(s, t, l) { LeaveSpares(s, x, l); } LeaveCtxs(s, x); AllSpared(s, t);
  }

  lemma AcceptCtxs(s: State, fd: nat)
    requires Enabled(s, Accept(fd))
    ensures AcceptStep(s, fd).ctxs == s.ctxs
  {}

  lemma SubmitOldCtxs(s: State, r: nat)
    requires Enabled(s, Submit(r, true))
    ensures SubmitStep(s, r, true).ctxs == s.ctxs
  {}

  lemma ExecuteCtxs(s: State, x: Task, data: string, keepAlive: bool)
    requires Enabled(s, Execute(x, data, keepAlive, true))
    ensures ExecuteStep(s, x, data, keepAlive, true).ctxs == s.ctxs
  {}

  lemma LeaveCtxs(s: State, x: Task)
    requires Enabled(s, Leave(x))
    ensures Step(s, Leave(x)).ctxs.Keys == s.ctxs.Keys
  {}

  lemma NextKeepsLively(s: State, m: Move)
    requires Inv(s) && Lively(s) && Undisturbed(s, m)
    ensures Inv(Next(s, m)) && Lively(Next(s, m))
  {
    hide Inv, Lively, Enabled, Intact, HandleStep, SetupStep, AcceptStep, DeliverStep, SweepStep, CheckHangupStep;
    hide SubmitStep, FinishCloseStep, ExecuteStep, MarkInFlight, Armed, Idle;
    match m
    case Event(r, id, event) =>
      EventKeepsLively(s, r, id, event);
      EventKeepsInv(s, r, id, event);
    case Base(a) =>
      StepKeeps(s, a);
      if a.Accept? || a.Submit? || a.FinishClose? || a.Execute? || a.Leave? {
        TaskLively(s, a);
      } else if a.CheckHangup? || a.TakePending? || a.DeliverNext? || a.CollectIdle? || a.SweepNext? {
        LoopLively(s, a);
      } else {
        SetupLively(s, a);
      }
  }

  lemma {:induction false} RunIsLively(n: nat, run: seq<Move>, s: State)
    requires Go(n, run) == Some(s)
    ensures Inv(s) && Lively(s)
  {
    hide Inv, Lively, Undisturbed, Next;
    if run == [] {
      InitialInv(n);
      assert Lively(s) by { InitialLively(n); }
    } else {
      RunIsLively(n, run[..|run| - 1], Go(n, run[..|run| - 1]).value);
      NextKeepsLively(Go(n, run[..|run| - 1]).value, run[|run| - 1]);
    }
  }

  lemma InitialLively(n: nat)
    ensures Lively(Initial(n))
  {}

  // ---------- Results ----------

  /** A connection of the server that nobody is setting up or closing. */
  predicate Live(s: State, r: nat, fd: nat) {
    Has(s, r, fd) && !InSetup(s, Ctxt(s, r, fd).uid) && !BeingClosed(s, r, fd, Ctxt(s, r, fd).uid)
  }

  /** In an undisturbed run no connection is stranded: each is read-armed or write-armed, or
      a request of its is being submitted, queued or running, or its response is queued. */
  lemma {:induction false} NoConnectionStranded(n: nat, run: seq<Move>, s: State, r: nat, fd: nat)
    requires Go(n, run) == Some(s) && Live(s, r, fd)
    ensures fd in s.epoll && s.epoll[fd].reactor == r
    ensures s.epoll[fd].arm == Reading || s.epoll[fd].arm == Writing || Awaited(s, Slot(r, fd))
  {
    RunIsLively(n, run, s);
    assert LiveOk(s, Slot(r, fd));
  }

  /** It is write-armed exactly while it has a response to send. */
  lemma {:induction false} WriteArmedIffSending(n: nat, run: seq<Move>, s: State, r: nat, fd: nat)
    requires Go(n, run) == Some(s) && Live(s, r, fd)
    ensures fd in s.epoll && (Ctxt(s, r, fd).current.Some? <==> s.epoll[fd].arm == Writing)
  {
    RunIsLively(n, run, s);
    assert LiveOk(s, Slot(r, fd));
  }

  /** So each event meets the branch it is meant for: a writable connection has a response
      (handleWrite's repair is dead code), a readable one has none (so is the gate of
      dispatchBufferedRequests), and both still have their context. */
  lemma EventMeetsItsBranch(n: nat, run: seq<Move>, s: State, r: nat, id: ConnId, event: ConnectionState.Event)
    requires Go(n, run) == Some(s) && Undisturbed(s, Event(r, id, event))
    ensures Owns(s, r, id) && Has(s, r, id.fd) && (Ctxt(s, r, id.fd).current.Some? <==> event.Out?)
  {
    RunIsLively(n, run, s);
    ArmedIsOwned(s, r, id, event);
    DeliveredMay(s, r, id, event);
  }
}
