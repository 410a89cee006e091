/** The whole invariant of the connection protocol: besides the ownership, that tables,
    contexts, epoll and sockets agree. It is kept as long as a rollback of the accepting
    thread finds its own registration. */
module ConnectionInvariant {
  import opened Text
  import opened ConnectionState
  import opened ConnectionOwnership

  // ---------- The invariant ----------

  predicate IsOpen(s: State, fd: nat, uid: nat) { fd in s.open && s.open[fd] == uid }

  predicate BeingClosed(s: State, r: nat, fd: nat, uid: nat) {
    r < |s.reactors| && s.reactors[r].op == Closing(fd, r, uid)
  }

  /** Every accepted connection is either open or has been closed exactly once. */
  predicate Kernel(s: State) {
    && s.stray == 0
    && (forall u :: 0 <= u < |s.peers| ==> s.closes[u] == if IsOpen(s, s.peers[u].fd, u) then 0 else 1)
    && (forall u :: u !in s.closes || 0 <= u < |s.peers|)
    && (forall fd :: fd in s.open ==> s.open[fd] < |s.peers| && s.peers[s.open[fd]].fd == fd)
  }

  /** A context being inserted may be swept at once; then the descriptor is gone. */
  predicate SetupOk(s: State) {
    s.acceptor.Setup? ==>
      var a := s.acceptor;
      && a.fd !in s.epoll
      && (a.stage == Opened || a.stage == Cleared ==> !Bound(s, a.fd))
      && (a.stage == Registered ==> BoundTo(s, a.fd, a.uid))
      && (a.stage != Inserted ==> IsOpen(s, a.fd, a.uid) && !Has(s, a.reactor, a.fd))
      && (a.stage == Inserted && a.fd in s.open ==> IsOpen(s, a.fd, a.uid) && CtxOf(s, a.reactor, a.fd, a.uid))
  }

  predicate TableOk(s: State, fd: nat)
    requires fd in s.conns
  {
    var b := s.conns[fd];
    b.context ==>
      && 0 <= b.owner && IsOpen(s, fd, b.uid)
      && (CtxOf(s, b.owner, fd, b.uid) || (AtStage(s, Registered) && s.acceptor.fd == fd))
  }

  predicate SocketOk(s: State, k: Slot)
    requires k in s.ctxs
  {
    var c := s.ctxs[k];
    IsOpen(s, k.fd, c.uid) && (BoundTo(s, k.fd, c.uid) || BeingClosed(s, k.reactor, k.fd, c.uid))
  }

  predicate EpollOk(s: State, fd: nat)
    requires fd in s.epoll
  {
    var reg := s.epoll[fd];
    Has(s, reg.reactor, fd) && Ctxt(s, reg.reactor, fd).gen == reg.gen
  }

  predicate CloserOk(s: State, r: nat)
    requires r < |s.reactors|
  {
    var op := s.reactors[r].op;
    op.Closing? ==> op.owner == r && CtxOf(s, r, op.fd, op.uid) && !BoundTo(s, op.fd, op.uid)
  }

  predicate Tables(s: State) { forall fd :: fd in s.conns ==> TableOk(s, fd) }
  predicate Sockets(s: State) { forall k :: k in s.ctxs ==> SocketOk(s, k) }
  predicate Interests(s: State) { forall fd :: fd in s.epoll ==> EpollOk(s, fd) }
  predicate Closers(s: State) { forall r :: 0 <= r < |s.reactors| ==> CloserOk(s, r) }

  predicate Wired(s: State) { Kernel(s) && SetupOk(s) && Tables(s) && Sockets(s) && Interests(s) && Closers(s) }

  ghost predicate Inv(s: State) { Own(s) && Wired(s) }

  /** A descriptor has one context at most. */
  lemma OneSlot(s: State, r: nat, fd: nat, k: Slot)
    requires Contexts(s) && Sockets(s) && Has(s, r, fd) && k in s.ctxs
    ensures k.fd == fd ==> k == Slot(r, fd)
  {
    assert SocketOk(s, k) && SocketOk(s, Slot(r, fd)) && CtxOk(s, k) && CtxOk(s, Slot(r, fd));
  }

  lemma OnlyOwnSlot(s: State, k: Slot)
    requires SetupOk(s) && Enrolled(s) && Contexts(s) && Sockets(s) && k in s.ctxs
    ensures s.acceptor.Setup? && k.fd == s.acceptor.fd ==> AtStage(s, Inserted)
  {
    assert SocketOk(s, k) && CtxOk(s, k);
  }

  // ---------- What the wiring does not notice ----------

  predicate SameClosing(o: Op, p: Op) { p == o || (!o.Closing? && !p.Closing?) }

  /** Counters, what is being sent, arming, queues and tasks. */
  ghost predicate Calm(s: State, t: State) {
    && t.conns == s.conns && t.open == s.open && t.acceptor == s.acceptor
    && t.peers == s.peers && t.closes == s.closes && t.stray == s.stray && |t.reactors| == |s.reactors|
    && (forall k :: k in t.ctxs <==> k in s.ctxs) && (forall fd :: fd in t.epoll <==> fd in s.epoll)
    && (forall k :: k in s.ctxs ==> t.ctxs[k].gen == s.ctxs[k].gen && t.ctxs[k].uid == s.ctxs[k].uid)
    && (forall fd :: fd in s.epoll ==> t.epoll[fd].reactor == s.epoll[fd].reactor && t.epoll[fd].gen == s.epoll[fd].gen)
    && (forall r :: 0 <= r < |s.reactors| ==> SameClosing(s.reactors[r].op, t.reactors[r].op))
  }

  lemma CalmTables(s: State, t: State)
    requires Calm(s, t) && Tables(s) && Interests(s)
    ensures Tables(t) && Interests(t)
  {
    forall fd | fd in t.conns ensures TableOk(t, fd) { assert TableOk(s, fd); }
    forall fd | fd in t.epoll ensures EpollOk(t, fd) { assert EpollOk(s, fd); }
  }

  lemma CalmSockets(s: State, t: State)
    requires Calm(s, t) && Sockets(s) && Closers(s)
    ensures Sockets(t) && Closers(t)
  {
    forall k | k in t.ctxs ensures SocketOk(t, k) { assert SocketOk(s, k); }
    forall r | 0 <= r < |t.reactors| ensures CloserOk(t, r) {
      assert CloserOk(s, r) && SameClosing(s.reactors[r].op, t.reactors[r].op);
    }
  }

  lemma CalmWired(s: State, t: State)
    requires Calm(s, t) && Wired(s)
    ensures Wired(t)
  {
    assert Kernel(t) && SetupOk(t);
    hide Kernel, SetupOk, Tables, Sockets, Interests, Closers;
    CalmTables(s, t);
    CalmSockets(s, t);
  }

  lemma CalmTwice(s: State, t: State, u: State)
    requires Calm(s, t) && Calm(t, u)
    ensures Calm(s, u)
  {}

  lemma CalmRearm(s: State, r: nat, id: ConnId, arm: Arm)
    requires Interests(s) && Has(s, r, id.fd) && Ctxt(s, r, id.fd).gen == id.gen
    ensures Calm(s, Rearm(s, r, id, arm))
  {
    if id.fd in s.epoll { assert EpollOk(s, id.fd); }
  }

  lemma CalmPut(s: State, r: nat, fd: nat, c: Ctx)
    requires Has(s, r, fd) && c.gen == Ctxt(s, r, fd).gen && c.uid == Ctxt(s, r, fd).uid
    ensures Calm(s, Put(s, r, fd, c))
  {}

  lemma CalmMark(s: State, r: nat, id: ConnId, enter: bool)
    ensures Calm(s, MarkInFlight(s, r, id, enter))
  {}

  lemma CalmSubmit(s: State, r: nat, id: ConnId, uid: nat)
    requires r < |s.reactors| && s.reactors[r].op == Free
    ensures Calm(s, BeginSubmit(s, r, id, uid))
  {
    CalmMark(s, r, id, true);
    hide MarkInFlight;
  }

  // ---------- Closing ----------

  lemma ClosedTables(s: State, r: nat, fd: nat, uid: nat)
    requires r < |s.reactors| && BoundTo(s, fd, uid) && IsOpen(s, fd, uid) && Started(s, uid) && Tables(s) && SetupOk(s)
    ensures Tables(Closed(s, r, fd, uid)) && SetupOk(Closed(s, r, fd, uid))
  {
    var t := Closed(s, r, fd, uid);
    forall f | f in t.conns ensures TableOk(t, f) { assert TableOk(s, f); }
  }

  lemma ClosedSockets(s: State, r: nat, fd: nat, uid: nat)
    requires r < |s.reactors| && BoundTo(s, fd, uid) && s.reactors[r].op == Free && CtxOf(s, r, fd, uid)
    requires Contexts(s) && Sockets(s) && Closers(s) && Interests(s)
    ensures Sockets(Closed(s, r, fd, uid)) && Closers(Closed(s, r, fd, uid)) && Interests(Closed(s, r, fd, uid))
  {
    var t := Closed(s, r, fd, uid);
    forall k | k in t.ctxs ensures SocketOk(t, k) {
      OneSlot(s, r, fd, k);
      assert SocketOk(s, k);
    }
    hide Contexts;
    forall q | 0 <= q < |t.reactors| ensures CloserOk(t, q) { assert CloserOk(s, q); }
    forall f | f in t.epoll ensures EpollOk(t, f) { assert EpollOk(s, f); }
  }

  lemma BeginCloseWired(s: State, r: nat, id: ConnId, uid: nat)
    requires Inv(s) && r < |s.reactors| && s.reactors[r].op == Free && GoodId(s, r, id, uid) && Started(s, uid)
    ensures Wired(BeginClose(s, r, id))
  {
    BeginCloseIs(s, r, id, uid);
    if Matches(s, id) {
      CloseTarget(s, r, id, uid);
      assert TableOk(s, id.fd) && BindingOk(s, id.fd);
      hide Bindings, Tables, Sockets, Interests, Closers, SetupOk, BeginClose, Ops, Queues, Tasks, Contexts;
      ClosedTables(s, r, id.fd, uid);
      ClosedSockets(s, r, id.fd, uid);
      assert Kernel(Closed(s, r, id.fd, uid));
    }
  }

  lemma CloseConnectionWired(s: State, r: nat, fd: nat)
    requires Inv(s) && r < |s.reactors| && s.reactors[r].op == Free
    ensures Wired(CloseConnection(s, r, fd))
  {
    hide Wired, BeginClose;
    if Has(s, r, fd) {
      assert CtxOk(s, Slot(r, fd));
      hide Own;
      BeginCloseWired(s, r, ConnId(fd, Ctxt(s, r, fd).gen), Ctxt(s, r, fd).uid);
    }
  }

  // ---------- A connection going away ----------

  /** t is s after connection uid of reactor r has lost its context and its socket; its
      thread is done with it, and so is the accepting thread if it was setting it up. */
  ghost predicate Gone(s: State, t: State, r: nat, fd: nat, uid: nat) {
    && IsOpen(s, fd, uid) && CtxOf(s, r, fd, uid) && !BoundTo(t, fd, uid)
    && t.open == s.open - {fd} && t.epoll == s.epoll - {fd} && t.ctxs == s.ctxs - {Slot(r, fd)}
    && t.closes == s.closes + multiset{uid} && t.stray == s.stray && t.peers == s.peers && t.tasks == s.tasks
    && (forall f :: f in t.conns ==> f in s.conns && t.conns[f] == s.conns[f])
    && (forall f :: f in s.conns && f != fd ==> f in t.conns)
    && (t.acceptor == s.acceptor || (t.acceptor == Waiting && AtStage(s, Inserted) && s.acceptor.fd == fd))
    && |t.reactors| == |s.reactors| && (forall q :: 0 <= q < |s.reactors| ==> LetGo(s.reactors[q], t.reactors[q], q, fd))
  }

  lemma GoneKernel(s: State, t: State, r: nat, fd: nat, uid: nat)
    requires Gone(s, t, r, fd, uid) && Kernel(s)
    ensures Kernel(t)
  {
    hide LetGo;
    forall u | 0 <= u < |t.peers| ensures t.closes[u] == if IsOpen(t, t.peers[u].fd, u) then 0 else 1 {
      assert IsOpen(s, s.peers[u].fd, u) ==> s.closes[u] == 0;
    }
  }

  lemma GoneTables(s: State, t: State, r: nat, fd: nat, uid: nat)
    requires Gone(s, t, r, fd, uid) && Tables(s) && Interests(s)
    ensures Tables(t) && Interests(t)
  {
    hide LetGo;
    forall f | f in t.conns ensures TableOk(t, f) { assert TableOk(s, f); }
    forall f | f in t.epoll ensures EpollOk(t, f) { assert EpollOk(s, f); }
  }

  lemma GoneSetup(s: State, t: State, r: nat, fd: nat, uid: nat)
    requires Gone(s, t, r, fd, uid) && SetupOk(s) && Contexts(s) && Sockets(s) && Enrolled(s)
    ensures SetupOk(t)
  {
    hide LetGo;
    OnlyOwnSlot(s, Slot(r, fd));
  }

  lemma GoneSockets(s: State, t: State, r: nat, fd: nat, uid: nat)
    requires Gone(s, t, r, fd, uid) && Contexts(s) && Sockets(s)
    ensures Sockets(t)
  {
    forall k | k in t.ctxs ensures SocketOk(t, k) {
      OneSlot(s, r, fd, k);
      assert SocketOk(s, k);
      if k.reactor < |s.reactors| { assert LetGo(s.reactors[k.reactor], t.reactors[k.reactor], k.reactor, fd); }
    }
  }

  lemma GoneClosers(s: State, t: State, r: nat, fd: nat, uid: nat)
    requires Gone(s, t, r, fd, uid) && Closers(s) && (r < |t.reactors| && t.reactors[r].op.Closing? ==> t.reactors[r].op.uid != uid)
    ensures Closers(t)
  {
    forall q | 0 <= q < |t.reactors| ensures CloserOk(t, q) {
      assert CloserOk(s, q) && LetGo(s.reactors[q], t.reactors[q], q, fd);
    }
  }

  lemma GoneWired(s: State, t: State, r: nat, fd: nat, uid: nat)
    requires Gone(s, t, r, fd, uid) && Inv(s) && (r < |t.reactors| && t.reactors[r].op.Closing? ==> t.reactors[r].op.uid != uid)
    ensures Wired(t)
  {
    hide Gone, Kernel, Tables, Sockets, Interests, Closers, SetupOk, Enrolled, Contexts, Bindings, Ops, Queues, Tasks;
    GoneKernel(s, t, r, fd, uid);
    GoneTables(s, t, r, fd, uid);
    GoneSetup(s, t, r, fd, uid);
    GoneSockets(s, t, r, fd, uid);
    GoneClosers(s, t, r, fd, uid);
  }

  lemma CloserHolds(s: State, r: nat)
    requires Wired(s) && r < |s.reactors| && s.reactors[r].op.Closing?
    ensures (
        var op := s.reactors[r].op;
        op.owner == r && IsOpen(s, op.fd, op.uid) && CtxOf(s, r, op.fd, op.uid) && !BoundTo(s, op.fd, op.uid))
  {
    assert CloserOk(s, r) && SocketOk(s, Slot(r, s.reactors[r].op.fd));
  }

  lemma FinishCloseGone(s: State, r: nat)
    requires Wired(s) && Enabled(s, FinishClose(r))
    ensures Gone(s, FinishCloseStep(s, r), r, s.reactors[r].op.fd, s.reactors[r].op.uid)
  {
    hide Wired;
    CloserHolds(s, r);
  }

  lemma FinishCloseWired(s: State, r: nat)
    requires Inv(s) && Enabled(s, FinishClose(r))
    ensures Wired(FinishCloseStep(s, r))
  {
    FinishFrees(s, r);
    hide Inv, FinishCloseStep;
    assert Wired(s) by { InvParts(s); }
    FinishCloseGone(s, r);
    GoneWired(s, FinishCloseStep(s, r), r, s.reactors[r].op.fd, s.reactors[r].op.uid);
  }

  lemma InvParts(s: State)
    requires Inv(s)
    ensures Own(s) && Wired(s)
  {}

  lemma FinishFrees(s: State, r: nat)
    requires Wired(s) && Enabled(s, FinishClose(r))
    ensures r < |FinishCloseStep(s, r).reactors| && FinishCloseStep(s, r).reactors[r].op == Free
  {
    hide Wired;
  }

  // ---------- The accepting thread ----------

  /** The rollback after a failed epoll_ctl ADD finds the registration it is to undo. */
  predicate Intact(s: State, a: Action) {
    a == AddToEpoll(false) && s.acceptor.Setup?
    ==> Owns(s, s.acceptor.reactor, ConnId(s.acceptor.fd, Generation(s.acceptor.uid)))
  }

  lemma SetupHolds(s: State)
    requires Inv(s) && AtStage(s, Inserted) && Intact(s, AddToEpoll(false))
    ensures (
        var a := s.acceptor;
        BoundTo(s, a.fd, a.uid) && IsOpen(s, a.fd, a.uid) && CtxOf(s, a.reactor, a.fd, a.uid))
  {
    var a := s.acceptor;
    CloseTarget(s, a.reactor, ConnId(a.fd, Generation(a.uid)), a.uid);
    assert TableOk(s, a.fd);
  }

  lemma RollbackGone(s: State)
    requires Inv(s) && Enabled(s, AddToEpoll(false)) && Intact(s, AddToEpoll(false))
    ensures Gone(s, SetupStep(s, AddToEpoll(false)), s.acceptor.reactor, s.acceptor.fd, s.acceptor.uid)
  {
    hide Inv;
    SetupHolds(s);
  }

  lemma RollbackWired(s: State)
    requires Inv(s) && Enabled(s, AddToEpoll(false)) && Intact(s, AddToEpoll(false))
    ensures Wired(SetupStep(s, AddToEpoll(false)))
  {
    var t, r := SetupStep(s, AddToEpoll(false)), s.acceptor.reactor;
    SetupHolds(s);
    if r < |s.reactors| { assert CloserOk(s, r); }
    assert t.reactors == s.reactors;
    hide Inv, SetupStep, Wired;
    RollbackGone(s);
    GoneWired(s, t, r, s.acceptor.fd, s.acceptor.uid);
  }

  lemma AcceptKernel(s: State, fd: nat)
    requires Kernel(s) && Enabled(s, Accept(fd))
    ensures Kernel(AcceptStep(s, fd))
  {
    var t := AcceptStep(s, fd);
    forall u | 0 <= u < |t.peers| ensures t.closes[u] == if IsOpen(t, t.peers[u].fd, u) then 0 else 1 {
      if u < |s.peers| { assert t.peers[u] == s.peers[u]; }
    }
  }

  /** Whatever the program knows of is open, so a new descriptor is new to all tables. */
  lemma KnownAreOpen(s: State)
    requires Tables(s) && Sockets(s) && Interests(s)
    ensures forall f :: Bound(s, f) ==> f in s.open
    ensures forall k :: k in s.ctxs ==> k.fd in s.open
    ensures forall f :: f in s.epoll ==> f in s.open
  {
    forall f | Bound(s, f) ensures f in s.open { assert TableOk(s, f); }
    forall k | k in s.ctxs ensures k.fd in s.open { assert SocketOk(s, k); }
    forall f | f in s.epoll ensures f in s.open {
      assert EpollOk(s, f);
      assert Slot(s.epoll[f].reactor, f) in s.ctxs;
    }
  }

  lemma AcceptTables(s: State, fd: nat)
    requires Tables(s) && Sockets(s) && Interests(s) && Enabled(s, Accept(fd))
    ensures Tables(AcceptStep(s, fd)) && SetupOk(AcceptStep(s, fd)) && Interests(AcceptStep(s, fd))
  {
    var t := AcceptStep(s, fd);
    KnownAreOpen(s);
    hide Sockets;
    forall f | f in t.conns ensures TableOk(t, f) { assert TableOk(s, f); }
    forall f | f in t.epoll ensures EpollOk(t, f) { assert EpollOk(s, f); }
  }

  lemma AcceptSockets(s: State, fd: nat)
    requires Sockets(s) && Closers(s) && Enabled(s, Accept(fd))
    ensures Sockets(AcceptStep(s, fd)) && Closers(AcceptStep(s, fd))
  {
    var t := AcceptStep(s, fd);
    forall k | k in t.ctxs ensures SocketOk(t, k) { assert SocketOk(s, k); }
    forall q | 0 <= q < |t.reactors| ensures CloserOk(t, q) { assert CloserOk(s, q); }
  }

  lemma AcceptWired(s: State, fd: nat)
    requires Wired(s) && Enabled(s, Accept(fd))
    ensures Wired(AcceptStep(s, fd))
  {
    hide Kernel, Tables, Sockets, Interests, Closers, SetupOk, AcceptStep;
    AcceptKernel(s, fd);
    AcceptTables(s, fd);
    AcceptSockets(s, fd);
  }

  lemma SetupTables(s: State, a: Action)
    requires SetupAction(a) && Enabled(s, a) && SetupOk(s) && Tables(s) && Enrolled(s) && Bindings(s)
    ensures Tables(SetupStep(s, a))
  {
    var t := SetupStep(s, a);
    forall f | f in t.conns ensures TableOk(t, f) { if f in s.conns { assert TableOk(s, f) && BindingOk(s, f); } }
  }

  lemma SetupSetup(s: State, a: Action)
    requires SetupAction(a) && Enabled(s, a) && SetupOk(s)
    ensures SetupOk(SetupStep(s, a))
  {}

  lemma SetupSockets(s: State, a: Action)
    requires SetupAction(a) && Enabled(s, a) && SetupOk(s) && Enrolled(s) && Contexts(s) && Sockets(s)
    ensures Sockets(SetupStep(s, a))
  {
    hide CtxOk;
    var t := SetupStep(s, a);
    forall k | k in t.ctxs ensures SocketOk(t, k) {
      if k in s.ctxs {
        OnlyOwnSlot(s, k);
        assert SocketOk(s, k);
      }
    }
  }

  lemma SetupClosers(s: State, a: Action)
    requires SetupAction(a) && Enabled(s, a) && SetupOk(s) && Enrolled(s) && Contexts(s) && Sockets(s) && Closers(s)
    ensures Closers(SetupStep(s, a))
  {
    var t := SetupStep(s, a);
    forall q | 0 <= q < |t.reactors| ensures CloserOk(t, q) {
      assert CloserOk(s, q);
      if s.reactors[q].op.Closing? { OnlyOwnSlot(s, Slot(q, s.reactors[q].op.fd)); }
      hide Contexts, Sockets;
    }
  }

  lemma SetupInterests(s: State, a: Action)
    requires SetupAction(a) && Enabled(s, a) && SetupOk(s) && Interests(s) && Contexts(s) && Enrolled(s)
    ensures Interests(SetupStep(s, a))
  {
    var t := SetupStep(s, a);
    forall f | f in t.epoll ensures EpollOk(t, f) {
      if f in s.epoll { assert EpollOk(s, f); } else { assert CtxOk(s, Slot(s.acceptor.reactor, f)); }
    }
  }

  lemma SetupKernel(s: State, a: Action)
    requires SetupAction(a) && Enabled(s, a) && Kernel(s)
    ensures Kernel(SetupStep(s, a))
  {}

  lemma SetupWired(s: State, a: Action)
    requires SetupAction(a) && Enabled(s, a) && Inv(s)
    ensures Wired(SetupStep(s, a))
  {
    SetupKernel(s, a);
    hide Kernel, Tables, Sockets, Interests, Closers, SetupOk, Enrolled, Contexts, Bindings, Ops, Queues, Tasks, SetupStep;
    SetupTables(s, a);
    SetupSetup(s, a);
    SetupSockets(s, a);
    SetupClosers(s, a);
    SetupInterests(s, a);
  }

  // ---------- Handlers ----------

  /** The reactor may act, and everything is wired. */
  ghost predicate Ready(s: State, r: nat, id: ConnId) { MayAct(s, r, id) && Wired(s) }

  lemma PutReady(s: State, r: nat, id: ConnId, c: Ctx)
    requires Ready(s, r, id) && SameCtx(Ctxt(s, r, id.fd), c)
    ensures Ready(Put(s, r, id.fd, c), r, id)
  {
    PutMay(s, r, id, c);
    CalmPut(s, r, id.fd, c);
    hide Own, Wired, Calm;
    CalmWired(s, Put(s, r, id.fd, c));
  }

  lemma RearmReady(s: State, r: nat, id: ConnId, arm: Arm)
    requires Ready(s, r, id)
    ensures Ready(Rearm(s, r, id, arm), r, id)
  {
    RearmMay(s, r, id, arm);
    CalmRearm(s, r, id, arm);
    hide Own, Wired, Calm, Rearm;
    CalmWired(s, Rearm(s, r, id, arm));
  }

  lemma SubmitReady(s: State, r: nat, id: ConnId, uid: nat)
    requires Wired(s) && r < |s.reactors| && s.reactors[r].op == Free
    ensures Wired(BeginSubmit(s, r, id, uid))
  {
    CalmSubmit(s, r, id, uid);
    hide Wired, Calm, BeginSubmit;
    CalmWired(s, BeginSubmit(s, r, id, uid));
  }

  lemma DispatchWired(s: State, r: nat, id: ConnId, parsed: Parsed)
    requires Ready(s, r, id)
    ensures Wired(DispatchBuffered(s, r, id, parsed))
  {
    RearmReady(s, r, id, Reading);
    hide Own, Wired, BeginSubmit, Rearm;
    SubmitReady(s, r, id, Ctxt(s, r, id.fd).uid);
  }

  lemma ReadWired(s: State, r: nat, id: ConnId, input: Input)
    requires Ready(s, r, id)
    ensures Wired(HandleRead(s, r, id, input))
  {
    hide Own, Wired, BeginSubmit, Rearm, DispatchBuffered, CloseConnection;
    RearmReady(s, r, id, Reading);
    SubmitReady(s, r, id, Ctxt(s, r, id.fd).uid);
    CloseConnectionWired(s, r, id.fd);
    if input.Bytes? { DispatchWired(s, r, id, input.parsed); }
  }

  lemma WriteWired(s: State, r: nat, id: ConnId, out: Output, rest: Option<Parsed>)
    requires Ready(s, r, id)
    ensures Wired(WriteCurrent(s, r, id.fd, out, rest))
  {
    hide Own, Wired, Rearm, DispatchBuffered, CloseConnection, Completes, SentNow;
    var c := Ctxt(s, r, id.fd);
    if c.current.Some? {
      CurrentIsOwn(s, r, id.fd);
      var d := if Completes(c, out) then c.(offset := 0, current := None) else c.(offset := c.offset + SentNow(c, out));
      var t := Put(s, r, id.fd, d);
      PutReady(s, r, id, d);
      CloseConnectionWired(t, r, id.fd);
      RearmReady(t, r, id, Writing);
      RearmReady(t, r, id, Reading);
      if rest.Some? { DispatchWired(Rearm(t, r, id, Reading), r, id, rest.value); }
    }
  }

  lemma HandleWriteWired(s: State, r: nat, id: ConnId, out: Output, rest: Option<Parsed>)
    requires Ready(s, r, id)
    ensures Wired(HandleWrite(s, r, id.fd, out, rest))
  {
    hide Own, Wired, Rearm, WriteCurrent;
    RearmReady(s, r, id, Reading);
    WriteWired(s, r, id, out, rest);
  }

  lemma OwnedMay(s: State, r: nat, id: ConnId)
    requires Own(s) && Idle(s, r) && Owns(s, r, id) && Announced(s, id) && Has(s, r, id.fd)
    ensures MayAct(s, r, id)
  {
    OwnedCtx(s, r, id);
    hide Own;
  }

  /** What only changes the reactor's agenda. */
  lemma TodoWired(s: State, r: nat, b: Reactor)
    requires Wired(s) && r < |s.reactors| && b.op == s.reactors[r].op
    ensures Wired(WithReactor(s, r, b))
  {
    hide Wired;
    CalmWired(s, WithReactor(s, r, b));
  }

  lemma HandleWired(s: State, r: nat, id: ConnId, event: Event)
    requires Inv(s) && Enabled(s, Handle(r, id, event))
    ensures Wired(HandleStep(s, r, id, event))
  {
    hide Own, Wired, HandleRead, WriteCurrent, Rearm;
    if Owns(s, r, id) {
      if Has(s, r, id.fd) { OwnedMay(s, r, id); }
      match event
      case In(input) => if Has(s, r, id.fd) { ReadWired(s, r, id, input); } else { NoCtxRead(s, r, id, input); }
      case Out(output, rest) => if Has(s, r, id.fd) { HandleWriteWired(s, r, id, output, rest); }
      case Hup(first) =>
        if first.Some? {
          if Has(s, r, id.fd) { ReadWired(s, r, id, first.value); } else { NoCtxRead(s, r, id, first.value); }
        }
        var t := if first.Some? then HandleRead(s, r, id, first.value) else s;
        ReadTodo(s, r, id, if first.Some? then first.value else NoData);
        TodoWired(t, r, t.reactors[r].(todo := HangupCheck(id.fd, s.conns[id.fd].uid)));
    }
  }

  lemma CheckHangupWired(s: State, r: nat)
    requires Inv(s) && Enabled(s, CheckHangup(r))
    ensures Wired(CheckHangupStep(s, r))
  {
    hide Own, Wired, CloseConnection;
    LaterTodo(s, r, Nothing);
    TodoWired(s, r, s.reactors[r].(todo := Nothing));
    CloseConnectionWired(WithTodo(s, r, Nothing), r, s.reactors[r].todo.fd);
  }

  lemma DeliverWired(s: State, r: nat, p: Pending, out: Output, rest: Option<Parsed>)
    requires Inv(s) && r < |s.reactors| && s.reactors[r].op == Free && s.reactors[r].todo.Wake? && Known(s, r, p)
    ensures Wired(Deliver(s, r, p, out, rest))
  {
    hide Own, Wired, WriteCurrent;
    if Owns(s, r, p.id) && Has(s, r, p.id.fd) && Ctxt(s, r, p.id.fd).gen == p.id.gen {
      DeliverTarget(s, r, p);
      var d := Ctxt(s, r, p.id.fd).(current := Some(p.response), keepAlive := p.keepAlive, offset := 0);
      PutReady(s, r, p.id, d);
      WriteWired(Put(s, r, p.id.fd, d), r, p.id, out, rest);
    }
  }

  lemma DeliverNextWired(s: State, r: nat, out: Output, rest: Option<Parsed>)
    requires Inv(s) && Enabled(s, DeliverNext(r, out, rest))
    ensures Wired(DeliverStep(s, r, out, rest))
  {
    var items := s.reactors[r].todo.items;
    assert QueuesOk(s, r);
    hide Own, Wired, Deliver;
    TodoWired(s, r, s.reactors[r].(todo := Nothing));
    if items != [] {
      var t := WithTodo(s, r, Wake(items[1..]));
      assert items[0] in items && Known(s, r, items[0]);
      TodoOwn(s, r, s.reactors[r].(todo := Wake(items[1..])));
      TodoWired(s, r, s.reactors[r].(todo := Wake(items[1..])));
      DeliverWired(t, r, items[0], out, rest);
    }
  }

  lemma SweepWired(s: State, r: nat)
    requires Inv(s) && Enabled(s, SweepNext(r))
    ensures Wired(SweepStep(s, r))
  {
    var ids := s.reactors[r].todo.ids;
    assert QueuesOk(s, r);
    if ids != [] {
      assert IdleId(s, r, ids[0]);
      var u :| Collected(s, r, ids[0], u);
      var t := WithTodo(s, r, Sweep(ids[1..]));
      hide Own, Wired, BeginClose;
      TodoOwn(s, r, s.reactors[r].(todo := Sweep(ids[1..])));
      TodoWired(s, r, s.reactors[r].(todo := Sweep(ids[1..])));
      BeginCloseWired(t, r, ids[0], u);
    } else {
      hide Own, Wired;
      TodoWired(s, r, s.reactors[r].(todo := Nothing));
    }
  }

  // ---------- Every step ----------

  predicate CalmAction(a: Action) {
    a.Harvest? || a.TakePending? || a.CollectIdle? || a.Submit? || a.Execute? || a.Leave?
  }

  /** Leaving, or a count taken back: the tasks and the registers first, then the count. */
  lemma CalmLess(s: State, u: State, r: nat, id: ConnId)
    requires u == s.(tasks := u.tasks, reactors := u.reactors) && |u.reactors| == |s.reactors|
    requires forall q :: 0 <= q < |s.reactors| ==> SameClosing(s.reactors[q].op, u.reactors[q].op)
    ensures Calm(s, MarkInFlight(u, r, id, false))
  {
    CalmMark(u, r, id, false);
    hide MarkInFlight;
    CalmTwice(s, u, MarkInFlight(u, r, id, false));
  }

  lemma CalmTask(s: State, a: Action)
    requires Enabled(s, a) && (a.Submit? || a.Leave?)
    ensures Calm(s, Step(s, a))
  {
    hide MarkInFlight, Calm;
    if a.Leave? {
      CalmLess(s, s.(tasks := s.tasks - multiset{a.task}), a.task.reactor, a.task.id);
    } else if !a.ok {
      CalmLess(s, WithOp(s, a.r, Free), a.r, s.reactors[a.r].op.id);
    } else {
      CalmSubmitted(s, a.r);
    }
  }

  lemma CalmSubmitted(s: State, r: nat)
    requires Enabled(s, Submit(r, true))
    ensures Calm(s, SubmitStep(s, r, true))
  {}

  lemma CalmExecute(s: State, x: Task, data: string, keepAlive: bool, posts: bool)
    requires Enabled(s, Execute(x, data, keepAlive, posts))
    ensures Calm(s, ExecuteStep(s, x, data, keepAlive, posts))
  {}

  lemma CalmStep(s: State, a: Action)
    requires Enabled(s, a) && CalmAction(a)
    ensures Calm(s, Step(s, a))
  {
    hide MarkInFlight, HandleStep, CheckHangupStep, DeliverStep, SweepStep, FinishCloseStep, AcceptStep, SetupStep;
    hide ExecuteStep, SubmitStep, MayBeIdle, Announced;
    if a.Submit? || a.Leave? { CalmTask(s, a); }
    if a.Execute? { CalmExecute(s, a.task, a.data, a.keepAlive, a.posts); }
  }

  lemma StepWired(s: State, a: Action)
    requires Inv(s) && Enabled(s, a) && Intact(s, a)
    ensures Wired(Step(s, a))
  {
    hide Own, Wired, AcceptStep, SetupStep, HandleStep, CheckHangupStep, DeliverStep, SweepStep, SubmitStep;
    hide FinishCloseStep, ExecuteStep, MarkInFlight, Idle, MayBeIdle, Announced, Intact, Calm;
    match a
    case Accept(fd) => AcceptWired(s, fd);
    case ClearStale => SetupWired(s, a);
    case Register => SetupWired(s, a);
    case Insert => SetupWired(s, a);
    case AddToEpoll(ok) => if ok { SetupWired(s, a); } else { RollbackWired(s); }
    case Handle(r, id, event) => HandleWired(s, r, id, event);
    case CheckHangup(r) => CheckHangupWired(s, r);
    case DeliverNext(r, out, rest) => DeliverNextWired(s, r, out, rest);
    case SweepNext(r) => SweepWired(s, r);
    case FinishClose(r) => FinishCloseWired(s, r);
    case _ =>
      CalmStep(s, a);
      CalmWired(s, Step(s, a));
  }

  lemma StepKeeps(s: State, a: Action)
    requires Inv(s) && Enabled(s, a) && Intact(s, a) && (a.Accept? ==> |s.peers| < SocketCompat.PERIOD)
    ensures Inv(Step(s, a))
  {
    hide Own, Wired, Step, Enabled, Intact;
    StepOwn(s, a);
    StepWired(s, a);
  }
}
