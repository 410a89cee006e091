/** Who owns what: identities, counters and queues. This half of the invariant is kept by
    every step whatsoever, also after a descriptor was closed twice. */
module ConnectionOwnership {
  import opened Text
  import opened ConnectionState

  // ---------- The invariant ----------

  /** id, kept by something that belongs to reactor r, is the identity of connection uid. */
  predicate GoodId(s: State, r: nat, id: ConnId, uid: nat) {
    uid < |s.peers| && s.peers[uid] == Peer(id.fd, r) && id.gen == Generation(uid)
  }

  predicate PeerOf(s: State, r: nat, fd: nat, uid: nat) { uid < |s.peers| && s.peers[uid] == Peer(fd, r) }

  predicate InSetup(s: State, uid: nat) { s.acceptor.Setup? && s.acceptor.uid == uid }

  /** The connection has, or has had, its context. */
  predicate Started(s: State, uid: nat) { InSetup(s, uid) ==> AtStage(s, Inserted) }

  predicate CtxOf(s: State, r: nat, fd: nat, uid: nat) { Has(s, r, fd) && Ctxt(s, r, fd).uid == uid }

  predicate Bound(s: State, fd: nat) { fd in s.conns && s.conns[fd].context }

  predicate BoundTo(s: State, fd: nat, uid: nat) { Bound(s, fd) && s.conns[fd].uid == uid }

  predicate BeingSubmitted(s: State, r: nat, id: ConnId, uid: nat) {
    r < |s.reactors| && s.reactors[r].op == Submitting(id, uid)
  }

  /** The tasks of a connection that have not run their leave step. */
  function Outstanding(s: State, r: nat, id: ConnId, uid: nat): nat {
    s.tasks[Task(r, id, uid, false)] + s.tasks[Task(r, id, uid, true)] + if BeingSubmitted(s, r, id, uid) then 1 else 0
  }

  /** The identity kept in a context. */
  function IdOf(k: Slot, c: Ctx): ConnId { ConnId(k.fd, c.gen) }

  /** Fewer connections than generations; a new connection is the youngest. */
  predicate Enrolled(s: State) {
    && |s.peers| <= SocketCompat.PERIOD
    && (forall u :: 0 <= u < |s.peers| ==> s.peers[u].reactor < |s.reactors|)
    && (s.acceptor.Setup? ==>
          var a := s.acceptor;
          && a.uid + 1 == |s.peers| && s.peers[a.uid] == Peer(a.fd, a.reactor)
          && (a.stage == Registered && Bound(s, a.fd) ==> BoundTo(s, a.fd, a.uid)))
  }

  /** A bound descriptor's context in its owner, if any, is that of the connection bound,
      unless the new one is yet to be inserted over it. */
  predicate BindingOk(s: State, fd: nat)
    requires fd in s.conns
  {
    var b := s.conns[fd];
    b.context ==>
      && 0 <= b.owner && GoodId(s, b.owner, ConnId(fd, b.gen), b.uid)
      && (Has(s, b.owner, fd) ==> CtxOf(s, b.owner, fd, b.uid) || (AtStage(s, Registered) && s.acceptor.fd == fd))
  }

  /** What is sent is one's own, and the counter counts one's own. */
  predicate CtxOk(s: State, k: Slot)
    requires k in s.ctxs
  {
    var c := s.ctxs[k];
    && GoodId(s, k.reactor, IdOf(k, c), c.uid) && Started(s, c.uid)
    && (c.current.Some? ==> c.current.value.uid == c.uid)
    && c.inFlight == Outstanding(s, k.reactor, IdOf(k, c), c.uid)
  }

  /** While its connection is bound, a request finds the context that counts it. */
  predicate Covered(s: State, r: nat, id: ConnId, uid: nat) {
    && GoodId(s, r, id, uid) && !InSetup(s, uid)
    && (Bound(s, id.fd) ==> uid <= s.conns[id.fd].uid && (s.conns[id.fd].uid == uid ==> CtxOf(s, r, id.fd, uid)))
  }

  /** No request of a younger connection stands behind a reactor that is closing. */
  predicate ClosingOk(s: State, r: nat, fd: nat, uid: nat) {
    && PeerOf(s, r, fd, uid) && Started(s, uid)
    && (Bound(s, fd) ==> uid < s.conns[fd].uid)
    && (forall x :: x in s.tasks && x.reactor == r && x.id.fd == fd ==> x.uid <= uid)
  }

  predicate OpOk(s: State, r: nat)
    requires r < |s.reactors|
  {
    match s.reactors[r].op
    case Free => true
    case Closing(fd, owner, uid) => owner == r && ClosingOk(s, r, fd, uid)
    case Submitting(id, uid) => Covered(s, r, id, uid) && !s.reactors[r].todo.Sweep?
  }

  predicate Known(s: State, r: nat, p: Pending) { GoodId(s, r, p.id, p.response.uid) && !InSetup(s, p.response.uid) }

  /** id was taken from the context of connection u. */
  predicate Collected(s: State, r: nat, id: ConnId, u: nat) { GoodId(s, r, id, u) && Started(s, u) }

  ghost predicate IdleId(s: State, r: nat, id: ConnId) {
    && (exists u :: Collected(s, r, id, u))
    && (Has(s, r, id.fd) && Ctxt(s, r, id.fd).gen == id.gen ==> Ctxt(s, r, id.fd).inFlight <= 0)
  }

  ghost predicate QueuesOk(s: State, r: nat)
    requires r < |s.reactors|
  {
    && (forall p :: p in s.reactors[r].pending ==> Known(s, r, p))
    && (s.reactors[r].todo.Wake? ==> forall p :: p in s.reactors[r].todo.items ==> Known(s, r, p))
    && (s.reactors[r].todo.Sweep? ==> forall id :: id in s.reactors[r].todo.ids ==> IdleId(s, r, id))
    && (s.reactors[r].todo.HangupCheck? ==> PeerOf(s, r, s.reactors[r].todo.fd, s.reactors[r].todo.uid))
  }

  predicate TaskOk(s: State, x: Task) { Covered(s, x.reactor, x.id, x.uid) }

  predicate Bindings(s: State) { forall fd :: fd in s.conns ==> BindingOk(s, fd) }
  predicate Contexts(s: State) { forall k :: k in s.ctxs ==> CtxOk(s, k) }
  predicate Ops(s: State) { forall r :: 0 <= r < |s.reactors| ==> OpOk(s, r) }
  ghost predicate Queues(s: State) { forall r :: 0 <= r < |s.reactors| ==> QueuesOk(s, r) }
  predicate Tasks(s: State) { forall x :: x in s.tasks ==> TaskOk(s, x) }

  ghost predicate Own(s: State) { Enrolled(s) && Bindings(s) && Contexts(s) && Ops(s) && Queues(s) && Tasks(s) }

  lemma SameUid(s: State, r: nat, id: ConnId, u: nat, v: nat)
    requires Enrolled(s) && GoodId(s, r, id, u) && GoodId(s, r, id, v)
    ensures u == v
  {
    SocketCompat.GenerationsDiffer(u, v);
  }

  // ---------- What is being sent ----------

  predicate SameCtx(c: Ctx, d: Ctx) {
    d.gen == c.gen && d.uid == c.uid && d.inFlight == c.inFlight && (d.current.Some? ==> d.current.value.uid == d.uid)
  }

  /** Only what is being sent may differ. */
  ghost predicate Similar(s: State, t: State) {
    && t.conns == s.conns && t.tasks == s.tasks && t.reactors == s.reactors && t.acceptor == s.acceptor
    && t.peers == s.peers && t.ctxs.Keys == s.ctxs.Keys
    && (forall k :: k in s.ctxs ==> SameCtx(s.ctxs[k], t.ctxs[k]))
  }

  lemma SimilarContexts(s: State, t: State)
    requires Similar(s, t) && Contexts(s) && Bindings(s)
    ensures Contexts(t) && Bindings(t)
  {
    forall k | k in t.ctxs ensures CtxOk(t, k) { assert CtxOk(s, k); }
    forall fd | fd in t.conns ensures BindingOk(t, fd) { assert BindingOk(s, fd); }
  }

  lemma SimilarQueues(s: State, t: State)
    requires Similar(s, t) && Queues(s)
    ensures Queues(t)
  {
    forall r | 0 <= r < |t.reactors| ensures QueuesOk(t, r) {
      assert QueuesOk(s, r);
      forall id | IdleId(s, r, id) ensures IdleId(t, r, id) {
        var u :| Collected(s, r, id, u);
        assert Collected(t, r, id, u);
      }
    }
  }

  lemma SimilarOps(s: State, t: State)
    requires Similar(s, t) && Ops(s) && Tasks(s)
    ensures Ops(t) && Tasks(t)
  {
    forall r | 0 <= r < |t.reactors| ensures OpOk(t, r) { assert OpOk(s, r); }
    forall x | x in t.tasks ensures TaskOk(t, x) { assert TaskOk(s, x); }
  }

  lemma SimilarOwn(s: State, t: State)
    requires Similar(s, t) && Own(s)
    ensures Own(t)
  {
    hide Bindings, Contexts, Ops, Queues, Tasks;
    SimilarContexts(s, t);
    SimilarQueues(s, t);
    SimilarOps(s, t);
  }

  lemma SimilarCtx(s: State)
    requires Contexts(s)
    ensures forall k :: k in s.ctxs ==> SameCtx(s.ctxs[k], s.ctxs[k])
  {
    forall k | k in s.ctxs ensures SameCtx(s.ctxs[k], s.ctxs[k]) { assert CtxOk(s, k); }
  }

  lemma PutOwn(s: State, r: nat, fd: nat, c: Ctx)
    requires Own(s) && Has(s, r, fd) && SameCtx(Ctxt(s, r, fd), c)
    ensures Own(Put(s, r, fd, c))
  {
    SimilarCtx(s);
    hide Own, Contexts;
    SimilarOwn(s, Put(s, r, fd, c));
  }

  /** Whatever only concerns the kernel. */
  lemma KernelOwn(s: State, t: State)
    requires Own(s) && t == s.(epoll := t.epoll, open := t.open, closes := t.closes, stray := t.stray)
    ensures Own(t)
  {
    SimilarCtx(s);
    hide Own, Contexts;
    SimilarOwn(s, t);
  }

  // ---------- Closing ----------

  predicate Matches(s: State, id: ConnId) { Bound(s, id.fd) && s.conns[id.fd].gen == id.gen }

  function Closed(s: State, r: nat, fd: nat, uid: nat): State
    requires r < |s.reactors| && fd in s.conns
  {
    WithOp(s.(conns := s.conns[fd := s.conns[fd].(owner := -1, context := false)]), r, Closing(fd, r, uid))
  }

  /** The connection that a matching identity closes is the one the identity was made for. */
  lemma CloseTarget(s: State, r: nat, id: ConnId, uid: nat)
    requires Enrolled(s) && Bindings(s) && GoodId(s, r, id, uid) && Matches(s, id)
    ensures s.conns[id.fd].uid == uid && s.conns[id.fd].owner == r
  {
    assert BindingOk(s, id.fd);
    SocketCompat.GenerationsDiffer(s.conns[id.fd].uid, uid);
  }

  lemma BeginCloseIs(s: State, r: nat, id: ConnId, uid: nat)
    requires Enrolled(s) && Bindings(s) && GoodId(s, r, id, uid) && r < |s.reactors|
    ensures BeginClose(s, r, id) == if Matches(s, id) then Closed(s, r, id.fd, uid) else s
  {
    hide Enrolled, Bindings;
    if Matches(s, id) { CloseTarget(s, r, id, uid); }
  }

  lemma ClosedContexts(s: State, r: nat, fd: nat, uid: nat)
    requires r < |s.reactors| && fd in s.conns && s.reactors[r].op == Free && Contexts(s) && Bindings(s)
    ensures Contexts(Closed(s, r, fd, uid)) && Bindings(Closed(s, r, fd, uid))
  {
    var t := Closed(s, r, fd, uid);
    forall k | k in t.ctxs ensures CtxOk(t, k) {
      assert CtxOk(s, k);
      var c := s.ctxs[k];
      assert Outstanding(t, k.reactor, IdOf(k, c), c.uid) == Outstanding(s, k.reactor, IdOf(k, c), c.uid);
    }
    forall f | f in t.conns ensures BindingOk(t, f) { assert BindingOk(s, f); }
  }

  lemma ClosedOps(s: State, r: nat, fd: nat, uid: nat)
    requires r < |s.reactors| && BoundTo(s, fd, uid) && Ops(s) && Tasks(s) && PeerOf(s, r, fd, uid) && Started(s, uid)
    ensures Ops(Closed(s, r, fd, uid)) && Tasks(Closed(s, r, fd, uid))
  {
    var t := Closed(s, r, fd, uid);
    forall x | x in t.tasks ensures TaskOk(t, x) && (x.id.fd == fd ==> x.uid <= uid) { assert TaskOk(s, x); }
    forall q | 0 <= q < |t.reactors| ensures OpOk(t, q) { assert OpOk(s, q); }
  }

  /** Queues only depend on the registers, the sockets accepted and the contexts. */
  lemma SameQueues(s: State, t: State)
    requires |t.reactors| == |s.reactors| && t.peers == s.peers && t.acceptor == s.acceptor && t.ctxs == s.ctxs
    requires forall r :: 0 <= r < |s.reactors| ==> t.reactors[r].(op := Free) == s.reactors[r].(op := Free)
    requires Queues(s)
    ensures Queues(t)
  {
    forall r | 0 <= r < |t.reactors| ensures QueuesOk(t, r) {
      assert QueuesOk(s, r);
      SameIdle(s, t, r);
    }
  }

  lemma SameIdle(s: State, t: State, r: nat)
    requires t.peers == s.peers && t.ctxs == s.ctxs && t.acceptor == s.acceptor
    ensures forall id :: IdleId(s, r, id) ==> IdleId(t, r, id)
  {
    forall id | IdleId(s, r, id) ensures IdleId(t, r, id) {
      var u :| Collected(s, r, id, u);
      assert Collected(t, r, id, u);
    }
  }

  lemma BeginCloseOwn(s: State, r: nat, id: ConnId, uid: nat)
    requires Own(s) && r < |s.reactors| && s.reactors[r].op == Free && GoodId(s, r, id, uid) && Started(s, uid)
    ensures Own(BeginClose(s, r, id))
  {
    hide Bindings, Contexts, Ops, Queues, Tasks, BeginClose;
    BeginCloseIs(s, r, id, uid);
    if Matches(s, id) {
      CloseTarget(s, r, id, uid);
      var t := Closed(s, r, id.fd, uid);
      ClosedContexts(s, r, id.fd, uid);
      ClosedOps(s, r, id.fd, uid);
      SameQueues(s, t);
      assert Enrolled(t);
    }
  }

  lemma CloseConnectionOwn(s: State, r: nat, fd: nat)
    requires Own(s) && r < |s.reactors| && s.reactors[r].op == Free
    ensures Own(CloseConnection(s, r, fd))
  {
    hide Enrolled, Bindings, Ops, Queues, Tasks, BeginClose;
    if Has(s, r, fd) {
      assert CtxOk(s, Slot(r, fd));
      BeginCloseOwn(s, r, ConnId(fd, Ctxt(s, r, fd).gen), Ctxt(s, r, fd).uid);
    }
  }

  // ---------- Counting what is in flight ----------

  function Surplus(s: State, k: Slot): int
    requires k in s.ctxs
  {
    s.ctxs[k].inFlight - Outstanding(s, k.reactor, IdOf(k, s.ctxs[k]), s.ctxs[k].uid)
  }

  /** t differs from s in counters, in tasks and in what the reactors are submitting, and
      each counter moved as much as the tasks it counts. */
  ghost predicate Recounted(s: State, t: State) {
    && t.conns == s.conns && t.acceptor == s.acceptor && t.peers == s.peers && |t.reactors| == |s.reactors|
    && t.ctxs.Keys == s.ctxs.Keys
    && (forall k :: k in s.ctxs ==> s.ctxs[k] == t.ctxs[k].(inFlight := s.ctxs[k].inFlight))
    && (forall k :: k in s.ctxs ==> Surplus(t, k) == Surplus(s, k))
    && (forall r :: 0 <= r < |s.reactors| ==> t.reactors[r].todo == s.reactors[r].todo)
  }

  lemma RecountedContexts(s: State, t: State)
    requires Recounted(s, t) && Contexts(s) && Bindings(s)
    ensures Contexts(t) && Bindings(t)
  {
    hide Outstanding;
    forall k | k in t.ctxs ensures CtxOk(t, k) { assert CtxOk(s, k); }
    forall fd | fd in t.conns ensures BindingOk(t, fd) { assert BindingOk(s, fd); }
  }

  lemma RecountedQueues(s: State, t: State)
    requires Recounted(s, t) && Queues(s)
    requires forall r, p :: 0 <= r < |t.reactors| && p in t.reactors[r].pending ==> Known(s, r, p)
    requires forall k :: k in s.ctxs && k.reactor < |s.reactors| && s.reactors[k.reactor].todo.Sweep? && s.ctxs[k].inFlight <= 0
                         ==> t.ctxs[k].inFlight <= 0
    ensures Queues(t)
  {
    hide Outstanding, Surplus;
    forall r | 0 <= r < |t.reactors| ensures QueuesOk(t, r) {
      assert QueuesOk(s, r);
      if t.reactors[r].todo.Sweep? {
        forall id | id in t.reactors[r].todo.ids ensures IdleId(t, r, id) {
          assert IdleId(s, r, id);
          var u :| Collected(s, r, id, u);
          assert Collected(t, r, id, u);
        }
      }
    }
  }

  lemma RecountedOwn(s: State, t: State)
    requires Recounted(s, t) && Own(s) && Ops(t) && Queues(t) && Tasks(t)
    ensures Own(t)
  {
    hide Bindings, Contexts, Ops, Queues, Tasks;
    RecountedContexts(s, t);
    assert Enrolled(t);
  }

  /** What a request needs stays as it is. */
  lemma CoveredFrame(s: State, t: State, r: nat, id: ConnId, uid: nat)
    requires Covered(s, r, id, uid) && t.conns == s.conns && t.peers == s.peers && t.acceptor == s.acceptor
    requires CtxOf(s, r, id.fd, uid) ==> CtxOf(t, r, id.fd, uid)
    ensures Covered(t, r, id, uid)
  {}

  /** Registers stay in order while their own stay as they are and no task is added. */
  lemma OpFrame(s: State, t: State, q: nat)
    requires q < |s.reactors| && |t.reactors| == |s.reactors| && OpOk(s, q)
    requires t.reactors[q].op == s.reactors[q].op && t.reactors[q].todo == s.reactors[q].todo
    requires t.conns == s.conns && t.peers == s.peers && t.acceptor == s.acceptor
    requires forall x :: x in t.tasks && x.reactor == q ==> x in s.tasks || x.(posted := false) in s.tasks
    requires forall k :: k in s.ctxs ==> k in t.ctxs && t.ctxs[k].uid == s.ctxs[k].uid
    ensures OpOk(t, q)
  {}

  // ---------- Submitting a request ----------

  lemma SubmittedRecount(s: State, r: nat, id: ConnId, uid: nat)
    requires r < |s.reactors| && s.reactors[r].op == Free
    requires Has(s, r, id.fd) && Ctxt(s, r, id.fd).gen == id.gen && Ctxt(s, r, id.fd).uid == uid
    ensures Recounted(s, BeginSubmit(s, r, id, uid))
  {
    var t := BeginSubmit(s, r, id, uid);
    forall k | k in s.ctxs ensures Surplus(t, k) == Surplus(s, k) {
      if k != Slot(r, id.fd) { assert t.ctxs[k] == s.ctxs[k]; }
    }
  }

  lemma SubmittedCtxs(s: State, r: nat, id: ConnId, uid: nat)
    requires r < |s.reactors|
    ensures forall k :: k in s.ctxs ==> k in BeginSubmit(s, r, id, uid).ctxs && BeginSubmit(s, r, id, uid).ctxs[k].uid == s.ctxs[k].uid
  {}

  lemma SubmittedOps(s: State, r: nat, id: ConnId, uid: nat)
    requires r < |s.reactors| && Ops(s) && Tasks(s) && Covered(s, r, id, uid) && !s.reactors[r].todo.Sweep?
    ensures Ops(BeginSubmit(s, r, id, uid)) && Tasks(BeginSubmit(s, r, id, uid))
  {
    var t := BeginSubmit(s, r, id, uid);
    SubmittedCtxs(s, r, id, uid);
    forall x | x in t.tasks ensures TaskOk(t, x) {
      assert TaskOk(s, x);
      CoveredFrame(s, t, x.reactor, x.id, x.uid);
    }
    hide Tasks;
    forall q | 0 <= q < |t.reactors| ensures OpOk(t, q) {
      if q == r { CoveredFrame(s, t, r, id, uid); } else { OpFrame(s, t, q); }
    }
  }

  lemma PendingKnown(s: State)
    requires Queues(s)
    ensures forall r, p :: 0 <= r < |s.reactors| && p in s.reactors[r].pending ==> Known(s, r, p)
  {
    forall r, p | 0 <= r < |s.reactors| && p in s.reactors[r].pending ensures Known(s, r, p) { assert QueuesOk(s, r); }
  }

  lemma BeginSubmitOwn(s: State, r: nat, id: ConnId, uid: nat)
    requires Own(s) && r < |s.reactors| && s.reactors[r].op == Free && !s.reactors[r].todo.Sweep? && !InSetup(s, uid)
    requires Has(s, r, id.fd) && Ctxt(s, r, id.fd).gen == id.gen && Ctxt(s, r, id.fd).uid == uid && BoundTo(s, id.fd, uid)
    ensures Own(BeginSubmit(s, r, id, uid))
  {
    var t := BeginSubmit(s, r, id, uid);
    assert CtxOk(s, Slot(r, id.fd));
    PendingKnown(s);
    hide Contexts, Bindings, Queues, Tasks, Ops;
    SubmittedRecount(s, r, id, uid);
    SubmittedOps(s, r, id, uid);
    RecountedQueues(s, t);
    RecountedOwn(s, t);
  }

  // ---------- One task less, one count less ----------

  /** u is s with one outstanding task of connection uid less. */
  ghost predicate OneLess(s: State, u: State, r: nat, id: ConnId, uid: nat) {
    && Outstanding(s, r, id, uid) > 0
    && (forall q, i, v :: Outstanding(u, q, i, v) == Outstanding(s, q, i, v) - if q == r && i == id && v == uid then 1 else 0)
  }

  /** Leaving takes the count from the connection the task belongs to, or from none; the
      clamp at zero never acts. */
  lemma LeaveBalances(s: State, u: State, r: nat, id: ConnId, uid: nat, k: Slot)
    requires Enrolled(s) && GoodId(s, r, id, uid) && u.ctxs == s.ctxs && OneLess(s, u, r, id, uid)
    requires k in s.ctxs && CtxOk(s, k)
    ensures (
        var t := MarkInFlight(u, r, id, false);
        && k in t.ctxs && s.ctxs[k] == t.ctxs[k].(inFlight := s.ctxs[k].inFlight)
        && Surplus(t, k) == Surplus(s, k) && t.ctxs[k].inFlight >= 0 && t.ctxs[k].inFlight <= s.ctxs[k].inFlight)
  {
    var t := MarkInFlight(u, r, id, false);
    var i, v := IdOf(k, s.ctxs[k]), s.ctxs[k].uid;
    assert Outstanding(t, k.reactor, i, v) == Outstanding(u, k.reactor, i, v);
    hide Outstanding, Enrolled;
    if k == Slot(r, id.fd) && s.ctxs[k].gen == id.gen {
      SameUid(s, r, id, uid, v);
    }
  }

  lemma LeaveRecounted(s: State, u: State, r: nat, id: ConnId, uid: nat)
    requires Enrolled(s) && GoodId(s, r, id, uid) && OneLess(s, u, r, id, uid) && Contexts(s)
    requires u == s.(tasks := u.tasks, reactors := u.reactors) && |u.reactors| == |s.reactors|
    requires forall q :: 0 <= q < |s.reactors| ==> u.reactors[q].todo == s.reactors[q].todo
    ensures Recounted(s, MarkInFlight(u, r, id, false))
  {
    hide OneLess, CtxOk, Outstanding, Surplus, GoodId, Enrolled;
    var t := MarkInFlight(u, r, id, false);
    assert t.ctxs.Keys == s.ctxs.Keys;
    forall k | k in s.ctxs ensures Surplus(t, k) == Surplus(s, k) && s.ctxs[k] == t.ctxs[k].(inFlight := s.ctxs[k].inFlight) {
      LeaveBalances(s, u, r, id, uid, k);
    }
  }

  /** Lower counts leave the queues as they are. */
  lemma LeaveQueues(s: State, u: State, r: nat, id: ConnId)
    requires Queues(s) && u == s.(tasks := u.tasks, reactors := u.reactors) && |u.reactors| == |s.reactors|
    requires forall q :: 0 <= q < |s.reactors| ==> u.reactors[q].(op := Free) == s.reactors[q].(op := Free)
    ensures Queues(MarkInFlight(u, r, id, false))
  {
    var t := MarkInFlight(u, r, id, false);
    forall q | 0 <= q < |t.reactors| ensures QueuesOk(t, q) {
      assert QueuesOk(s, q);
      forall i | IdleId(s, q, i) ensures IdleId(t, q, i) {
        var v :| Collected(s, q, i, v);
        assert Collected(t, q, i, v);
      }
    }
  }

  lemma MarkedCtxs(s: State, r: nat, id: ConnId, enter: bool)
    ensures (
        var t := MarkInFlight(s, r, id, enter);
        t == s.(ctxs := t.ctxs) && forall k :: k in s.ctxs ==> k in t.ctxs && t.ctxs[k].uid == s.ctxs[k].uid)
  {}

  lemma SubmitOps(s: State, r: nat, ok: bool)
    requires Enabled(s, Submit(r, ok)) && Ops(s) && Tasks(s)
    ensures Ops(SubmitStep(s, r, ok)) && Tasks(SubmitStep(s, r, ok))
  {
    var t, op := SubmitStep(s, r, ok), s.reactors[r].op;
    assert OpOk(s, r);
    MarkedCtxs(WithOp(s, r, Free), r, op.id, false);
    hide MarkInFlight;
    forall x | x in t.tasks ensures TaskOk(t, x) {
      if x in s.tasks { assert TaskOk(s, x); }
      CoveredFrame(s, t, x.reactor, x.id, x.uid);
    }
    hide Tasks;
    forall q | 0 <= q < |t.reactors| ensures OpOk(t, q) {
      if q != r { OpFrame(s, t, q); }
    }
  }

  lemma SubmittedTaskRecount(s: State, r: nat)
    requires Enabled(s, Submit(r, true))
    ensures Recounted(s, SubmitStep(s, r, true))
  {
    var t := SubmitStep(s, r, true);
    var op := s.reactors[r].op;
    forall k | k in s.ctxs ensures Surplus(t, k) == Surplus(s, k) {
      if k.reactor == r && IdOf(k, s.ctxs[k]) == op.id && s.ctxs[k].uid == op.uid {
        assert t.tasks[Task(r, op.id, op.uid, false)] == s.tasks[Task(r, op.id, op.uid, false)] + 1;
      }
    }
  }

  lemma RefusedRecount(s: State, r: nat)
    requires Enabled(s, Submit(r, false)) && Enrolled(s) && Contexts(s) && OpOk(s, r)
    ensures Recounted(s, SubmitStep(s, r, false))
  {
    var op := s.reactors[r].op;
    LeaveRecounted(s, WithOp(s, r, Free), r, op.id, op.uid);
  }

  lemma SubmitQueues(s: State, r: nat, ok: bool)
    requires Enabled(s, Submit(r, ok)) && Queues(s)
    ensures Queues(SubmitStep(s, r, ok))
  {
    hide Queues, MarkInFlight;
    if ok { SameQueues(s, SubmitStep(s, r, ok)); } else { LeaveQueues(s, WithOp(s, r, Free), r, s.reactors[r].op.id); }
  }

  lemma SubmitOwn(s: State, r: nat, ok: bool)
    requires Own(s) && Enabled(s, Submit(r, ok))
    ensures Own(SubmitStep(s, r, ok))
  {
    hide Bindings, Contexts, Queues, Tasks, Enrolled, SubmitStep;
    assert OpOk(s, r);
    hide Ops;
    SubmitOps(s, r, ok);
    SubmitQueues(s, r, ok);
    if ok { SubmittedTaskRecount(s, r); } else { RefusedRecount(s, r); }
    RecountedOwn(s, SubmitStep(s, r, ok));
  }

  // ---------- Workers ----------

  lemma ExecuteRecount(s: State, x: Task, data: string, keepAlive: bool, posts: bool)
    requires Enabled(s, Execute(x, data, keepAlive, posts))
    ensures Recounted(s, ExecuteStep(s, x, data, keepAlive, posts))
  {
    var t := ExecuteStep(s, x, data, keepAlive, posts);
    forall k | k in s.ctxs ensures Surplus(t, k) == Surplus(s, k) {
      var id, uid := IdOf(k, s.ctxs[k]), s.ctxs[k].uid;
      if x == Task(k.reactor, id, uid, false) {
        assert t.tasks[Task(k.reactor, id, uid, false)] == s.tasks[Task(k.reactor, id, uid, false)] - 1;
      }
    }
  }

  lemma ExecuteOps(s: State, x: Task, data: string, keepAlive: bool, posts: bool)
    requires Enabled(s, Execute(x, data, keepAlive, posts)) && Ops(s) && Tasks(s)
    ensures Ops(ExecuteStep(s, x, data, keepAlive, posts)) && Tasks(ExecuteStep(s, x, data, keepAlive, posts))
  {
    var t := ExecuteStep(s, x, data, keepAlive, posts);
    assert TaskOk(s, x);
    forall y | y in t.tasks ensures TaskOk(t, y) { if y in s.tasks { assert TaskOk(s, y); } }
    hide Tasks;
    forall q | 0 <= q < |t.reactors| ensures OpOk(t, q) { OpFrame(s, t, q); }
  }

  lemma ExecuteQueues(s: State, x: Task, data: string, keepAlive: bool, posts: bool)
    requires Enabled(s, Execute(x, data, keepAlive, posts)) && Queues(s) && Tasks(s)
    ensures Queues(ExecuteStep(s, x, data, keepAlive, posts))
  {
    var t := ExecuteStep(s, x, data, keepAlive, posts);
    assert TaskOk(s, x);
    forall q | 0 <= q < |t.reactors| ensures QueuesOk(t, q) {
      assert QueuesOk(s, q);
      SameIdle(s, t, q);
    }
  }

  lemma ExecuteOwn(s: State, x: Task, data: string, keepAlive: bool, posts: bool)
    requires Own(s) && Enabled(s, Execute(x, data, keepAlive, posts))
    ensures Own(ExecuteStep(s, x, data, keepAlive, posts))
  {
    hide Bindings, Contexts, Ops, Queues, Tasks, Enrolled, ExecuteStep;
    ExecuteRecount(s, x, data, keepAlive, posts);
    ExecuteOps(s, x, data, keepAlive, posts);
    ExecuteQueues(s, x, data, keepAlive, posts);
    RecountedOwn(s, ExecuteStep(s, x, data, keepAlive, posts));
  }

  lemma LeaveOps(s: State, x: Task)
    requires Enabled(s, Leave(x)) && Ops(s) && Tasks(s)
    ensures Ops(Step(s, Leave(x))) && Tasks(Step(s, Leave(x)))
  {
    var t := Step(s, Leave(x));
    MarkedCtxs(s.(tasks := s.tasks - multiset{x}), x.reactor, x.id, false);
    hide MarkInFlight;
    forall y | y in t.tasks ensures TaskOk(t, y) {
      assert TaskOk(s, y);
      CoveredFrame(s, t, y.reactor, y.id, y.uid);
    }
    hide Tasks;
    forall q | 0 <= q < |t.reactors| ensures OpOk(t, q) { OpFrame(s, t, q); }
  }

  lemma LeaveRecount(s: State, x: Task)
    requires Enabled(s, Leave(x)) && Enrolled(s) && Contexts(s) && TaskOk(s, x)
    ensures Recounted(s, Step(s, Leave(x)))
  {
    LeaveRecounted(s, s.(tasks := s.tasks - multiset{x}), x.reactor, x.id, x.uid);
  }

  lemma LeaveOwn(s: State, x: Task)
    requires Own(s) && Enabled(s, Leave(x))
    ensures Own(Step(s, Leave(x)))
  {
    hide Bindings, Contexts, Ops, Queues, Enrolled, MarkInFlight;
    assert TaskOk(s, x);
    hide Tasks;
    LeaveOps(s, x);
    LeaveRecount(s, x);
    LeaveQueues(s, s.(tasks := s.tasks - multiset{x}), x.reactor, x.id);
    RecountedOwn(s, Step(s, Leave(x)));
  }

  // ---------- A context going away ----------

  predicate LetGo(a: Reactor, b: Reactor, q: nat, fd: nat) {
    && b.todo == a.todo && (b.op == a.op || (a.op.Closing? && a.op.fd == fd && b.op == Free))
    && forall p :: p in b.pending ==> p in a.pending
  }

  /** t is s without the context of descriptor fd in reactor r, when no request counts on it. */
  ghost predicate Dropped(s: State, t: State, r: nat, fd: nat) {
    && t.ctxs == s.ctxs - {Slot(r, fd)} && t.peers == s.peers && t.tasks == s.tasks && |t.reactors| == |s.reactors|
    && (forall f :: f in t.conns ==> f in s.conns && t.conns[f] == s.conns[f])
    && (t.acceptor == s.acceptor || (t.acceptor == Waiting && AtStage(s, Inserted)))
    && (forall q :: 0 <= q < |s.reactors| ==> LetGo(s.reactors[q], t.reactors[q], q, fd))
    && (Bound(t, fd) ==>
          && (forall x :: x in s.tasks && x.reactor == r && x.id.fd == fd ==> x.uid < s.conns[fd].uid)
          && (r < |s.reactors| ==> !s.reactors[r].op.Submitting?))
  }

  lemma DroppedContexts(s: State, t: State, r: nat, fd: nat)
    requires Dropped(s, t, r, fd) && Contexts(s) && Bindings(s)
    ensures Contexts(t) && Bindings(t)
  {
    forall k | k in t.ctxs ensures CtxOk(t, k) {
      assert CtxOk(s, k);
      if k.reactor < |s.reactors| { assert LetGo(s.reactors[k.reactor], t.reactors[k.reactor], k.reactor, fd); }
      var c := s.ctxs[k];
      assert Outstanding(t, k.reactor, IdOf(k, c), c.uid) == Outstanding(s, k.reactor, IdOf(k, c), c.uid);
    }
    forall f | f in t.conns ensures BindingOk(t, f) { assert BindingOk(s, f); }
  }

  lemma DroppedTasks(s: State, t: State, r: nat, fd: nat)
    requires Dropped(s, t, r, fd) && Tasks(s)
    ensures Tasks(t)
  {
    hide LetGo;
    forall x | x in t.tasks ensures TaskOk(t, x) { assert TaskOk(s, x); }
  }

  lemma DroppedOps(s: State, t: State, r: nat, fd: nat)
    requires Dropped(s, t, r, fd) && Ops(s)
    ensures Ops(t)
  {
    forall q | 0 <= q < |t.reactors| ensures OpOk(t, q) {
      assert OpOk(s, q) && LetGo(s.reactors[q], t.reactors[q], q, fd);
    }
  }

  lemma DroppedQueues(s: State, t: State, r: nat, fd: nat)
    requires Dropped(s, t, r, fd) && Queues(s)
    ensures Queues(t)
  {
    forall q | 0 <= q < |t.reactors| ensures QueuesOk(t, q) {
      assert QueuesOk(s, q) && LetGo(s.reactors[q], t.reactors[q], q, fd);
      forall id | IdleId(s, q, id) ensures IdleId(t, q, id) {
        var u :| Collected(s, q, id, u);
        assert Collected(t, q, id, u);
      }
    }
  }

  lemma DroppedOwn(s: State, t: State, r: nat, fd: nat)
    requires Dropped(s, t, r, fd) && Own(s)
    ensures Own(t)
  {
    assert Enrolled(t);
    hide Dropped, Enrolled, Bindings, Contexts, Ops, Queues, Tasks;
    DroppedContexts(s, t, r, fd);
    DroppedTasks(s, t, r, fd);
    DroppedOps(s, t, r, fd);
    DroppedQueues(s, t, r, fd);
  }

  lemma FinishDrops(s: State, r: nat)
    requires Ops(s) && Tasks(s) && Enabled(s, FinishClose(r))
    ensures Dropped(s, FinishCloseStep(s, r), r, s.reactors[r].op.fd)
  {
    assert OpOk(s, r);
    hide Ops, Tasks, TaskOk;
  }

  lemma FinishCloseOwn(s: State, r: nat)
    requires Own(s) && Enabled(s, FinishClose(r))
    ensures Own(FinishCloseStep(s, r))
  {
    FinishDrops(s, r);
    hide Own, FinishCloseStep;
    DroppedOwn(s, FinishCloseStep(s, r), r, s.reactors[r].op.fd);
  }

  lemma RollbackOwn(s: State)
    requires Own(s) && Enabled(s, AddToEpoll(false))
    ensures Own(SetupStep(s, AddToEpoll(false)))
  {
    hide Own;
    DroppedOwn(s, SetupStep(s, AddToEpoll(false)), s.acceptor.reactor, s.acceptor.fd);
  }

  // ---------- The accepting thread ----------

  lemma AcceptContexts(s: State, fd: nat)
    requires Contexts(s) && Bindings(s) && Enrolled(s) && |s.peers| < SocketCompat.PERIOD && Enabled(s, Accept(fd))
    ensures Contexts(AcceptStep(s, fd)) && Bindings(AcceptStep(s, fd)) && Enrolled(AcceptStep(s, fd))
  {
    var t := AcceptStep(s, fd);
    forall k | k in t.ctxs ensures CtxOk(t, k) {
      assert CtxOk(s, k);
      var c := s.ctxs[k];
      assert Outstanding(t, k.reactor, IdOf(k, c), c.uid) == Outstanding(s, k.reactor, IdOf(k, c), c.uid);
    }
    forall f | f in t.conns ensures BindingOk(t, f) { assert BindingOk(s, f); }
  }

  lemma AcceptOps(s: State, fd: nat)
    requires Ops(s) && Tasks(s) && Enabled(s, Accept(fd))
    ensures Ops(AcceptStep(s, fd)) && Tasks(AcceptStep(s, fd))
  {
    var t := AcceptStep(s, fd);
    forall q | 0 <= q < |t.reactors| ensures OpOk(t, q) { assert OpOk(s, q); }
    forall x | x in t.tasks ensures TaskOk(t, x) { assert TaskOk(s, x); }
  }

  lemma AcceptQueues(s: State, fd: nat)
    requires Queues(s) && Enabled(s, Accept(fd))
    ensures Queues(AcceptStep(s, fd))
  {
    var t := AcceptStep(s, fd);
    forall q | 0 <= q < |t.reactors| ensures QueuesOk(t, q) {
      assert QueuesOk(s, q);
      forall p | Known(s, q, p) ensures Known(t, q, p) {}
      forall id | IdleId(s, q, id) ensures IdleId(t, q, id) {
        var u :| Collected(s, q, id, u);
        assert Collected(t, q, id, u);
      }
    }
  }

  lemma AcceptOwn(s: State, fd: nat)
    requires Own(s) && |s.peers| < SocketCompat.PERIOD && Enabled(s, Accept(fd))
    ensures Own(AcceptStep(s, fd))
  {
    hide Enrolled, Bindings, Contexts, Ops, Queues, Tasks, AcceptStep;
    AcceptContexts(s, fd);
    AcceptOps(s, fd);
    AcceptQueues(s, fd);
  }

  predicate SetupAction(a: Action) { a == ClearStale || a == Register || a == Insert || a == AddToEpoll(true) }

  /** A connection that is being set up has nothing outstanding. */
  lemma NoTasksYet(s: State, r: nat, id: ConnId)
    requires s.acceptor.Setup? && Tasks(s) && Ops(s)
    ensures Outstanding(s, r, id, s.acceptor.uid) == 0
  {
    forall x | x in s.tasks ensures x.uid != s.acceptor.uid { assert TaskOk(s, x); }
    forall q | 0 <= q < |s.reactors| && s.reactors[q].op.Submitting? ensures s.reactors[q].op.uid != s.acceptor.uid {
      assert OpOk(s, q);
    }
  }

  lemma InsertedCtx(s: State)
    requires Enabled(s, Insert) && Enrolled(s) && Tasks(s) && Ops(s)
    ensures CtxOk(SetupStep(s, Insert), Slot(s.acceptor.reactor, s.acceptor.fd))
  {
    NoTasksYet(s, s.acceptor.reactor, ConnId(s.acceptor.fd, Generation(s.acceptor.uid)));
  }

  lemma SetupContexts(s: State, a: Action)
    requires SetupAction(a) && Enabled(s, a) && Enrolled(s) && Contexts(s) && Tasks(s) && Ops(s)
    ensures Contexts(SetupStep(s, a))
  {
    hide Ops, Tasks;
    var t := SetupStep(s, a);
    forall k | k in t.ctxs ensures CtxOk(t, k) {
      if a == Insert && k == Slot(s.acceptor.reactor, s.acceptor.fd) {
        InsertedCtx(s);
      } else {
        assert CtxOk(s, k);
        var c := s.ctxs[k];
        assert Outstanding(t, k.reactor, IdOf(k, c), c.uid) == Outstanding(s, k.reactor, IdOf(k, c), c.uid);
      }
    }
  }

  lemma SetupBindings(s: State, a: Action)
    requires SetupAction(a) && Enabled(s, a) && Enrolled(s) && Bindings(s)
    ensures Bindings(SetupStep(s, a)) && Enrolled(SetupStep(s, a))
  {
    var t := SetupStep(s, a);
    forall f | f in t.conns ensures BindingOk(t, f) { if f in s.conns { assert BindingOk(s, f); } }
  }

  lemma SetupTasks(s: State, a: Action)
    requires SetupAction(a) && Enabled(s, a) && Enrolled(s) && Tasks(s)
    ensures Tasks(SetupStep(s, a))
  {
    var t := SetupStep(s, a);
    forall x | x in t.tasks ensures TaskOk(t, x) { assert TaskOk(s, x); }
  }

  lemma SetupOps(s: State, a: Action)
    requires SetupAction(a) && Enabled(s, a) && Enrolled(s) && Ops(s)
    ensures Ops(SetupStep(s, a))
  {
    var t := SetupStep(s, a);
    forall q | 0 <= q < |t.reactors| ensures OpOk(t, q) { assert OpOk(s, q); }
  }

  lemma SetupQueues(s: State, a: Action)
    requires SetupAction(a) && Enabled(s, a) && Queues(s)
    ensures Queues(SetupStep(s, a))
  {
    var t := SetupStep(s, a);
    forall q | 0 <= q < |t.reactors| ensures QueuesOk(t, q) {
      assert QueuesOk(s, q);
      forall p | Known(s, q, p) ensures Known(t, q, p) {}
      forall id | IdleId(s, q, id) ensures IdleId(t, q, id) {
        var u :| Collected(s, q, id, u);
        assert Collected(t, q, id, u);
      }
    }
  }

  lemma SetupOwn(s: State, a: Action)
    requires SetupAction(a) && Enabled(s, a) && Own(s)
    ensures Own(SetupStep(s, a))
  {
    hide Enrolled, Bindings, Contexts, Ops, Queues, Tasks, SetupStep;
    SetupContexts(s, a);
    SetupBindings(s, a);
    SetupTasks(s, a);
    SetupOps(s, a);
    SetupQueues(s, a);
  }

  // ---------- The event loop ----------

  lemma TodoOwn(s: State, r: nat, b: Reactor)
    requires Own(s) && r < |s.reactors| && b.op == s.reactors[r].op && (b.op.Submitting? ==> !b.todo.Sweep?)
    requires forall p :: p in b.pending ==> Known(s, r, p)
    requires b.todo.Wake? ==> forall p :: p in b.todo.items ==> Known(s, r, p)
    requires b.todo.Sweep? ==> forall id :: id in b.todo.ids ==> IdleId(s, r, id)
    requires b.todo.HangupCheck? ==> PeerOf(s, r, b.todo.fd, b.todo.uid)
    ensures Own(WithReactor(s, r, b))
  {
    var t := WithReactor(s, r, b);
    TodoContexts(s, r, b);
    TodoQueues(s, r, b);
    hide Bindings, Contexts, Queues;
    TodoOps(s, r, b);
  }

  lemma TodoOps(s: State, r: nat, b: Reactor)
    requires Ops(s) && Tasks(s) && r < |s.reactors| && b.op == s.reactors[r].op && (b.op.Submitting? ==> !b.todo.Sweep?)
    ensures Ops(WithReactor(s, r, b)) && Tasks(WithReactor(s, r, b))
  {
    var t := WithReactor(s, r, b);
    forall x | x in t.tasks ensures TaskOk(t, x) { assert TaskOk(s, x); }
    hide Tasks, TaskOk;
    forall q | 0 <= q < |t.reactors| ensures OpOk(t, q) { assert OpOk(s, q); }
  }

  lemma TodoQueues(s: State, r: nat, b: Reactor)
    requires Queues(s) && r < |s.reactors|
    requires forall p :: p in b.pending ==> Known(s, r, p)
    requires b.todo.Wake? ==> forall p :: p in b.todo.items ==> Known(s, r, p)
    requires b.todo.Sweep? ==> forall id :: id in b.todo.ids ==> IdleId(s, r, id)
    requires b.todo.HangupCheck? ==> PeerOf(s, r, b.todo.fd, b.todo.uid)
    ensures Queues(WithReactor(s, r, b))
  {
    var t := WithReactor(s, r, b);
    forall q | 0 <= q < |t.reactors| ensures QueuesOk(t, q) {
      assert QueuesOk(s, q);
      SameIdle(s, t, q);
    }
  }

  lemma TodoContexts(s: State, r: nat, b: Reactor)
    requires Contexts(s) && Bindings(s) && r < |s.reactors| && b.op == s.reactors[r].op
    ensures Contexts(WithReactor(s, r, b)) && Bindings(WithReactor(s, r, b))
  {
    var t := WithReactor(s, r, b);
    forall k | k in t.ctxs ensures CtxOk(t, k) {
      assert CtxOk(s, k);
      var c := s.ctxs[k];
      assert Outstanding(t, k.reactor, IdOf(k, c), c.uid) == Outstanding(s, k.reactor, IdOf(k, c), c.uid);
    }
    forall f | f in t.conns ensures BindingOk(t, f) { assert BindingOk(s, f); }
  }

  /** Queues stay as they are when a reactor turns to something without identities. */
  lemma LaterTodo(s: State, r: nat, todo: Todo)
    requires Own(s) && r < |s.reactors| && (todo.Nothing? || (todo.HangupCheck? && PeerOf(s, r, todo.fd, todo.uid)))
    ensures Own(WithTodo(s, r, todo))
  {
    assert QueuesOk(s, r);
    hide Own;
    TodoOwn(s, r, s.reactors[r].(todo := todo));
  }

  // ---------- Handlers ----------

  /** Reactor r's thread may act on the connection: it has its context, is in no other call,
      the connection is bound and the accepting thread is done with it. */
  ghost predicate MayAct(s: State, r: nat, id: ConnId) {
    && Own(s) && r < |s.reactors| && s.reactors[r].op == Free && !s.reactors[r].todo.Sweep?
    && Has(s, r, id.fd) && Ctxt(s, r, id.fd).gen == id.gen && !InSetup(s, Ctxt(s, r, id.fd).uid)
    && BoundTo(s, id.fd, Ctxt(s, r, id.fd).uid)
  }

  lemma PutMay(s: State, r: nat, id: ConnId, c: Ctx)
    requires MayAct(s, r, id) && SameCtx(Ctxt(s, r, id.fd), c)
    ensures MayAct(Put(s, r, id.fd, c), r, id)
  {
    hide Own;
    PutOwn(s, r, id.fd, c);
  }

  lemma RearmMay(s: State, r: nat, id: ConnId, arm: Arm)
    requires MayAct(s, r, id)
    ensures MayAct(Rearm(s, r, id, arm), r, id)
  {
    hide Own;
    KernelOwn(s, Rearm(s, r, id, arm));
  }

  lemma DispatchOwn(s: State, r: nat, id: ConnId, parsed: Parsed)
    requires MayAct(s, r, id)
    ensures Own(DispatchBuffered(s, r, id, parsed))
  {
    hide Own, BeginSubmit, Rearm;
    RearmMay(s, r, id, Reading);
    BeginSubmitOwn(s, r, id, Ctxt(s, r, id.fd).uid);
  }

  lemma ReadOwn(s: State, r: nat, id: ConnId, input: Input)
    requires MayAct(s, r, id)
    ensures Own(HandleRead(s, r, id, input))
  {
    hide Own, BeginSubmit, Rearm, DispatchBuffered, CloseConnection;
    RearmMay(s, r, id, Reading);
    BeginSubmitOwn(s, r, id, Ctxt(s, r, id.fd).uid);
    CloseConnectionOwn(s, r, id.fd);
    if input.Bytes? { DispatchOwn(s, r, id, input.parsed); }
  }

  lemma CurrentIsOwn(s: State, r: nat, fd: nat)
    requires Own(s) && Has(s, r, fd)
    ensures SameCtx(Ctxt(s, r, fd), Ctxt(s, r, fd))
  {
    assert CtxOk(s, Slot(r, fd));
  }

  lemma WriteOwn(s: State, r: nat, id: ConnId, out: Output, rest: Option<Parsed>)
    requires MayAct(s, r, id)
    ensures Own(WriteCurrent(s, r, id.fd, out, rest))
  {
    hide Own, Rearm, DispatchBuffered, CloseConnection, Completes, SentNow;
    var c := Ctxt(s, r, id.fd);
    if c.current.Some? {
      CurrentIsOwn(s, r, id.fd);
      var d := if Completes(c, out) then c.(offset := 0, current := None) else c.(offset := c.offset + SentNow(c, out));
      var t := Put(s, r, id.fd, d);
      PutMay(s, r, id, d);
      CloseConnectionOwn(t, r, id.fd);
      RearmMay(t, r, id, Writing);
      RearmMay(t, r, id, Reading);
      if rest.Some? { DispatchOwn(Rearm(t, r, id, Reading), r, id, rest.value); }
    }
  }

  lemma HandleWriteOwn(s: State, r: nat, id: ConnId, out: Output, rest: Option<Parsed>)
    requires MayAct(s, r, id)
    ensures Own(HandleWrite(s, r, id.fd, out, rest))
  {
    hide Own, Rearm, WriteCurrent;
    RearmMay(s, r, id, Reading);
    WriteOwn(s, r, id, out, rest);
  }

  /** The context found for an event that passes the ownership check is that of the
      connection its identity was made for. */
  lemma OwnedCtx(s: State, r: nat, id: ConnId)
    requires Own(s) && Owns(s, r, id) && Announced(s, id)
    ensures PeerOf(s, r, id.fd, s.conns[id.fd].uid) && !InSetup(s, s.conns[id.fd].uid)
    ensures Has(s, r, id.fd) ==> CtxOf(s, r, id.fd, s.conns[id.fd].uid) && Ctxt(s, r, id.fd).gen == id.gen
  {
    assert BindingOk(s, id.fd);
    if Has(s, r, id.fd) { assert CtxOk(s, Slot(r, id.fd)); }
  }

  lemma ReadTodo(s: State, r: nat, id: ConnId, input: Input)
    requires r < |s.reactors|
    ensures |HandleRead(s, r, id, input).reactors| == |s.reactors| && HandleRead(s, r, id, input).peers == s.peers
  {}

  lemma HandleOwn(s: State, r: nat, id: ConnId, event: Event)
    requires Own(s) && Enabled(s, Handle(r, id, event))
    ensures Own(HandleStep(s, r, id, event))
  {
    hide Own, HandleRead, WriteCurrent, Rearm;
    if Owns(s, r, id) {
      OwnedCtx(s, r, id);
      match event
      case In(input) => if Has(s, r, id.fd) { ReadOwn(s, r, id, input); } else { NoCtxRead(s, r, id, input); }
      case Out(output, rest) => if Has(s, r, id.fd) { HandleWriteOwn(s, r, id, output, rest); }
      case Hup(first) =>
        if first.Some? {
          if Has(s, r, id.fd) { ReadOwn(s, r, id, first.value); } else { NoCtxRead(s, r, id, first.value); }
        }
        var t := if first.Some? then HandleRead(s, r, id, first.value) else s;
        ReadTodo(s, r, id, if first.Some? then first.value else NoData);
        LaterTodo(t, r, HangupCheck(id.fd, s.conns[id.fd].uid));
    }
  }

  lemma NoCtxRead(s: State, r: nat, id: ConnId, input: Input)
    requires r < |s.reactors| && !Has(s, r, id.fd)
    ensures HandleRead(s, r, id, input) == s
  {}

  lemma CheckHangupOwn(s: State, r: nat)
    requires Own(s) && Enabled(s, CheckHangup(r))
    ensures Own(CheckHangupStep(s, r))
  {
    hide Own, CloseConnection;
    LaterTodo(s, r, Nothing);
    CloseConnectionOwn(WithTodo(s, r, Nothing), r, s.reactors[r].todo.fd);
  }

  lemma TakePendingOwn(s: State, r: nat)
    requires Own(s) && Enabled(s, TakePending(r))
    ensures Own(Step(s, TakePending(r)))
  {
    assert QueuesOk(s, r);
    hide Own;
    TodoOwn(s, r, Reactor([], Wake(s.reactors[r].pending), Free));
  }

  lemma CollectIdleOwn(s: State, r: nat, ids: seq<ConnId>)
    requires Own(s) && Enabled(s, CollectIdle(r, ids))
    ensures Own(Step(s, CollectIdle(r, ids)))
  {
    assert QueuesOk(s, r);
    forall id | id in ids ensures IdleId(s, r, id) {
      assert MayBeIdle(s, r, id) && CtxOk(s, Slot(r, id.fd));
      assert Collected(s, r, id, Ctxt(s, r, id.fd).uid);
    }
    hide Own;
    TodoOwn(s, r, s.reactors[r].(todo := Sweep(ids)));
  }

  /** A posted response that finds a context of its identity may be delivered there. */
  lemma DeliverTarget(s: State, r: nat, p: Pending)
    requires Own(s) && Known(s, r, p) && Owns(s, r, p.id) && Has(s, r, p.id.fd) && Ctxt(s, r, p.id.fd).gen == p.id.gen
    ensures CtxOf(s, r, p.id.fd, p.response.uid) && BoundTo(s, p.id.fd, p.response.uid)
  {
    CloseTarget(s, r, p.id, p.response.uid);
    assert CtxOk(s, Slot(r, p.id.fd));
    SameUid(s, r, p.id, p.response.uid, Ctxt(s, r, p.id.fd).uid);
  }

  lemma DeliverOwn(s: State, r: nat, p: Pending, out: Output, rest: Option<Parsed>)
    requires Own(s) && r < |s.reactors| && s.reactors[r].op == Free && s.reactors[r].todo.Wake? && Known(s, r, p)
    ensures Own(Deliver(s, r, p, out, rest))
  {
    hide Own, WriteCurrent;
    if Owns(s, r, p.id) && Has(s, r, p.id.fd) && Ctxt(s, r, p.id.fd).gen == p.id.gen {
      DeliverTarget(s, r, p);
      var d := Ctxt(s, r, p.id.fd).(current := Some(p.response), keepAlive := p.keepAlive, offset := 0);
      PutMay(s, r, p.id, d);
      WriteOwn(Put(s, r, p.id.fd, d), r, p.id, out, rest);
    }
  }

  lemma DeliverNextOwn(s: State, r: nat, out: Output, rest: Option<Parsed>)
    requires Own(s) && Enabled(s, DeliverNext(r, out, rest))
    ensures Own(DeliverStep(s, r, out, rest))
  {
    var items := s.reactors[r].todo.items;
    assert QueuesOk(s, r);
    LaterTodo(s, r, Nothing);
    hide Own, Deliver;
    if items != [] {
      var t := WithTodo(s, r, Wake(items[1..]));
      assert items[0] in items && Known(s, r, items[0]);
      TodoOwn(s, r, s.reactors[r].(todo := Wake(items[1..])));
      DeliverOwn(t, r, items[0], out, rest);
    }
  }

  lemma SweepOwn(s: State, r: nat)
    requires Own(s) && Enabled(s, SweepNext(r))
    ensures Own(SweepStep(s, r))
  {
    var ids := s.reactors[r].todo.ids;
    assert QueuesOk(s, r);
    LaterTodo(s, r, Nothing);
    if ids != [] {
      assert IdleId(s, r, ids[0]);
      var u :| Collected(s, r, ids[0], u);
      var t := WithTodo(s, r, Sweep(ids[1..]));
      hide Own, BeginClose;
      TodoOwn(s, r, s.reactors[r].(todo := Sweep(ids[1..])));
      BeginCloseOwn(t, r, ids[0], u);
    }
  }

  // ---------- Every step ----------

  lemma StepOwn(s: State, a: Action)
    requires Own(s) && Enabled(s, a) && (a.Accept? ==> |s.peers| < SocketCompat.PERIOD)
    ensures Own(Step(s, a))
  {
    hide Own, AcceptStep, SetupStep, HandleStep, CheckHangupStep, DeliverStep, SweepStep, SubmitStep;
    hide FinishCloseStep, ExecuteStep, MarkInFlight, Idle, MayBeIdle, Announced;
    match a
    case Accept(fd) => AcceptOwn(s, fd);
    case ClearStale => SetupOwn(s, a);
    case Register => SetupOwn(s, a);
    case Insert => SetupOwn(s, a);
    case AddToEpoll(ok) => if ok { SetupOwn(s, a); } else { RollbackOwn(s); }
    case Harvest(r, fd) => KernelOwn(s, Step(s, a));
    case Handle(r, id, event) => HandleOwn(s, r, id, event);
    case CheckHangup(r) => CheckHangupOwn(s, r);
    case TakePending(r) => TakePendingOwn(s, r);
    case DeliverNext(r, out, rest) => DeliverNextOwn(s, r, out, rest);
    case CollectIdle(r, ids) => CollectIdleOwn(s, r, ids);
    case SweepNext(r) => SweepOwn(s, r);
    case Submit(r, ok) => SubmitOwn(s, r, ok);
    case FinishClose(r) => FinishCloseOwn(s, r);
    case Execute(task, data, keepAlive, posts) => ExecuteOwn(s, task, data, keepAlive, posts);
    case Leave(task) => LeaveOwn(s, task);
  }

  lemma InitialOwn(n: nat)
    ensures Own(Initial(n))
  {}
}
