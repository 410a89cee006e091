/** What holds in every reachable state of the connection protocol, whatever the
    interleaving and however the kernel reuses descriptors, and what only holds as long as
    every rollback finds its registration. */
module ConnectionSafety {
  import opened Text
  import opened ConnectionState
  import opened ConnectionInvariant
  import opened ConnectionOwnership

  /** The state after the steps of run, from the start of a server with n reactors; None
      when a step is not possible or the generation counter has gone round. */
  function Exec(n: nat, run: seq<Action>): Option<State> {
    if run == [] then Some(Initial(n))
    else
      match Exec(n, run[..|run| - 1])
      case None => None
      case Some(t) => if Possible(t, run[|run| - 1]) then Some(Step(t, run[|run| - 1])) else None
  }

  predicate Possible(t: State, a: Action) { Enabled(t, a) && (a.Accept? ==> |t.peers| < SocketCompat.PERIOD) }

  /** Whenever epoll_ctl ADD failed, the new connection was still registered. */
  predicate IntactRun(n: nat, run: seq<Action>)
    requires Exec(n, run).Some?
  {
    run == [] || (IntactRun(n, run[..|run| - 1]) && Intact(Exec(n, run[..|run| - 1]).value, run[|run| - 1]))
  }

  predicate Reaches(n: nat, run: seq<Action>, s: State) { Exec(n, run) == Some(s) && IntactRun(n, run) }

  /** Identities, counters and queues are in order after any run whatsoever. */
  lemma {:induction false} OwnAlways(n: nat, run: seq<Action>, s: State)
    requires Exec(n, run) == Some(s)
    ensures Own(s)
  {
    hide Own, Enabled, Step;
    if run == [] {
      InitialOwn(n);
    } else {
      OwnAlways(n, run[..|run| - 1], Exec(n, run[..|run| - 1]).value);
      StepOwn(Exec(n, run[..|run| - 1]).value, run[|run| - 1]);
    }
  }

  lemma InitialInv(n: nat)
    ensures Inv(Initial(n))
  {
    InitialOwn(n);
  }

  /** Tables, contexts and sockets are, while rollbacks are intact. */
  lemma {:induction false} ReachableInv(n: nat, run: seq<Action>, s: State)
    requires Reaches(n, run, s)
    ensures Inv(s)
  {
    hide Inv, Enabled, Intact, Step;
    if run == [] {
      InitialInv(n);
    } else {
      var t := Exec(n, run[..|run| - 1]).value;
      ReachableInv(n, run[..|run| - 1], t);
      StepKeeps(t, run[|run| - 1]);
    }
  }

  // ---------- Responses ----------

  /** The response that a connection is sending answers a request read from that very
      connection. */
  lemma {:induction false} CurrentResponseIsOwn(n: nat, run: seq<Action>, s: State, r: nat, fd: nat)
    requires Exec(n, run) == Some(s) && Has(s, r, fd) && Ctxt(s, r, fd).current.Some?
    ensures Ctxt(s, r, fd).current.value.uid == Ctxt(s, r, fd).uid
  {
    OwnAlways(n, run, s);
    assert CtxOk(s, Slot(r, fd));
  }

  predicate Posted(s: State, r: nat, p: Pending) {
    r < |s.reactors| && (p in s.reactors[r].pending || (s.reactors[r].todo.Wake? && p in s.reactors[r].todo.items))
  }

  /** A posted response passes the ownership check exactly while the connection it answers is
      bound; then any context it meets is that connection's, and otherwise it is dropped
      without a trace, whatever has its descriptor. */
  lemma {:induction false} StaleResponseIsDropped(n: nat, run: seq<Action>, s: State, r: nat, p: Pending, out: Output, rest: Option<Parsed>)
    requires Exec(n, run) == Some(s) && Posted(s, r, p)
    ensures Owns(s, r, p.id) <==> BoundTo(s, p.id.fd, p.response.uid)
    ensures !BoundTo(s, p.id.fd, p.response.uid) ==> Deliver(s, r, p, out, rest) == s
    ensures BoundTo(s, p.id.fd, p.response.uid) && Has(s, r, p.id.fd) ==> CtxOf(s, r, p.id.fd, p.response.uid)
    ensures BoundTo(s, p.id.fd, p.response.uid) && IntactRun(n, run) ==> Has(s, r, p.id.fd)
  {
    OwnAlways(n, run, s);
    assert QueuesOk(s, r) && Known(s, r, p);
    PostedOwner(s, r, p);
    if BoundTo(s, p.id.fd, p.response.uid) && IntactRun(n, run) {
      ReachableInv(n, run, s);
      BoundHas(s, r, p);
    }
    hide Own, IntactRun, Exec;
  }

  lemma PostedOwner(s: State, r: nat, p: Pending)
    requires Enrolled(s) && Bindings(s) && Known(s, r, p)
    ensures Owns(s, r, p.id) <==> BoundTo(s, p.id.fd, p.response.uid)
    ensures BoundTo(s, p.id.fd, p.response.uid) && Has(s, r, p.id.fd) ==> CtxOf(s, r, p.id.fd, p.response.uid)
  {
    if p.id.fd in s.conns { assert BindingOk(s, p.id.fd); }
    SocketCompat.GenerationsRepeatAfterPeriod(p.response.uid, p.response.uid);
    if Owns(s, r, p.id) { CloseTarget(s, r, p.id, p.response.uid); }
  }

  lemma BoundHas(s: State, r: nat, p: Pending)
    requires Inv(s) && Known(s, r, p) && BoundTo(s, p.id.fd, p.response.uid)
    ensures Has(s, r, p.id.fd)
  {
    assert TableOk(s, p.id.fd) && BindingOk(s, p.id.fd);
  }

  // ---------- Tables and sockets ----------

  /** A bound descriptor has one context, in its owner only, with the same generation, apart
      from the moment between registering and inserting; a context's descriptor is bound to
      it, apart from the moment its own reactor is closing it. */
  lemma {:induction false} TablesAgree(n: nat, run: seq<Action>, s: State)
    requires Reaches(n, run, s)
    ensures forall fd :: fd in s.conns && s.conns[fd].context ==>
      var b := s.conns[fd];
      if AtStage(s, Registered) && s.acceptor.fd == fd then forall r :: !Has(s, r, fd)
      else forall r :: Has(s, r, fd) <==> r == b.owner
    ensures forall k :: k in s.ctxs ==>
      || (k.fd in s.conns && s.conns[k.fd] == Binding(s.ctxs[k].gen, k.reactor, true, s.ctxs[k].uid))
      || BeingClosed(s, k.reactor, k.fd, s.ctxs[k].uid)
  {
    ReachableInv(n, run, s);
  }

  /** What a reactor writes for a connection goes into that connection's own socket. */
  lemma {:induction false} SocketIsOwn(n: nat, run: seq<Action>, s: State, r: nat, fd: nat)
    requires Reaches(n, run, s) && Has(s, r, fd)
    ensures IsOpen(s, fd, Ctxt(s, r, fd).uid)
  {
    ReachableInv(n, run, s);
    assert SocketOk(s, Slot(r, fd));
  }

  /** No accepted connection is lost or closed twice: it is open and never closed, or closed
      exactly once; and no close ever hit another socket. */
  lemma ClosedAtMostOnce(n: nat, run: seq<Action>, s: State, uid: nat)
    requires Reaches(n, run, s) && uid < |s.peers|
    ensures s.closes[uid] == if IsOpen(s, s.peers[uid].fd, uid) then 0 else 1
    ensures s.stray == 0
  {
    ReachableInv(n, run, s);
  }

  // ---------- Exactly when nothing is closed twice ----------

  ghost predicate InClosing(s: State, uid: nat) {
    exists r :: 0 <= r < |s.reactors| && s.reactors[r].op.Closing? && s.reactors[r].op.uid == uid
  }

  /** The closes of a connection, made and begun. */
  ghost function Committed(s: State, uid: nat): nat { s.closes[uid] + if InClosing(s, uid) then 1 else 0 }

  ghost predicate OpsKept(s: State, t: State) {
    && |t.reactors| == |s.reactors| && t.closes == s.closes
    && forall q :: 0 <= q < |s.reactors| && s.reactors[q].op.Closing? ==> t.reactors[q].op == s.reactors[q].op
  }

  lemma KeptCommitted(s: State, t: State, uid: nat)
    requires OpsKept(s, t)
    ensures Committed(t, uid) >= Committed(s, uid)
  {
    if InClosing(s, uid) {
      var r :| 0 <= r < |s.reactors| && s.reactors[r].op.Closing? && s.reactors[r].op.uid == uid;
      assert t.reactors[r].op == s.reactors[r].op;
    }
  }

  lemma CloseKeepsOps(s: State, r: nat, fd: nat)
    requires r < |s.reactors| && s.reactors[r].op == Free
    ensures OpsKept(s, CloseConnection(s, r, fd))
  {}

  lemma DispatchKeepsOps(s: State, r: nat, id: ConnId, parsed: Parsed)
    requires r < |s.reactors| && s.reactors[r].op == Free
    ensures OpsKept(s, DispatchBuffered(s, r, id, parsed))
  {
    hide CloseConnection;
    CloseKeepsOps(s, r, id.fd);
  }

  lemma ReadKeepsOps(s: State, r: nat, id: ConnId, input: Input)
    requires r < |s.reactors| && s.reactors[r].op == Free
    ensures OpsKept(s, HandleRead(s, r, id, input))
  {
    hide CloseConnection, DispatchBuffered;
    CloseKeepsOps(s, r, id.fd);
    if input.Bytes? { DispatchKeepsOps(s, r, id, input.parsed); }
  }

  lemma WriteKeepsOps(s: State, r: nat, fd: nat, out: Output, rest: Option<Parsed>)
    requires r < |s.reactors| && s.reactors[r].op == Free && Has(s, r, fd)
    ensures OpsKept(s, WriteCurrent(s, r, fd, out, rest))
  {
    hide Completes, SentNow, CloseConnection, DispatchBuffered;
    var c := Ctxt(s, r, fd);
    if c.current.Some? {
      var t := Put(s, r, fd, if Completes(c, out) then c.(offset := 0, current := None) else c.(offset := c.offset + SentNow(c, out)));
      CloseKeepsOps(t, r, fd);
      if rest.Some? { DispatchKeepsOps(Rearm(t, r, ConnId(fd, c.gen), Reading), r, ConnId(fd, c.gen), rest.value); }
    }
  }

  lemma DeliverKeepsOps(s: State, r: nat, out: Output, rest: Option<Parsed>)
    requires Enabled(s, DeliverNext(r, out, rest))
    ensures OpsKept(s, DeliverStep(s, r, out, rest))
  {
    hide WriteCurrent;
    var items := s.reactors[r].todo.items;
    if items != [] {
      var t := WithTodo(s, r, Wake(items[1..]));
      var p := items[0];
      if Owns(t, r, p.id) && Has(t, r, p.id.fd) && Ctxt(t, r, p.id.fd).gen == p.id.gen {
        var c := Ctxt(t, r, p.id.fd);
        WriteKeepsOps(Put(t, r, p.id.fd, c.(current := Some(p.response), keepAlive := p.keepAlive, offset := 0)), r, p.id.fd, out, rest);
      }
    }
  }

  predicate ClosesNow(a: Action) { a.FinishClose? || a == AddToEpoll(false) }

  lemma HandleKeepsOps(s: State, r: nat, id: ConnId, event: Event)
    requires Enabled(s, Handle(r, id, event))
    ensures OpsKept(s, HandleStep(s, r, id, event))
  {
    hide HandleRead, WriteCurrent, CloseConnection;
    CloseKeepsOps(s, r, id.fd);
    if event.In? { ReadKeepsOps(s, r, id, event.input); }
    if event.Out? && Has(s, r, id.fd) { WriteKeepsOps(s, r, id.fd, event.output, event.rest); }
    if event.Hup? && event.first.Some? { ReadKeepsOps(s, r, id, event.first.value); }
  }

  lemma SetupKeepsOps(s: State, a: Action)
    requires Enabled(s, a) && (a.Accept? || a.ClearStale? || a.Register? || a.Insert? || a == AddToEpoll(true))
    ensures OpsKept(s, Step(s, a))
  {
    hide HandleStep, DeliverStep, CheckHangupStep, SweepStep, SubmitStep, FinishCloseStep, ExecuteStep, MarkInFlight;
  }

  lemma SweepKeepsOps(s: State, r: nat)
    requires Enabled(s, SweepNext(r))
    ensures OpsKept(s, SweepStep(s, r))
  {}

  lemma LoopKeepsOps(s: State, a: Action)
    requires Enabled(s, a) && (a.Harvest? || a.CheckHangup? || a.TakePending? || a.CollectIdle? || a.SweepNext?)
    ensures OpsKept(s, Step(s, a))
  {
    hide HandleStep, DeliverStep, AcceptStep, SetupStep, SubmitStep, FinishCloseStep, ExecuteStep, MarkInFlight, SweepStep;
    if a.SweepNext? { SweepKeepsOps(s, a.r); }
  }

  lemma MarkOnlyCounts(s: State, r: nat, id: ConnId, enter: bool)
    ensures MarkInFlight(s, r, id, enter) == s.(ctxs := MarkInFlight(s, r, id, enter).ctxs)
  {}

  lemma SubmitKeepsOps(s: State, r: nat, ok: bool)
    requires Enabled(s, Submit(r, ok))
    ensures OpsKept(s, SubmitStep(s, r, ok))
  {
    MarkOnlyCounts(WithOp(s, r, Free), r, s.reactors[r].op.id, false);
    hide MarkInFlight;
  }

  lemma ExecuteKeepsOps(s: State, x: Task, data: string, keepAlive: bool, posts: bool)
    requires Enabled(s, Execute(x, data, keepAlive, posts))
    ensures OpsKept(s, ExecuteStep(s, x, data, keepAlive, posts))
  {}

  lemma TaskKeepsOps(s: State, a: Action)
    requires Enabled(s, a) && (a.Submit? || a.Execute? || a.Leave?)
    ensures OpsKept(s, Step(s, a))
  {
    hide HandleStep, DeliverStep, AcceptStep, SetupStep, CheckHangupStep, SweepStep, FinishCloseStep, SubmitStep;
    hide ExecuteStep, MarkInFlight;
    if a.Submit? { SubmitKeepsOps(s, a.r, a.ok); }
    if a.Execute? { ExecuteKeepsOps(s, a.task, a.data, a.keepAlive, a.posts); }
    if a.Leave? { MarkOnlyCounts(s.(tasks := s.tasks - multiset{a.task}), a.task.reactor, a.task.id, false); }
  }

  lemma StepKeepsOps(s: State, a: Action)
    requires Enabled(s, a) && !ClosesNow(a)
    ensures OpsKept(s, Step(s, a))
  {
    hide OpsKept, HandleStep, DeliverStep, AcceptStep, SetupStep, CheckHangupStep, SweepStep, SubmitStep;
    hide ExecuteStep, Enabled;
    if a.Handle? { HandleKeepsOps(s, a.r, a.id, a.event); }
    else if a.DeliverNext? { DeliverKeepsOps(s, a.r, a.output, a.rest); }
    else if a.Harvest? || a.CheckHangup? || a.TakePending? || a.CollectIdle? || a.SweepNext? { LoopKeepsOps(s, a); }
    else if a.Submit? || a.Execute? || a.Leave? { TaskKeepsOps(s, a); }
    else { SetupKeepsOps(s, a); }
  }

  lemma StepCommits(s: State, a: Action, uid: nat)
    requires Enabled(s, a)
    ensures Committed(Step(s, a), uid) >= Committed(s, uid)
  {
    if !ClosesNow(a) {
      StepKeepsOps(s, a);
      KeptCommitted(s, Step(s, a), uid);
    } else {
      FinishCommits(s, a, uid);
    }
  }

  lemma FinishCommits(s: State, a: Action, uid: nat)
    requires Enabled(s, a) && ClosesNow(a)
    ensures Committed(Step(s, a), uid) >= Committed(s, uid)
  {
    var t := Step(s, a);
    if InClosing(s, uid) {
      var r :| 0 <= r < |s.reactors| && s.reactors[r].op.Closing? && s.reactors[r].op.uid == uid;
      if a != FinishClose(r) { assert t.reactors[r].op == s.reactors[r].op; }
    }
  }

  lemma InvCommitted(s: State, uid: nat)
    requires Inv(s)
    ensures Committed(s, uid) <= 1
  {
    if InClosing(s, uid) {
      var r :| 0 <= r < |s.reactors| && s.reactors[r].op.Closing? && s.reactors[r].op.uid == uid;
      CloserHolds(s, r);
      assert OpOk(s, r);
    }
  }

  lemma BoundIsOwned(s: State)
    requires Inv(s) && s.acceptor.Setup? && BoundTo(s, s.acceptor.fd, s.acceptor.uid)
    ensures Intact(s, AddToEpoll(false))
  {
    assert TableOk(s, s.acceptor.fd);
    SocketCompat.GenerationsRepeatAfterPeriod(s.acceptor.uid, s.acceptor.uid);
  }

  lemma BrokenRollbackCommitsTwice(s: State)
    requires Inv(s) && Enabled(s, AddToEpoll(false)) && !Intact(s, AddToEpoll(false))
    ensures Committed(Step(s, AddToEpoll(false)), s.acceptor.uid) >= 2
  {
    var a := s.acceptor;
    var t := Step(s, AddToEpoll(false));
    assert !BoundTo(s, a.fd, a.uid) by {
      if BoundTo(s, a.fd, a.uid) { BoundIsOwned(s); }
    }
    if a.fd in s.open {
      assert CtxOk(s, Slot(a.reactor, a.fd));
      assert BeingClosed(s, a.reactor, a.fd, a.uid);
      assert t.reactors[a.reactor].op == s.reactors[a.reactor].op;
    }
  }

  lemma {:induction false} BrokenRunCommitsTwice(n: nat, run: seq<Action>, s: State) returns (uid: nat)
    requires Exec(n, run) == Some(s) && !IntactRun(n, run)
    ensures Committed(s, uid) >= 2
  {
    hide Inv, Committed, Step, Enabled, Intact;
    var t := Exec(n, run[..|run| - 1]).value;
    if IntactRun(n, run[..|run| - 1]) {
      ReachableInv(n, run[..|run| - 1], t);
      assert t.acceptor.Setup? && run[|run| - 1] == AddToEpoll(false) by { OnlyRollbackBreaks(t, run[|run| - 1]); }
      BrokenRollbackCommitsTwice(t);
      uid := t.acceptor.uid;
    } else {
      uid := BrokenRunCommitsTwice(n, run[..|run| - 1], t);
      StepCommits(t, run[|run| - 1], uid);
    }
  }

  lemma OnlyRollbackBreaks(s: State, a: Action)
    requires !Intact(s, a)
    ensures a == AddToEpoll(false) && s.acceptor.Setup?
  {}

  /** In any run at all, timers and hang-ups at any moment included, no connection is closed
      twice or about to be exactly when every rollback of handleAccept finds its own
      registration in place. */
  lemma {:induction false} ClosedOnceIffRollbacksIntact(n: nat, run: seq<Action>, s: State)
    requires Exec(n, run) == Some(s)
    ensures (forall uid :: Committed(s, uid) <= 1) <==> IntactRun(n, run)
  {
    hide Committed, Inv;
    if IntactRun(n, run) {
      ReachableInv(n, run, s);
      forall uid ensures Committed(s, uid) <= 1 { InvCommitted(s, uid); }
    } else {
      var uid := BrokenRunCommitsTwice(n, run, s);
      assert Committed(s, uid) >= 2;
    }
  }

  // ---------- Identities and counters ----------

  /** closeConnectionId with an identity made for connection uid closes exactly uid, and
      nothing when uid is gone, whoever has its descriptor now. */
  lemma {:induction false} StaleCloseClosesNothing(n: nat, run: seq<Action>, s: State, r: nat, id: ConnId, uid: nat)
    requires Exec(n, run) == Some(s) && r < |s.reactors| && GoodId(s, r, id, uid)
    ensures BoundTo(s, id.fd, uid) ==> BeginClose(s, r, id).reactors[r].op == Closing(id.fd, r, uid)
    ensures !BoundTo(s, id.fd, uid) ==> BeginClose(s, r, id) == s
  {
    OwnAlways(n, run, s);
    BeginCloseIs(s, r, id, uid);
    if id.fd in s.conns { assert BindingOk(s, id.fd); }
    if Matches(s, id) { CloseTarget(s, r, id, uid); }
  }

  /** The in-flight counter counts exactly the connection's own tasks that have not run
      their leave step. */
  lemma {:induction false} InFlightIsOutstanding(n: nat, run: seq<Action>, s: State, r: nat, fd: nat)
    requires Exec(n, run) == Some(s) && Has(s, r, fd)
    ensures Ctxt(s, r, fd).inFlight == Outstanding(s, r, ConnId(fd, Ctxt(s, r, fd).gen), Ctxt(s, r, fd).uid)
  {
    OwnAlways(n, run, s);
    assert CtxOk(s, Slot(r, fd));
  }

  /** So leaving never meets a counter of zero. */
  lemma LeaveNeverClamps(n: nat, run: seq<Action>, s: State, x: Task)
    requires Exec(n, run) == Some(s) && x in s.tasks
    requires Has(s, x.reactor, x.id.fd) && Ctxt(s, x.reactor, x.id.fd).gen == x.id.gen
    ensures Ctxt(s, x.reactor, x.id.fd).inFlight > 0
  {
    OwnAlways(n, run, s);
    assert TaskOk(s, x) && CtxOk(s, Slot(x.reactor, x.id.fd));
    SameUid(s, x.reactor, x.id, x.uid, Ctxt(s, x.reactor, x.id.fd).uid);
  }

  // ---------- Busy connections ----------

  predicate SweepCloses(s: State, r: nat, fd: nat, uid: nat)
    requires Enabled(s, SweepNext(r))
  {
    var ids := s.reactors[r].todo.ids;
    ids != [] && Matches(s, ids[0]) && ids[0].fd == fd && s.conns[fd].uid == uid
  }

  /** The reactor that the timer closes a connection for is the connection's own, and a
      context it has there is without requests in flight. */
  lemma SweepTarget(s: State, r: nat, fd: nat, uid: nat)
    requires Enrolled(s) && Bindings(s) && Queues(s) && Enabled(s, SweepNext(r)) && SweepCloses(s, r, fd, uid)
    ensures GoodId(s, r, s.reactors[r].todo.ids[0], uid)
    ensures CtxOf(s, r, fd, uid) && Ctxt(s, r, fd).gen == Generation(uid) ==> Ctxt(s, r, fd).inFlight <= 0
  {
    var id := s.reactors[r].todo.ids[0];
    assert QueuesOk(s, r) && IdleId(s, r, id);
    var u :| Collected(s, r, id, u);
    hide Queues, Bindings, Enrolled;
    CloseTarget(s, r, id, u);
  }

  /** The timer never closes a connection with a task queued or running. */
  lemma TimerSparesBusyConnections(n: nat, run: seq<Action>, s: State, r: nat, fd: nat, x: Task)
    requires Exec(n, run) == Some(s) && Enabled(s, SweepNext(r)) && x in s.tasks
    ensures !SweepCloses(s, r, fd, x.uid)
  {
    OwnAlways(n, run, s);
    if SweepCloses(s, r, fd, x.uid) {
      SweepTarget(s, r, fd, x.uid);
      BoundBusy(s, r, s.reactors[r].todo.ids[0], x);
    }
  }

  /** A task of a bound connection is counted by a context. */
  lemma BoundBusy(s: State, r: nat, id: ConnId, x: Task)
    requires Contexts(s) && Tasks(s) && x in s.tasks && GoodId(s, r, id, x.uid) && BoundTo(s, id.fd, x.uid)
    ensures CtxOf(s, r, id.fd, x.uid) && Ctxt(s, r, id.fd).gen == id.gen && Ctxt(s, r, id.fd).inFlight > 0
  {
    assert TaskOk(s, x) && CtxOk(s, Slot(r, id.fd));
    BusyCounts(s, r, id.fd, x);
  }

  /** A context counts the tasks of its own connection. */
  lemma BusyCounts(s: State, r: nat, fd: nat, x: Task)
    requires Contexts(s) && Tasks(s) && CtxOf(s, r, fd, x.uid) && x in s.tasks
    ensures Ctxt(s, r, fd).inFlight > 0
  {
    assert CtxOk(s, Slot(r, fd)) && TaskOk(s, x);
  }

  /** Nor does the hang-up branch, nor one with a response still to send. */
  lemma {:induction false} HangupSparesBusyConnections(n: nat, run: seq<Action>, s: State, r: nat)
    requires Exec(n, run) == Some(s) && Enabled(s, CheckHangup(r))
    requires r < |CheckHangupStep(s, r).reactors| && CheckHangupStep(s, r).reactors[r].op.Closing?
    ensures (
        var op := CheckHangupStep(s, r).reactors[r].op;
        && (forall x :: x in s.tasks ==> x.uid != op.uid)
        && CtxOf(s, r, op.fd, op.uid) && Ctxt(s, r, op.fd).current.None?)
  {
    OwnAlways(n, run, s);
    var fd := s.reactors[r].todo.fd;
    CheckTarget(s, r);
    hide Own, CheckHangupStep, Exec;
    forall x | x in s.tasks ensures x.uid != Ctxt(s, r, fd).uid {
      if x.uid == Ctxt(s, r, fd).uid { BusyIn(s, r, fd, x); }
    }
  }

  lemma BusyIn(s: State, r: nat, fd: nat, x: Task)
    requires Own(s) && CtxOf(s, r, fd, x.uid) && x in s.tasks
    ensures Ctxt(s, r, fd).inFlight > 0
  {
    BusyCounts(s, r, fd, x);
  }

  /** What the hang-up check closes is whatever has the descriptor in this reactor now. */
  lemma CheckTarget(s: State, r: nat)
    requires Own(s) && Enabled(s, CheckHangup(r))
    ensures (
        var t, fd := CheckHangupStep(s, r), s.reactors[r].todo.fd;
        && r < |t.reactors|
        && (t.reactors[r].op.Closing?
            <==> Has(s, r, fd) && Matches(s, ConnId(fd, Ctxt(s, r, fd).gen)) && Ctxt(s, r, fd).inFlight <= 0
                 && Ctxt(s, r, fd).current.None?)
        && (t.reactors[r].op.Closing? ==> t.reactors[r].op == Closing(fd, r, Ctxt(s, r, fd).uid)))
  {
    var fd, t := s.reactors[r].todo.fd, WithTodo(s, r, Nothing);
    LaterTodo(s, r, Nothing);
    if Has(t, r, fd) {
      assert CtxOk(t, Slot(r, fd));
      BeginCloseIs(t, r, ConnId(fd, Ctxt(t, r, fd).gen), Ctxt(t, r, fd).uid);
    }
    hide Own, BeginClose, Matches;
    assert Has(s, r, fd) ==> (Matches(t, ConnId(fd, Ctxt(s, r, fd).gen)) <==> Matches(s, ConnId(fd, Ctxt(s, r, fd).gen))) by {
      SameMatches(s, t);
    }
  }

  lemma SameMatches(s: State, t: State)
    requires t.conns == s.conns
    ensures forall id :: Matches(t, id) <==> Matches(s, id)
  {}

  /** It closes no other connection than the one that hung up exactly when the context found
      has that one's generation, or it closes nothing: there is no context, it is busy, or
      its own connection is not registered. The code does not compare. */
  lemma HangupClosesOwnUnlessReused(n: nat, run: seq<Action>, s: State, r: nat)
    requires Exec(n, run) == Some(s) && Enabled(s, CheckHangup(r))
    ensures (
        var t, fd, uid := CheckHangupStep(s, r), s.reactors[r].todo.fd, s.reactors[r].todo.uid;
        && r < |t.reactors|
        && ((t.reactors[r].op.Closing? ==> t.reactors[r].op.uid == uid)
            <==> (!Has(s, r, fd) || Ctxt(s, r, fd).gen == Generation(uid)
                  || Ctxt(s, r, fd).inFlight > 0 || Ctxt(s, r, fd).current.Some?
                  || !Matches(s, ConnId(fd, Ctxt(s, r, fd).gen)))))
  {
    OwnAlways(n, run, s);
    CheckTarget(s, r);
    if Has(s, r, s.reactors[r].todo.fd) { SameGeneration(s, r); }
    hide Own, CheckHangupStep, Generation, Exec, Matches;
  }

  lemma SameGeneration(s: State, r: nat)
    requires Own(s) && Enabled(s, CheckHangup(r)) && Has(s, r, s.reactors[r].todo.fd)
    ensures (
        var c, uid := Ctxt(s, r, s.reactors[r].todo.fd), s.reactors[r].todo.uid;
        c.gen == Generation(uid) <==> c.uid == uid)
  {
    var c, uid := Ctxt(s, r, s.reactors[r].todo.fd), s.reactors[r].todo.uid;
    assert QueuesOk(s, r) && CtxOk(s, Slot(r, s.reactors[r].todo.fd));
    SocketCompat.GenerationsDiffer(c.uid, uid);
  }

  // ---------- Three runs to beware of ----------

  lemma ExecSnoc(n: nat, run: seq<Action>, a: Action)
    requires Exec(n, run).Some? && Possible(Exec(n, run).value, a)
    ensures Exec(n, run + [a]) == Some(Step(Exec(n, run).value, a))
    ensures IntactRun(n, run) && Intact(Exec(n, run).value, a) ==> IntactRun(n, run + [a])
  {
    assert (run + [a])[..|run|] == run;
  }

  /** A reactor in the middle of a handler, with nothing posted to it. */
  function Loop(todo: Todo): Reactor { Reactor([], todo, Free) }

  /** The state of one reactor, with only connection uid, just accepted on descriptor 7. */
  function Alone(uid: nat, b: Reactor, peers: seq<Peer>, closes: multiset<nat>): State {
    State(map[7 := Binding(Generation(uid), 0, true, uid)],
          map[Slot(0, 7) := Ctx(Generation(uid), uid, 0, None, false, 0)],
          map[7 := Reg(0, Generation(uid), Reading)], map[7 := uid],
          multiset{}, [b], Waiting, peers, closes, 0)
  }

  predicate Accepting(s: State, b: Reactor) {
    && s.acceptor.Waiting? && s.open == map[] && s.ctxs == map[] && s.epoll == map[] && s.tasks == multiset{} && s.stray == 0
    && s.reactors == [b] && b.pending == [] && s.conns.Keys <= {7} && |s.peers| < 5
  }

  function Midway(s: State, stage: Stage): State {
    var uid := |s.peers|;
    s.(open := map[7 := uid], peers := s.peers + [Peer(7, 0)], acceptor := Setup(stage, 7, 0, uid),
       conns := if stage == Opened || stage == Cleared then s.conns else map[7 := Binding(Generation(uid), 0, true, uid)],
       ctxs := if stage == Inserted then map[Slot(0, 7) := Ctx(Generation(uid), uid, 0, None, false, 0)] else map[])
  }

  lemma OpenOne(s: State, b: Reactor)
    requires Accepting(s, b)
    ensures Possible(s, Accept(7)) && Step(s, Accept(7)) == Midway(s, Opened)
    ensures Possible(Midway(s, Opened), ClearStale) && Step(Midway(s, Opened), ClearStale) == Midway(s, Cleared)
  {
    hide Generation;
    assert |s.peers| % 1 == 0;
    assert Midway(s, Opened).reactors[0 := b] == s.reactors;
  }

  lemma RegisterOne(s: State, b: Reactor)
    requires Accepting(s, b)
    ensures Possible(Midway(s, Cleared), Register) && Step(Midway(s, Cleared), Register) == Midway(s, Registered)
    ensures Possible(Midway(s, Registered), Insert) && Step(Midway(s, Registered), Insert) == Midway(s, Inserted)
    ensures Possible(Midway(s, Inserted), AddToEpoll(true))
    ensures Step(Midway(s, Inserted), AddToEpoll(true)) == Alone(|s.peers|, b, s.peers + [Peer(7, 0)], s.closes)
  {
    hide Generation;
  }

  /** Accepting one connection, when no other is open. */
  lemma AcceptOne(n: nat, run: seq<Action>, b: Reactor)
    requires Exec(n, run).Some? && Accepting(Exec(n, run).value, b)
    ensures (
        var s, four := Exec(n, run).value, run + [Accept(7)] + [ClearStale] + [Register] + [Insert];
        && Exec(n, four) == Some(Midway(s, Inserted))
        && Exec(n, four + [AddToEpoll(true)]) == Some(Alone(|s.peers|, b, s.peers + [Peer(7, 0)], s.closes))
        && (IntactRun(n, run) ==> IntactRun(n, four) && IntactRun(n, four + [AddToEpoll(true)])))
  {
    var s := Exec(n, run).value;
    OpenOne(s, b);
    RegisterOne(s, b);
    hide Exec, IntactRun, Step, Possible, Alone, Accepting;
    ExecSnoc(n, run, Accept(7));
    ExecSnoc(n, run + [Accept(7)], ClearStale);
    ExecSnoc(n, run + [Accept(7)] + [ClearStale], Register);
    ExecSnoc(n, run + [Accept(7)] + [ClearStale] + [Register], Insert);
    ExecSnoc(n, run + [Accept(7)] + [ClearStale] + [Register] + [Insert], AddToEpoll(true));
  }

  function HungUp(): State {
    State(map[7 := Binding(Generation(0), -1, false, 0)], map[Slot(0, 7) := Ctx(Generation(0), 0, 0, None, false, 0)],
          map[7 := Reg(0, Generation(0), Reading)], map[7 := 0], multiset{},
          [Reactor([], HangupCheck(7, 0), Closing(7, 0, 0))], Waiting, [Peer(7, 0)], multiset{}, 0)
  }

  function HungUpClosed(): State {
    State(map[7 := Binding(Generation(0), -1, false, 0)], map[], map[], map[], multiset{},
          [Reactor([], HangupCheck(7, 0), Free)], Waiting, [Peer(7, 0)], multiset{0}, 0)
  }

  lemma HangUp()
    ensures (
        var s, a := Alone(0, Loop(Nothing), [Peer(7, 0)], multiset{}), Handle(0, ConnId(7, Generation(0)), Hup(Some(Eof)));
        && Possible(s, a) && Intact(s, a) && Step(s, a) == HungUp()
        && Possible(HungUp(), FinishClose(0)) && Intact(HungUp(), FinishClose(0)) && Step(HungUp(), FinishClose(0)) == HungUpClosed())
  {
    SocketCompat.GenerationsRepeatAfterPeriod(0, 0);
    hide SocketCompat.Generation;
  }

  lemma CheckAfterReuse(s: State)
    requires s == Alone(1, Loop(HangupCheck(7, 0)), [Peer(7, 0), Peer(7, 0)], multiset{0})
    ensures Possible(s, CheckHangup(0)) && Intact(s, CheckHangup(0))
    ensures CheckHangupStep(s, 0).reactors[0].op == Closing(7, 0, 1)
  {
    hide Generation;
  }

  /** The hang-up branch looks its descriptor up again after reading: a connection that was
      accepted meanwhile on the same descriptor and reactor is closed in place of the one
      that hung up, although nothing ever happened on it. */
  lemma {:induction false} HangupMayCloseAnother() returns (run: seq<Action>, s: State)
    ensures Reaches(1, run, s) && Possible(s, CheckHangup(0)) && Intact(s, CheckHangup(0))
    ensures s.peers == [Peer(7, 0), Peer(7, 0)] && s.closes == multiset{0}
    ensures CheckHangupStep(s, 0).reactors[0].op == Closing(7, 0, 1)
  {
    HangUp();
    CheckAfterReuse(Alone(1, Loop(HangupCheck(7, 0)), [Peer(7, 0), Peer(7, 0)], multiset{0}));
    StartsAccepting();
    assert Initial(1).peers + [Peer(7, 0)] == [Peer(7, 0)] && Exec(1, []) == Some(Initial(1)) && IntactRun(1, []);
    assert HungUpClosed().peers + [Peer(7, 0)] == [Peer(7, 0), Peer(7, 0)] && HungUpClosed().closes == multiset{0};
    assert Initial(1).closes == multiset{} && |Initial(1).peers| == 0 && |HungUpClosed().peers| == 1;
    assert Alone(1, Loop(HangupCheck(7, 0)), [Peer(7, 0), Peer(7, 0)], multiset{0}).closes == multiset{0};
    hide *;
    AcceptOne(1, [], Loop(Nothing));
    run := [] + [Accept(7)] + [ClearStale] + [Register] + [Insert] + [AddToEpoll(true)];
    var hup := Handle(0, ConnId(7, Generation(0)), Hup(Some(Eof)));
    ReachSnoc(1, run, Alone(0, Loop(Nothing), [Peer(7, 0)], multiset{}), hup);
    ReachSnoc(1, run + [hup], HungUp(), FinishClose(0));
    run := run + [hup] + [FinishClose(0)];
    ReachExec(1, run, HungUpClosed());
    AcceptOne(1, run, Loop(HangupCheck(7, 0)));
    run := run + [Accept(7)] + [ClearStale] + [Register] + [Insert] + [AddToEpoll(true)];
    s := Alone(1, Loop(HangupCheck(7, 0)), [Peer(7, 0), Peer(7, 0)], multiset{0});
    AloneParts(s);
  }

  lemma AloneParts(s: State)
    requires s == Alone(1, Loop(HangupCheck(7, 0)), [Peer(7, 0), Peer(7, 0)], multiset{0})
    ensures s.peers == [Peer(7, 0), Peer(7, 0)] && s.closes == multiset{0}
  {}

  lemma StartsAccepting()
    ensures Accepting(Initial(1), Loop(Nothing)) && Accepting(HungUpClosed(), Loop(HangupCheck(7, 0)))
  {}

  lemma ReachSnoc(n: nat, run: seq<Action>, s: State, a: Action)
    requires Reaches(n, run, s) && Possible(s, a) && Intact(s, a)
    ensures Reaches(n, run + [a], Step(s, a))
  {
    hide Possible, Intact, Step;
    ExecSnoc(n, run, a);
  }

  lemma ReachExec(n: nat, run: seq<Action>, s: State)
    requires Reaches(n, run, s)
    ensures Exec(n, run) == Some(s) && IntactRun(n, run)
  {}

  function IdleSweep(): seq<Action> { [CollectIdle(0, [ConnId(7, Generation(0))]), SweepNext(0)] }

  function Swept(s: State): State {
    s.(conns := map[7 := Binding(Generation(0), -1, false, 0)], reactors := [Reactor([], Sweep([]), Closing(7, 0, 0))])
  }

  lemma SweepInWindow(s: State)
    requires s == Midway(Initial(1), Inserted)
    ensures (
        && Possible(s, IdleSweep()[0])
        && var t := Step(s, IdleSweep()[0]);
        && Possible(t, SweepNext(0)) && Step(t, SweepNext(0)) == Swept(s))
  {
    hide Generation;
    var id := ConnId(7, Generation(0));
    assert [id][1..] == [];
    assert Step(s, CollectIdle(0, [id])).reactors == [Reactor([], Sweep([id]), Free)];
  }

  /** The timer unregisters a connection while the accepting thread is still adding it. */
  lemma SweepWhileAdding() returns (run: seq<Action>)
    ensures Exec(1, run) == Some(Swept(Midway(Initial(1), Inserted)))
  {
    StartsAccepting();
    assert Exec(1, []) == Some(Initial(1));
    AcceptOne(1, [], Loop(Nothing));
    run := [] + [Accept(7)] + [ClearStale] + [Register] + [Insert];
    SweepInWindow(Midway(Initial(1), Inserted));
    hide Exec, Step, Possible, Midway, IntactRun, Initial;
    ExecSnoc(1, run, IdleSweep()[0]);
    ExecSnoc(1, run + [IdleSweep()[0]], SweepNext(0));
    run := run + [IdleSweep()[0]] + [SweepNext(0)];
  }

  lemma CloseInWindow(s: State)
    requires s == Midway(Initial(1), Inserted)
    ensures (
        && Possible(Swept(s), FinishClose(0))
        && var v := Step(Swept(s), FinishClose(0));
        && Possible(v, AddToEpoll(false))
        && Step(v, AddToEpoll(false)).closes[0] == 2 && Step(v, AddToEpoll(false)).stray == 1)
  {
    hide Generation;
  }

  /** A timer that judges a connection idle while the accepting thread is still adding it to
      epoll closes its descriptor a first time; the accepting thread's own clean-up then
      closes the same descriptor again. */
  lemma {:induction false} TimerMayCloseTwice() returns (run: seq<Action>, s: State)
    ensures Exec(1, run) == Some(s) && s.closes[0] == 2 && s.stray == 1
  {
    run := SweepWhileAdding();
    var w := Swept(Midway(Initial(1), Inserted));
    CloseInWindow(Midway(Initial(1), Inserted));
    hide Exec, Step, Possible, Midway, Initial, Swept, IntactRun;
    ExecSnoc(1, run, FinishClose(0));
    ExecSnoc(1, run + [FinishClose(0)], AddToEpoll(false));
    run := run + [FinishClose(0)] + [AddToEpoll(false)];
    s := Step(Step(w, FinishClose(0)), AddToEpoll(false));
  }

  function RolledBack(): State {
    State(map[], map[], map[], map[], multiset{}, [Reactor([], Sweep([]), Closing(7, 0, 0))], Waiting, [Peer(7, 0)], multiset{0}, 0)
  }

  lemma RollBackFirst()
    ensures (
        var s := Swept(Midway(Initial(1), Inserted));
        && Possible(s, AddToEpoll(false)) && Step(s, AddToEpoll(false)) == RolledBack()
        && Accepting(RolledBack(), RolledBack().reactors[0]))
  {
    hide Generation;
  }

  lemma CutAnother(s: State)
    requires s == Alone(1, RolledBack().reactors[0], [Peer(7, 0), Peer(7, 0)], multiset{0})
    ensures (
        && Possible(s, FinishClose(0))
        && var t := Step(s, FinishClose(0));
        && BoundTo(t, 7, 1) && !Has(t, 0, 7) && t.closes[1] == 0 && !IsOpen(t, 7, 1) && t.stray == 1)
  {
    hide Generation;
  }

  /** And when the clean-up comes first, the second close hits the connection that was
      accepted meanwhile on the same descriptor: it stays registered, with neither context
      nor socket, although nobody ever meant to close it. */
  lemma {:induction false} RollbackMayCutAnother() returns (run: seq<Action>, s: State)
    ensures Exec(1, run) == Some(s) && s.peers == [Peer(7, 0), Peer(7, 0)]
    ensures BoundTo(s, 7, 1) && !Has(s, 0, 7) && s.closes[1] == 0 && !IsOpen(s, 7, 1) && s.stray == 1
  {
    run := SweepWhileAdding();
    RollBackFirst();
    assert RolledBack().peers + [Peer(7, 0)] == [Peer(7, 0), Peer(7, 0)] && RolledBack().closes == multiset{0};
    var b := RolledBack().reactors[0];
    var w := Alone(1, b, [Peer(7, 0), Peer(7, 0)], multiset{0});
    CutAnother(w);
    assert Step(w, FinishClose(0)).peers == [Peer(7, 0), Peer(7, 0)];
    assert |RolledBack().peers| == 1;
    hide *;
    ExecSnoc(1, run, AddToEpoll(false));
    run := run + [AddToEpoll(false)];
    AcceptOne(1, run, b);
    run := run + [Accept(7)] + [ClearStale] + [Register] + [Insert] + [AddToEpoll(true)];
    ExecSnoc(1, run, FinishClose(0));
    run := run + [FinishClose(0)];
    s := Step(w, FinishClose(0));
  }
}
