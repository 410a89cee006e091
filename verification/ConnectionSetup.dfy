/** When the rollback of handleAccept finds its registration: as long as nobody closes the
    connection between the insertion of its context and epoll_ctl ADD. */
module ConnectionSetup {
  import opened Text
  import opened ConnectionState
  import opened ConnectionInvariant
  import opened ConnectionOwnership
  import opened ConnectionSafety

  /** The timer and the hang-up check spare the connection that is just being added. */
  predicate Prompt(s: State, a: Action)
    requires Enabled(s, a)
  {
    AtStage(s, Inserted) ==>
      match a
      case SweepNext(r) => s.reactors[r].todo.ids != [] ==> Announced(s, s.reactors[r].todo.ids[0])
      case CheckHangup(r) => r != s.acceptor.reactor || s.reactors[r].todo.fd != s.acceptor.fd
      case _ => true
  }

  predicate PromptRun(n: nat, run: seq<Action>)
    requires Exec(n, run).Some?
  {
    run == [] || (PromptRun(n, run[..|run| - 1]) && Prompt(Exec(n, run[..|run| - 1]).value, run[|run| - 1]))
  }

  predicate Registration(s: State) { AtStage(s, Inserted) ==> BoundTo(s, s.acceptor.fd, s.acceptor.uid) }

  /** Only the binding of fd may differ. */
  ghost predicate OnlyConn(s: State, t: State, fd: nat) {
    && t.acceptor == s.acceptor
    && (forall f :: f != fd ==> (f in t.conns <==> f in s.conns) && (f in s.conns ==> t.conns[f] == s.conns[f]))
  }

  lemma OtherRegistration(s: State, t: State, fd: nat)
    requires OnlyConn(s, t, fd) && Registration(s) && (AtStage(s, Inserted) ==> fd != s.acceptor.fd)
    ensures Registration(t)
  {}

  lemma CloseConn(s: State, r: nat, fd: nat)
    requires r < |s.reactors|
    ensures OnlyConn(s, CloseConnection(s, r, fd), fd)
  {}

  lemma RearmConn(s: State, r: nat, id: ConnId, arm: Arm)
    ensures Rearm(s, r, id, arm).conns == s.conns && Rearm(s, r, id, arm).acceptor == s.acceptor
    ensures |Rearm(s, r, id, arm).reactors| == |s.reactors|
  {}

  lemma DispatchConn(s: State, r: nat, id: ConnId, parsed: Parsed)
    requires r < |s.reactors|
    ensures OnlyConn(s, DispatchBuffered(s, r, id, parsed), id.fd)
  {
    hide CloseConnection;
    CloseConn(s, r, id.fd);
  }

  lemma ReadConn(s: State, r: nat, id: ConnId, input: Input)
    requires r < |s.reactors|
    ensures OnlyConn(s, HandleRead(s, r, id, input), id.fd)
  {
    hide CloseConnection, DispatchBuffered;
    CloseConn(s, r, id.fd);
    if input.Bytes? { DispatchConn(s, r, id, input.parsed); }
  }

  lemma OnlyAfter(s: State, t: State, u: State, fd: nat)
    requires t.conns == s.conns && t.acceptor == s.acceptor && (u == t || OnlyConn(t, u, fd))
    ensures OnlyConn(s, u, fd)
  {}

  lemma WriteConn(s: State, r: nat, fd: nat, out: Output, rest: Option<Parsed>)
    requires r < |s.reactors| && Has(s, r, fd)
    ensures OnlyConn(s, WriteCurrent(s, r, fd, out, rest), fd)
  {
    hide Completes, SentNow, CloseConnection, DispatchBuffered, OnlyConn, Rearm;
    var c := Ctxt(s, r, fd);
    OnlyAfter(s, s, s, fd);
    if c.current.Some? {
      var d := if Completes(c, out) then c.(offset := 0, current := None) else c.(offset := c.offset + SentNow(c, out));
      var t, id := Put(s, r, fd, d), ConnId(fd, c.gen);
      CloseConn(t, r, fd);
      OnlyAfter(s, t, CloseConnection(t, r, fd), fd);
      RearmConn(t, r, id, Writing);
      OnlyAfter(s, Rearm(t, r, id, Writing), Rearm(t, r, id, Writing), fd);
      RearmConn(t, r, id, Reading);
      OnlyAfter(s, Rearm(t, r, id, Reading), Rearm(t, r, id, Reading), fd);
      if rest.Some? {
        DispatchConn(Rearm(t, r, id, Reading), r, id, rest.value);
        OnlyAfter(s, Rearm(t, r, id, Reading), DispatchBuffered(Rearm(t, r, id, Reading), r, id, rest.value), fd);
      }
    }
  }

  lemma OwnedIsOther(s: State, r: nat, id: ConnId)
    requires Own(s) && Registration(s) && Owns(s, r, id) && Announced(s, id)
    ensures AtStage(s, Inserted) ==> id.fd != s.acceptor.fd
  {
    OwnedCtx(s, r, id);
    hide Own;
  }

  lemma HandleRegistration(s: State, r: nat, id: ConnId, event: Event)
    requires Inv(s) && Registration(s) && Enabled(s, Handle(r, id, event))
    ensures Registration(HandleStep(s, r, id, event))
  {
    if Owns(s, r, id) {
      OwnedIsOther(s, r, id);
      hide Inv, HandleRead, WriteCurrent, CloseConnection, OnlyConn, Owns, Announced;
      CloseConn(s, r, id.fd);
      match event
      case In(input) =>
        ReadConn(s, r, id, input);
        OtherRegistration(s, HandleRead(s, r, id, input), id.fd);
      case Out(output, rest) =>
        if Has(s, r, id.fd) {
          WriteConn(s, r, id.fd, output, rest);
          OtherRegistration(s, WriteCurrent(s, r, id.fd, output, rest), id.fd);
        }
      case Hup(first) =>
        if first.Some? {
          ReadConn(s, r, id, first.value);
          OtherRegistration(s, HandleRead(s, r, id, first.value), id.fd);
        }
    }
  }

  lemma DeliverRegistration(s: State, r: nat, out: Output, rest: Option<Parsed>)
    requires Inv(s) && Registration(s) && Enabled(s, DeliverNext(r, out, rest))
    ensures Registration(DeliverStep(s, r, out, rest))
  {
    var items := s.reactors[r].todo.items;
    if items != [] {
      var p, t := items[0], WithTodo(s, r, Wake(items[1..]));
      assert QueuesOk(s, r) && p in items && Known(s, r, p);
      if Owns(t, r, p.id) {
        CloseTarget(s, r, p.id, p.response.uid);
        hide Inv, WriteCurrent, OnlyConn;
        if Has(t, r, p.id.fd) && Ctxt(t, r, p.id.fd).gen == p.id.gen {
          var c := Ctxt(t, r, p.id.fd);
          var u := Put(t, r, p.id.fd, c.(current := Some(p.response), keepAlive := p.keepAlive, offset := 0));
          WriteConn(u, r, p.id.fd, out, rest);
          OtherRegistration(u, WriteCurrent(u, r, p.id.fd, out, rest), p.id.fd);
        }
      }
    }
  }

  lemma CheckedIsOther(s: State, r: nat)
    requires Inv(s) && Registration(s) && Enabled(s, CheckHangup(r)) && Prompt(s, CheckHangup(r))
    ensures Has(s, r, s.reactors[r].todo.fd) && AtStage(s, Inserted) ==> s.reactors[r].todo.fd != s.acceptor.fd
  {
    var fd := s.reactors[r].todo.fd;
    if Has(s, r, fd) && AtStage(s, Inserted) {
      assert CtxOk(s, Slot(r, fd)) && SocketOk(s, Slot(r, fd));
      hide Contexts, Sockets, Tables, Bindings, Ops, Tasks, Interests, Closers;
    }
  }

  lemma CheckRegistration(s: State, r: nat)
    requires Inv(s) && Registration(s) && Enabled(s, CheckHangup(r)) && Prompt(s, CheckHangup(r))
    ensures Registration(CheckHangupStep(s, r))
  {
    var fd, t := s.reactors[r].todo.fd, WithTodo(s, r, Nothing);
    if Has(s, r, fd) {
      CheckedIsOther(s, r);
      hide Inv, CloseConnection, OnlyConn, Prompt;
      CloseConn(t, r, fd);
      assert Registration(t);
      OtherRegistration(t, CloseConnection(t, r, fd), fd);
    }
  }

  lemma SweptIsOther(s: State, r: nat)
    requires Inv(s) && Registration(s) && Enabled(s, SweepNext(r)) && Prompt(s, SweepNext(r)) && AtStage(s, Inserted)
    ensures (
        var ids := s.reactors[r].todo.ids;
        ids != [] && Matches(s, ids[0]) ==> ids[0].fd != s.acceptor.fd)
  {
    var ids := s.reactors[r].todo.ids;
    if ids != [] && Matches(s, ids[0]) { assert BindingOk(s, ids[0].fd); }
  }

  lemma BeginConn(s: State, r: nat, id: ConnId)
    requires r < |s.reactors|
    ensures OnlyConn(s, BeginClose(s, r, id), id.fd)
    ensures !Matches(s, id) ==> BeginClose(s, r, id) == s
  {}

  lemma SweepRegistration(s: State, r: nat)
    requires Inv(s) && Registration(s) && Enabled(s, SweepNext(r)) && Prompt(s, SweepNext(r))
    ensures Registration(SweepStep(s, r))
  {
    hide Inv, BeginClose, OnlyConn;
    var ids := s.reactors[r].todo.ids;
    if ids != [] {
      if AtStage(s, Inserted) { SweptIsOther(s, r); }
      var t := WithTodo(s, r, Sweep(ids[1..]));
      BeginConn(t, r, ids[0]);
      if Matches(t, ids[0]) { OtherRegistration(t, BeginClose(t, r, ids[0]), ids[0].fd); }
    }
  }

  lemma OtherStepRegistration(s: State, a: Action)
    requires SetupOk(s) && Registration(s) && Enabled(s, a)
    requires !a.Handle? && !a.DeliverNext? && !a.CheckHangup? && !a.SweepNext?
    ensures Registration(Step(s, a))
  {
    hide HandleStep, DeliverStep, CheckHangupStep, SweepStep;
  }

  lemma StepRegistration(s: State, a: Action)
    requires Inv(s) && Registration(s) && Enabled(s, a) && Prompt(s, a)
    ensures Registration(Step(s, a))
  {
    assert SetupOk(s);
    hide HandleStep, DeliverStep, CheckHangupStep, SweepStep, Prompt, Inv, Registration, SetupOk;
    match a
    case Handle(r, id, event) => HandleRegistration(s, r, id, event);
    case DeliverNext(r, out, rest) => DeliverRegistration(s, r, out, rest);
    case CheckHangup(r) => CheckRegistration(s, r);
    case SweepNext(r) => SweepRegistration(s, r);
    case _ => OtherStepRegistration(s, a);
  }

  /** In a prompt run every rollback finds its registration, so all that is said of intact
      runs holds. */
  lemma {:induction false} PromptIsIntact(n: nat, run: seq<Action>, s: State)
    requires Exec(n, run) == Some(s) && PromptRun(n, run)
    ensures IntactRun(n, run) && Registration(s)
  {
    hide Inv, Prompt, Step, Enabled, Registration, Intact;
    if run == [] {
      assert Registration(s) by { InitialRegistration(n); }
    } else {
      var t, a := Exec(n, run[..|run| - 1]).value, run[|run| - 1];
      PromptIsIntact(n, run[..|run| - 1], t);
      ReachableInv(n, run[..|run| - 1], t);
      StepRegistration(t, a);
      RegisteredIsIntact(t, a);
    }
  }

  lemma InitialRegistration(n: nat)
    ensures Registration(Initial(n))
  {}

  lemma RegisteredIsIntact(s: State, a: Action)
    requires Inv(s) && Registration(s) && Enabled(s, a)
    ensures Intact(s, a)
  {
    if a == AddToEpoll(false) { BoundIsOwned(s); }
  }
}
