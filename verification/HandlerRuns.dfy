/** Handlers of the server as runs of the protocol: what a thread does in one go is a
    sequence of its steps, and extends any run. */
module HandlerRuns {
  import opened ConnectionInvariant
  import opened ConnectionOwnership
  import opened ConnectionSafety
  import opened ConnectionState
  import opened Text

  // ---------- Runs from a given state ----------

  function Steps(s: State, run: seq<Action>): Option<State> {
    if run == [] then Some(s)
    else
      match Steps(s, run[..|run| - 1])
      case None => None
      case Some(t) => if Enabled(t, run[|run| - 1]) then Some(Step(t, run[|run| - 1])) else None
  }

  lemma StepsSnoc(s: State, run: seq<Action>, t: State, a: Action)
    requires Steps(s, run) == Some(t) && Enabled(t, a)
    ensures Steps(s, run + [a]) == Some(Step(t, a))
  {
    assert (run + [a])[..|run|] == run;
  }

  /** None of the steps is a rollback that misses its registration. */
  predicate IntactSteps(s: State, run: seq<Action>)
    requires Steps(s, run).Some?
  {
    run == [] || (IntactSteps(s, run[..|run| - 1]) && Intact(Steps(s, run[..|run| - 1]).value, run[|run| - 1]))
  }

  /** Connections are only ever added to the history. */
  lemma StepPeers(s: State, a: Action)
    requires Enabled(s, a)
    ensures |Step(s, a).peers| == |s.peers| + if a.Accept? then 1 else 0
    ensures |Step(s, a).reactors| == |s.reactors|
    ensures Step(s, a).peers == if a.Accept? then s.peers + [Peer(a.fd, |s.peers| % |s.reactors|)] else s.peers
  {
    hide HandleStep, DeliverStep, CheckHangupStep, SweepStep, SubmitStep, FinishCloseStep, MarkInFlight, SetupStep;
    match a
    case Handle(r, id, event) => HandlePeers(s, r, id, event);
    case DeliverNext(r, out, rest) => DeliverPeers(s, r, out, rest);
    case CheckHangup(r) => CheckPeers(s, r);
    case SweepNext(r) => SweepPeers(s, r);
    case Submit(r, ok) => SubmitPeers(s, r, ok);
    case FinishClose(r) => FinishPeers(s, r);
    case Leave(x) => MarkOnlyCounts(s.(tasks := s.tasks - multiset{x}), x.reactor, x.id, false);
    case AddToEpoll(ok) => SetupPeers(s, a);
    case ClearStale => SetupPeers(s, a);
    case Register => SetupPeers(s, a);
    case Insert => SetupPeers(s, a);
    case _ =>
  }

  lemma SetupPeers(s: State, a: Action)
    requires Enabled(s, a) && (a.ClearStale? || a.Register? || a.Insert? || a.AddToEpoll?)
    ensures SetupStep(s, a).peers == s.peers && |SetupStep(s, a).reactors| == |s.reactors|
  {}

  lemma CheckPeers(s: State, r: nat)
    requires Enabled(s, CheckHangup(r))
    ensures CheckHangupStep(s, r).peers == s.peers && |CheckHangupStep(s, r).reactors| == |s.reactors|
  {}

  lemma SweepPeers(s: State, r: nat)
    requires Enabled(s, SweepNext(r))
    ensures SweepStep(s, r).peers == s.peers && |SweepStep(s, r).reactors| == |s.reactors|
  {}

  lemma SubmitPeers(s: State, r: nat, ok: bool)
    requires Enabled(s, Submit(r, ok))
    ensures SubmitStep(s, r, ok).peers == s.peers && |SubmitStep(s, r, ok).reactors| == |s.reactors|
  {}

  lemma FinishPeers(s: State, r: nat)
    requires Enabled(s, FinishClose(r))
    ensures FinishCloseStep(s, r).peers == s.peers && |FinishCloseStep(s, r).reactors| == |s.reactors|
  {}

  lemma HandlePeers(s: State, r: nat, id: ConnId, event: Event)
    requires r < |s.reactors|
    ensures HandleStep(s, r, id, event).peers == s.peers && |HandleStep(s, r, id, event).reactors| == |s.reactors|
  {
    hide HandleRead, WriteCurrent;
    if event.In? { ReadTodo(s, r, id, event.input); }
    if event.Hup? && event.first.Some? { ReadTodo(s, r, id, event.first.value); }
    if event.Out? && Has(s, r, id.fd) { WritePeers(s, r, id.fd, event.output, event.rest); }
  }

  lemma WritePeers(s: State, r: nat, fd: nat, out: Output, rest: Option<Parsed>)
    requires r < |s.reactors| && Has(s, r, fd)
    ensures WriteCurrent(s, r, fd, out, rest).peers == s.peers && |WriteCurrent(s, r, fd, out, rest).reactors| == |s.reactors|
  {
    hide Completes, SentNow, DispatchBuffered, CloseConnection, Rearm;
    var c := Ctxt(s, r, fd);
    if c.current.Some? {
      var t := Put(s, r, fd, if Completes(c, out) then c.(offset := 0, current := None) else c.(offset := c.offset + SentNow(c, out)));
      ClosePeers(t, r, fd);
      RearmPeers(t, r, ConnId(fd, c.gen), Writing);
      RearmPeers(t, r, ConnId(fd, c.gen), Reading);
      if rest.Some? { DispatchPeers(Rearm(t, r, ConnId(fd, c.gen), Reading), r, ConnId(fd, c.gen), rest.value); }
    }
  }

  lemma ClosePeers(s: State, r: nat, fd: nat)
    requires r < |s.reactors|
    ensures CloseConnection(s, r, fd).peers == s.peers && |CloseConnection(s, r, fd).reactors| == |s.reactors|
  {}

  lemma RearmPeers(s: State, r: nat, id: ConnId, arm: Arm)
    ensures Rearm(s, r, id, arm).peers == s.peers && |Rearm(s, r, id, arm).reactors| == |s.reactors|
  {}

  lemma DispatchPeers(s: State, r: nat, id: ConnId, parsed: Parsed)
    requires r < |s.reactors|
    ensures DispatchBuffered(s, r, id, parsed).peers == s.peers && |DispatchBuffered(s, r, id, parsed).reactors| == |s.reactors|
  {
    hide CloseConnection;
    ClosePeers(s, r, id.fd);
  }

  lemma DeliverPeers(s: State, r: nat, out: Output, rest: Option<Parsed>)
    requires Enabled(s, DeliverNext(r, out, rest))
    ensures DeliverStep(s, r, out, rest).peers == s.peers && |DeliverStep(s, r, out, rest).reactors| == |s.reactors|
  {
    hide WriteCurrent;
    var items := s.reactors[r].todo.items;
    if items != [] {
      var t, p := WithTodo(s, r, Wake(items[1..])), items[0];
      if Has(t, r, p.id.fd) {
        var c := Ctxt(t, r, p.id.fd);
        WritePeers(Put(t, r, p.id.fd, c.(current := Some(p.response), keepAlive := p.keepAlive, offset := 0)), r, p.id.fd, out, rest);
      }
    }
  }

  lemma {:induction false} StepsPeers(s: State, run: seq<Action>, t: State)
    requires Steps(s, run) == Some(t)
    ensures |s.peers| <= |t.peers|
  {
    hide Step, Enabled;
    if run != [] {
      var u := Steps(s, run[..|run| - 1]).value;
      StepsPeers(s, run[..|run| - 1], u);
      StepPeers(u, run[|run| - 1]);
    }
  }

  /** A handler's steps may follow any run, so all that is proved of runs holds after it. */
  lemma {:induction false} StepsExtend(n: nat, run: seq<Action>, s: State, more: seq<Action>, t: State)
    requires Exec(n, run) == Some(s) && Steps(s, more) == Some(t) && |t.peers| <= SocketCompat.PERIOD
    ensures Exec(n, run + more) == Some(t)
    ensures IntactRun(n, run) && IntactSteps(s, more) ==> IntactRun(n, run + more)
  {
    hide Step, Enabled, Intact;
    if more == [] {
      assert run + more == run;
    } else {
      var u, a := Steps(s, more[..|more| - 1]).value, more[|more| - 1];
      StepPeers(u, a);
      StepsExtend(n, run, s, more[..|more| - 1], u);
      ExecSnoc(n, run + more[..|more| - 1], a);
      assert run + more[..|more| - 1] + [a] == run + more;
    }
  }

  /** It also keeps the invariants from any state that has them. */
  lemma {:induction false} StepsKeep(s: State, run: seq<Action>, t: State)
    requires Steps(s, run) == Some(t) && Own(s) && |t.peers| <= SocketCompat.PERIOD
    ensures Own(t) && (Wired(s) && IntactSteps(s, run) ==> Wired(t))
  {
    hide Step, Enabled, Intact, Own, Wired;
    if run != [] {
      var u, a := Steps(s, run[..|run| - 1]).value, run[|run| - 1];
      StepPeers(u, a);
      StepsKeep(s, run[..|run| - 1], u);
      StepOwn(u, a);
      if Wired(s) && IntactSteps(s, run) { StepWired(u, a); }
    }
  }

  // ---------- The reactors' shares ----------

  /** How many connections have been given to reactor r. */
  function Share(peers: seq<Peer>, r: nat): nat {
    if peers == [] then 0 else Share(peers[..|peers| - 1], r) + if peers[|peers| - 1].reactor == r then 1 else 0
  }

  predicate InTurn(peers: seq<Peer>, n: nat)
    requires n > 0
  {
    forall i :: 0 <= i < |peers| ==> peers[i].reactor == i % n
  }

  lemma {:induction false} SharesInTurn(peers: seq<Peer>, n: nat, r: nat)
    requires n > 0 && InTurn(peers, n) && r < n
    ensures Share(peers, r) == |peers| / n + if r < |peers| % n then 1 else 0
  {
    if peers == [] {
      assert 0 / n == 0;
    } else {
      var k := |peers| - 1;
      SharesInTurn(peers[..k], n, r);
      OneMore(k, n);
    }
  }

  /** Division has one result. */
  lemma OneQuotient(n: nat, q: int, m: int, q': int, m': int)
    requires 0 <= m < n && 0 <= m' < n && q * n + m == q' * n + m'
    ensures q == q' && m == m'
  {
    var d := q' - q;
    assert d * n == m - m' by { assert q' * n - q * n == d * n; }
    assert (-d) * n == -(d * n);
    if d >= 1 { AtLeastOnce(d, n); }
    if d <= -1 { AtLeastOnce(-d, n); }
  }

  lemma {:induction false} AtLeastOnce(d: int, n: nat)
    requires d >= 1
    ensures d * n >= n
  {
    if d > 1 {
      AtLeastOnce(d - 1, n);
      assert d * n == (d - 1) * n + n;
    }
  }

  lemma Divided(k: nat, n: nat)
    requires n > 0
    ensures k == (k / n) * n + k % n && 0 <= k % n < n
  {}

  lemma OneMore(k: nat, n: nat)
    requires n > 0
    ensures if k % n == n - 1 then (k + 1) / n == k / n + 1 && (k + 1) % n == 0 else (k + 1) / n == k / n && (k + 1) % n == k % n + 1
  {
    Divided(k, n);
    Divided(k + 1, n);
    NextQuotient(k, n, k / n, k % n, (k + 1) / n, (k + 1) % n);
  }

  lemma NextQuotient(k: nat, n: nat, q: int, m: int, q': int, m': int)
    requires k == q * n + m && k + 1 == q' * n + m' && 0 <= m < n && 0 <= m' < n
    ensures if m == n - 1 then q' == q + 1 && m' == 0 else q' == q && m' == m + 1
  {
    if m == n - 1 {
      assert (q + 1) * n == q * n + n;
      OneQuotient(n, q', m', q + 1, 0);
    } else {
      OneQuotient(n, q', m', q, m + 1);
    }
  }

  lemma {:induction false} TakenInTurn(n: nat, run: seq<Action>, s: State)
    requires n > 0 && Exec(n, run) == Some(s)
    ensures |s.reactors| == n && InTurn(s.peers, n)
  {
    hide Step, Enabled;
    if run != [] {
      var t := Exec(n, run[..|run| - 1]).value;
      TakenInTurn(n, run[..|run| - 1], t);
      StepPeers(t, run[|run| - 1]);
    }
  }

  /** Whatever happens to the connections, the reactors have been given equal shares of them,
      up to one. */
  lemma {:induction false} SharesAreEqual(n: nat, run: seq<Action>, s: State, r: nat, q: nat)
    requires Exec(n, run) == Some(s) && r < n && q < n
    ensures Share(s.peers, r) <= Share(s.peers, q) + 1
    ensures forall i :: 0 <= i < |s.peers| ==> s.peers[i].reactor < n
  {
    TakenInTurn(n, run, s);
    SharesInTurn(s.peers, n, r);
    SharesInTurn(s.peers, n, q);
  }

  // ---------- Handlers as runs ----------

  /** What a reactor's thread does is never a rollback. */
  predicate NoRollback(run: seq<Action>) { forall i :: 0 <= i < |run| ==> run[i] != AddToEpoll(false) }

  lemma {:induction false} NoRollbackIsIntact(s: State, run: seq<Action>)
    requires Steps(s, run).Some? && NoRollback(run)
    ensures IntactSteps(s, run)
  {
    hide Step, Enabled;
    if run != [] {
      NoRollbackIsIntact(s, run[..|run| - 1]);
    }
  }

  lemma HandlerKeeps(s: State, run: seq<Action>, t: State)
    requires Steps(s, run) == Some(t) && NoRollback(run) && t.peers == s.peers
    ensures Own(s) ==> Own(t) && (Wired(s) ==> Wired(t))
  {
    NoRollbackIsIntact(s, run);
    hide Steps, Wired;
    if Own(s) { StepsKeep(s, run, t); }
  }

  /** A call that a handler has begun is finished before the handler goes on: the rest of
      closeConnectionId, or handing the task to the pool. */
  function Settled(s: State, r: nat, ok: bool): (t: State)
    requires r < |s.reactors|
    ensures |t.reactors| == |s.reactors|
  {
    match s.reactors[r].op
    case Free => s
    case Closing(fd, owner, uid) => if owner < |s.reactors| then FinishCloseStep(s, r) else s
    case Submitting(id, uid) => SubmitStep(s, r, ok)
  }

  /** What the sends of one response do, what then is in the buffer, and whether the pool
      takes the task. */
  datatype Turn = Turn(output: Output, rest: Option<Parsed>, ok: bool)

  /** handleWake after the swap: one delivery after the other. */
  function Delivered(s: State, r: nat, turns: seq<Turn>): (t: State)
    requires r < |s.reactors|
    ensures |t.reactors| == |s.reactors|
  {
    if turns == [] then s
    else
      var t, turn := Delivered(s, r, turns[..|turns| - 1]), turns[|turns| - 1];
      if !Enabled(t, DeliverNext(r, turn.output, turn.rest)) then t
      else
        DeliverKeepsOps(t, r, turn.output, turn.rest);
        Settled(DeliverStep(t, r, turn.output, turn.rest), r, turn.ok)
  }

  /** handleTimer after the collection: one connection after the other. */
  function SweptOut(s: State, r: nat, k: nat): (t: State)
    requires r < |s.reactors|
    ensures |t.reactors| == |s.reactors|
  {
    if k == 0 then s
    else
      var t := SweptOut(s, r, k - 1);
      if !Enabled(t, SweepNext(r)) then t
      else
        LoopKeepsOps(t, SweepNext(r));
        Settled(SweepStep(t, r), r, true)
  }

  /** Leaving the loop of a handler. */
  function Ended(s: State, r: nat): State
    requires r < |s.reactors|
  {
    if s.reactors[r].op == Free && (s.reactors[r].todo == Wake([]) || s.reactors[r].todo == Sweep([])) then WithTodo(s, r, Nothing) else s
  }

  lemma SettledIsRun(s0: State, run: seq<Action>, s: State, r: nat, ok: bool) returns (more: seq<Action>)
    requires Steps(s0, run) == Some(s) && NoRollback(run) && r < |s.reactors|
    ensures Steps(s0, more) == Some(Settled(s, r, ok)) && NoRollback(more)
  {
    more := run;
    match s.reactors[r].op
    case Free =>
    case Closing(fd, owner, uid) =>
      if owner < |s.reactors| {
        StepsSnoc(s0, run, s, FinishClose(r));
        more := run + [FinishClose(r)];
      }
    case Submitting(id, uid) =>
      StepsSnoc(s0, run, s, Submit(r, ok));
      more := run + [Submit(r, ok)];
  }

  lemma EndedIsRun(s0: State, run: seq<Action>, s: State, r: nat) returns (more: seq<Action>)
    requires Steps(s0, run) == Some(s) && NoRollback(run) && r < |s.reactors|
    ensures Steps(s0, more) == Some(Ended(s, r)) && NoRollback(more)
  {
    hide Steps;
    more := run;
    if s.reactors[r].op == Free && s.reactors[r].todo == Wake([]) {
      StepsSnoc(s0, run, s, DeliverNext(r, Output(0, false), None));
      more := run + [DeliverNext(r, Output(0, false), None)];
    } else if s.reactors[r].op == Free && s.reactors[r].todo == Sweep([]) {
      StepsSnoc(s0, run, s, SweepNext(r));
      more := run + [SweepNext(r)];
    }
  }

  lemma {:induction false} DeliveredIsRun(s0: State, run: seq<Action>, s: State, r: nat, turns: seq<Turn>)
      returns (more: seq<Action>)
    requires Steps(s0, run) == Some(s) && NoRollback(run) && r < |s.reactors|
    ensures Steps(s0, more) == Some(Delivered(s, r, turns)) && NoRollback(more)
  {
    hide Steps, Enabled, DeliverStep;
    if turns == [] {
      more := run;
    } else {
      var t, turn := Delivered(s, r, turns[..|turns| - 1]), turns[|turns| - 1];
      more := DeliveredIsRun(s0, run, s, r, turns[..|turns| - 1]);
      var a := DeliverNext(r, turn.output, turn.rest);
      if Enabled(t, a) {
        DeliverKeepsOps(t, r, turn.output, turn.rest);
        StepsSnoc(s0, more, t, a);
        more := SettledIsRun(s0, more + [a], DeliverStep(t, r, turn.output, turn.rest), r, turn.ok);
      }
    }
  }

  lemma {:induction false} SweptIsRun(s0: State, run: seq<Action>, s: State, r: nat, k: nat) returns (more: seq<Action>)
    requires Steps(s0, run) == Some(s) && NoRollback(run) && r < |s.reactors|
    ensures Steps(s0, more) == Some(SweptOut(s, r, k)) && NoRollback(more)
  {
    hide Steps, Enabled, SweepStep;
    if k == 0 {
      more := run;
    } else {
      var t := SweptOut(s, r, k - 1);
      more := SweptIsRun(s0, run, s, r, k - 1);
      if Enabled(t, SweepNext(r)) {
        LoopKeepsOps(t, SweepNext(r));
        StepsSnoc(s0, more, t, SweepNext(r));
        more := SettledIsRun(s0, more + [SweepNext(r)], SweepStep(t, r), r, true);
      }
    }
  }

  function Swapped(s: State, r: nat): State
    requires r < |s.reactors|
  {
    WithReactor(s, r, Reactor([], Wake(s.reactors[r].pending), Free))
  }

  /** handleWake as a whole is a run of the protocol, so all that holds along runs holds
      before and after it. */
  lemma {:induction false} WakeIsRun(s: State, r: nat, turns: seq<Turn>) returns (run: seq<Action>)
    requires Idle(s, r)
    ensures Steps(s, run) == Some(Ended(Delivered(Swapped(s, r), r, turns), r)) && NoRollback(run)
  {
    assert Steps(s, []) == Some(s);
    StepsSnoc(s, [], s, TakePending(r));
    assert Step(s, TakePending(r)) == Swapped(s, r) && [] + [TakePending(r)] == [TakePending(r)] && NoRollback([TakePending(r)]);
    hide *;
    run := DeliveredIsRun(s, [TakePending(r)], Swapped(s, r), r, turns);
    run := EndedIsRun(s, run, Delivered(Swapped(s, r), r, turns), r);
  }

  /** So is handleTimer. */
  lemma {:induction false} TimerIsRun(s: State, r: nat, ids: seq<ConnId>) returns (run: seq<Action>)
    requires Enabled(s, CollectIdle(r, ids))
    ensures Steps(s, run) == Some(Ended(SweptOut(WithTodo(s, r, Sweep(ids)), r, |ids|), r)) && NoRollback(run)
  {
    assert Steps(s, []) == Some(s);
    StepsSnoc(s, [], s, CollectIdle(r, ids));
    assert [] + [CollectIdle(r, ids)] == [CollectIdle(r, ids)] && NoRollback([CollectIdle(r, ids)]);
    hide Steps, WithTodo, Ended, SweptOut, NoRollback;
    run := SweptIsRun(s, [CollectIdle(r, ids)], WithTodo(s, r, Sweep(ids)), r, |ids|);
    run := EndedIsRun(s, run, SweptOut(WithTodo(s, r, Sweep(ids)), r, |ids|), r);
  }

  /** One round of handleAccept: four steps that cannot fail, and the answer of epoll_ctl ADD. */
  function AcceptRound(fd: nat, added: bool): seq<Action> {
    [Accept(fd), ClearStale, Register, Insert, AddToEpoll(added)]
  }

  lemma FourSteps(s: State, fd: nat, t1: State, t2: State, t3: State, t4: State)
    requires Enabled(s, Accept(fd)) && t1 == Step(s, Accept(fd)) && Enabled(t1, ClearStale) && t2 == Step(t1, ClearStale)
    requires Enabled(t2, Register) && t3 == Step(t2, Register) && Enabled(t3, Insert) && t4 == Step(t3, Insert)
    ensures Steps(s, [Accept(fd), ClearStale, Register, Insert]) == Some(t4)
  {
    assert Steps(s, []) == Some(s);
    hide Step, Enabled, Steps;
    StepsSnoc(s, [], s, Accept(fd));
    assert [] + [Accept(fd)] == [Accept(fd)];
    StepsSnoc(s, [Accept(fd)], t1, ClearStale);
    assert [Accept(fd)] + [ClearStale] == [Accept(fd), ClearStale];
    StepsSnoc(s, [Accept(fd), ClearStale], t2, Register);
    assert [Accept(fd), ClearStale] + [Register] == [Accept(fd), ClearStale, Register];
    StepsSnoc(s, [Accept(fd), ClearStale, Register], t3, Insert);
    assert [Accept(fd), ClearStale, Register] + [Insert] == [Accept(fd), ClearStale, Register, Insert];
  }

  lemma AcceptedRound(s: State, fd: nat, t4: State, added: bool)
    requires Steps(s, [Accept(fd), ClearStale, Register, Insert]) == Some(t4) && Enabled(t4, AddToEpoll(added))
    ensures Steps(s, AcceptRound(fd, added)) == Some(Step(t4, AddToEpoll(added)))
    ensures Intact(t4, AddToEpoll(added)) ==> IntactSteps(s, AcceptRound(fd, added))
  {
    var four := [Accept(fd), ClearStale, Register, Insert];
    StepsSnoc(s, four, t4, AddToEpoll(added));
    assert four + [AddToEpoll(added)] == AcceptRound(fd, added);
    NoRollbackIsIntact(s, four);
    hide Step, Enabled, Intact;
    assert AcceptRound(fd, added)[..4] == four;
  }

  /** Uninterrupted, the round keeps all invariants, a failure of epoll_ctl ADD included. */
  lemma AcceptRoundKeeps(s: State, fd: nat, t: State, added: bool)
    requires Steps(s, AcceptRound(fd, added)) == Some(t) && |t.peers| == |s.peers| + 1
    requires IntactSteps(s, AcceptRound(fd, added))
    ensures |s.peers| < SocketCompat.PERIOD && Own(s) ==> Own(t) && (Wired(s) ==> Wired(t))
  {
    hide Steps, IntactSteps, Own, Wired, AcceptRound;
    if |s.peers| < SocketCompat.PERIOD && Own(s) { StepsKeep(s, AcceptRound(fd, added), t); }
  }

  lemma DeliveredSnoc(s: State, r: nat, turns: seq<Turn>, turn: Turn)
    requires r < |s.reactors|
    ensures (
        var t := Delivered(s, r, turns);
        Enabled(t, DeliverNext(r, turn.output, turn.rest)) ==>
          && |DeliverStep(t, r, turn.output, turn.rest).reactors| == |t.reactors|
          && Delivered(s, r, turns + [turn]) == Settled(DeliverStep(t, r, turn.output, turn.rest), r, turn.ok))
  {
    hide Settled, DeliverStep, Enabled;
    assert (turns + [turn])[..|turns|] == turns;
    var t := Delivered(s, r, turns);
    if Enabled(t, DeliverNext(r, turn.output, turn.rest)) { DeliverKeepsOps(t, r, turn.output, turn.rest); }
  }
}
