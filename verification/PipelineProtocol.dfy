/** A pipeline as a run of the server: one connection, from the accepting thread to the bytes
    on the wire, is what the steps of the protocol make of it. */
module PipelineProtocol {
  import ChunkedBody
  import opened ConnectionSafety
  import opened ConnectionState
  import opened HandlerRuns
  import opened ResponsePipeline
  import opened Text

  // ---------- A server with one connection ----------

  const ID: ConnId := ConnId(7, 1)
  const TASK: Task := Task(0, ID, 0, false)

  function Copies(n: nat): multiset<Task> { multiset{}[TASK := n] }

  function Posted(a: Answer): Pending { Pending(ID, Response(a.data, 0), a.keepAlive) }

  function Queue(posted: seq<Answer>): seq<Pending>
    requires |posted| <= 1
  {
    if posted == [] then [] else [Posted(posted[0])]
  }

  /** The connection is registered, with n tasks before their leave step. */
  function Held(x: Ctx, arm: Arm, n: nat, b: Reactor): State {
    State(map[7 := Binding(1, 0, true, 0)], map[Slot(0, 7) := x], map[7 := Reg(0, 1, arm)], map[7 := 0],
          Copies(n), [b], Waiting, [Peer(7, 0)], multiset{}, 0)
  }

  /** The connection is closed, once. */
  function Gone(n: nat, b: Reactor): State {
    State(map[7 := Binding(1, -1, false, 0)], map[], map[], map[], Copies(n), [b], Waiting, [Peer(7, 0)], multiset{0}, 0)
  }

  predicate Mine(c: Conn) { c.ctx.gen == 1 && c.ctx.uid == 0 }

  function Holding(c: Conn, b: Reactor): State { Held(c.ctx.(inFlight := |c.tasks|), c.arm, |c.tasks|, b) }

  function HeldOrGone(c: Conn, b: Reactor): State { if c.open then Holding(c, b) else Gone(|c.tasks|, b.(pending := [])) }

  /** The server between two handlers. */
  function Image(c: Conn): State
    requires |c.posted| <= 1
  {
    var b := Reactor(Queue(c.posted), Nothing, Free);
    if c.open then Holding(c, b) else Gone(|c.tasks|, b)
  }

  /** All that a reactor has been posted is this connection's. */
  predicate Ours(b: Reactor) { b.op == Free && forall p :: p in b.pending ==> p.id == ID }

  // ---------- What the handlers' calls come to ----------

  /** Once the call that s has begun is finished, the server is at t. */
  predicate Settles(s: State, t: State) { s.reactors != [] && Settled(s, 0, true) == t }

  lemma OursOnly(items: seq<Pending>)
    requires forall p :: p in items ==> p.id == ID
    ensures Without(items, 7) == []
  {}

  lemma CloseSettled(x: Ctx, arm: Arm, n: nat, b: Reactor)
    requires x.gen == 1 && Ours(b)
    ensures Settles(CloseConnection(Held(x, arm, n, b), 0, 7), Gone(n, b.(pending := [])))
  {
    OursOnly(b.pending);
    hide Copies;
    var s := CloseConnection(Held(x, arm, n, b), 0, 7);
    assert s.reactors[0].op == Closing(7, 0, 0);
    var t := FinishCloseStep(s, 0);
    var g := Gone(n, b.(pending := []));
    assert t.conns == g.conns && t.ctxs == g.ctxs && t.epoll == g.epoll && t.open == g.open;
    assert t.reactors == g.reactors && t.closes == g.closes && t.stray == g.stray;
  }

  lemma CopiesUp(n: nat)
    ensures Copies(n) + multiset{TASK} == Copies(n + 1)
  {}

  lemma SubmitSettled(x: Ctx, arm: Arm, n: nat, b: Reactor)
    requires x.gen == 1 && x.inFlight == n && b.op == Free
    ensures Settles(BeginSubmit(Held(x, arm, n, b), 0, ID, 0), Held(x.(inFlight := n + 1), arm, n + 1, b))
  {
    hide Copies;
    CopiesUp(n);
    var y := x.(inFlight := n + 1);
    PutHeld(x, arm, n, b, y);
    assert MarkInFlight(Held(x, arm, n, b), 0, ID, true) == Held(y, arm, n, b);
    var s, g := BeginSubmit(Held(x, arm, n, b), 0, ID, 0), Held(y, arm, n + 1, b);
    assert s == Held(y, arm, n, b.(op := Submitting(ID, 0)));
    var t := SubmitStep(s, 0, true);
    assert t.reactors == g.reactors;
  }

  lemma RearmHeld(x: Ctx, arm: Arm, n: nat, b: Reactor, to: Arm)
    ensures Rearm(Held(x, arm, n, b), 0, ID, to) == Held(x, to, n, b)
  {
    hide Copies;
    assert map[7 := Reg(0, 1, arm)][7 := Reg(0, 1, to)] == map[7 := Reg(0, 1, to)];
  }

  lemma PutHeld(x: Ctx, arm: Arm, n: nat, b: Reactor, y: Ctx)
    ensures Put(Held(x, arm, n, b), 0, 7, y) == Held(y, arm, n, b)
  {
    hide Copies;
    assert map[Slot(0, 7) := x][Slot(0, 7) := y] == map[Slot(0, 7) := y];
  }

  lemma DispatchSettled(c: Conn, lim: Limits, b: Reactor)
    requires Sane(c.buffer, lim) && Mine(c) && b.op == Free
    ensures Settles(DispatchBuffered(Holding(c, b), 0, ID, Judged(c.buffer, lim)), Holding(Dispatch(c, lim), b))
  {
    hide NextJob, Copies, BeginSubmit, Rearm;
    var x := c.ctx.(inFlight := |c.tasks|);
    SubmitSettled(x, c.arm, |c.tasks|, b);
    RearmHeld(x, c.arm, |c.tasks|, b, Reading);
  }

  lemma DispatchOpen(c: Conn, lim: Limits)
    requires Sane(c.buffer, lim)
    ensures Dispatch(c, lim).open == c.open && Dispatch(c, lim).ctx == c.ctx && Dispatch(c, lim).posted == c.posted
  {
    hide NextJob;
  }

  lemma ReadSettled(c: Conn, bytes: string, lim: Limits, b: Reactor)
    requires Sane(c.buffer, lim) && |c.buffer| + |bytes| < ChunkedBody.MAX_SIZE && Mine(c) && b.op == Free
    ensures Settles(HandleRead(Holding(c.(arm := Disarmed), b), 0, ID, InputOf(c, bytes, lim)), Holding(Taken(c, bytes, lim), b))
  {
    hide NextJob, Copies, BeginSubmit, Dispatch, DispatchBuffered, Judged, Kept, Overflow;
    var d := c.(buffer := Kept(c.buffer, bytes, lim.store), arm := Disarmed);
    SubmitSettled(c.ctx.(inFlight := |c.tasks|), Disarmed, |c.tasks|, b);
    DispatchSettled(d, lim, b);
  }

  function Rest(c: Conn, lim: Limits): Option<Parsed>
    requires Sane(c.buffer, lim)
  {
    if c.buffer == "" then None else Some(Judged(c.buffer, lim))
  }

  /** writeCurrentResponse, branch by branch. */
  lemma WriteIs(x: Ctx, arm: Arm, n: nat, b: Reactor, out: Output, rest: Option<Parsed>)
    requires x.current.Some? && x.gen == 1
    ensures WriteCurrent(Held(x, arm, n, b), 0, 7, out, rest)
         == var y := Advanced(x, out);
            if Completes(x, out) then
              if !x.keepAlive then CloseConnection(Held(y, arm, n, b), 0, 7)
              else if rest.Some? then DispatchBuffered(Held(y, Reading, n, b), 0, ID, rest.value)
              else Held(y, Reading, n, b)
            else if Fails(x, out) then CloseConnection(Held(y, arm, n, b), 0, 7)
            else Held(y, Writing, n, b)
  {
    var y := Advanced(x, out);
    PutHeld(x, arm, n, b, y);
    RearmHeld(y, arm, n, b, Writing);
    RearmHeld(y, arm, n, b, Reading);
    hide Copies, DispatchBuffered, CloseConnection, Rearm, Put, SentNow;
  }

  lemma HeldSettles(x: Ctx, arm: Arm, n: nat, b: Reactor)
    requires b.op == Free
    ensures Settles(Held(x, arm, n, b), Held(x, arm, n, b))
  {}

  lemma WriteSettled(c: Conn, out: Output, lim: Limits, b: Reactor)
    requires c.ctx.current.Some? && Sane(c.buffer, lim) && Mine(c) && c.open && Ours(b)
    ensures Settles(WriteCurrent(Holding(c, b), 0, 7, out, Rest(c, lim)), HeldOrGone(Write(c, out, lim), b))
  {
    hide Settles, Held, Gone, NextJob, Dispatch, DispatchBuffered, Judged, CloseConnection, WriteCurrent, ResponsePipeline.Chunk;
    var x, n := c.ctx.(inFlight := |c.tasks|), |c.tasks|;
    var y := Advanced(x, out);
    WriteIs(x, c.arm, n, b, out, Rest(c, lim));
    if Completes(x, out) && x.keepAlive {
      HeldSettles(y, Reading, n, b);
      var d := c.(wire := c.wire + ResponsePipeline.Chunk(c.ctx, out), ctx := c.ctx.(offset := 0, current := None), arm := Reading);
      assert Completes(c.ctx, out) && Holding(d, b) == Held(y, Reading, n, b);
      DispatchSettled(d, lim, b);
      DispatchOpen(d, lim);
    } else if Completes(x, out) || Fails(x, out) {
      CloseSettled(y, c.arm, n, b);
    } else {
      HeldSettles(y, Writing, n, b);
    }
  }

  // ---------- Runs of the server ----------

  ghost predicate Leads(s: State, t: State) { exists run :: Steps(s, run) == Some(t) && NoRollback(run) }

  lemma LeadsOn(s: State, t: State, a: Action)
    requires Leads(s, t) && Enabled(t, a) && a != AddToEpoll(false)
    ensures Leads(s, Step(t, a))
  {
    hide Steps, Step, Enabled;
    var run :| Steps(s, run) == Some(t) && NoRollback(run);
    StepsSnoc(s, run, t, a);
    assert NoRollback(run + [a]);
  }

  lemma LeadsSettled(s: State, t: State, u: State)
    requires Leads(s, t) && Settles(t, u)
    ensures Leads(s, u)
  {
    hide Steps, Settled, NoRollback;
    var run :| Steps(s, run) == Some(t) && NoRollback(run);
    var more := SettledIsRun(s, run, t, 0, true);
  }

  lemma HeldOwned(x: Ctx, arm: Arm, n: nat, b: Reactor)
    requires x.gen == 1
    ensures Owns(Held(x, arm, n, b), 0, ID) && Announced(Held(x, arm, n, b), ID) && Has(Held(x, arm, n, b), 0, 7)
    ensures Ctxt(Held(x, arm, n, b), 0, 7) == x
    ensures Enabled(Held(x, arm, n, b), Harvest(0, 7)) && Step(Held(x, arm, n, b), Harvest(0, 7)) == Held(x, Disarmed, n, b)
  {
    hide Copies;
    assert map[7 := Reg(0, 1, arm)][7 := Reg(0, 1, Disarmed)] == map[7 := Reg(0, 1, Disarmed)];
  }

  function Between(c: Conn): Reactor
    requires |c.posted| <= 1
  {
    Reactor(Queue(c.posted), Nothing, Free)
  }

  /** The event is harvested, which disarms, and handled. */
  lemma Handled(s: State, c: Conn, e: ConnectionState.Event)
    requires |c.posted| <= 1 && c.open && Mine(c) && Leads(s, Image(c))
    ensures Leads(s, HandleStep(Holding(c.(arm := Disarmed), Between(c)), 0, ID, e))
  {
    hide HandleStep, Copies, Leads, Queue;
    var x, n := c.ctx.(inFlight := |c.tasks|), |c.tasks|;
    HeldOwned(x, c.arm, n, Between(c));
    HeldOwned(x, Disarmed, n, Between(c));
    LeadsOn(s, Image(c), Harvest(0, 7));
    LeadsOn(s, Held(x, Disarmed, n, Between(c)), Handle(0, ID, e));
  }

  lemma ReadLeads(s: State, c: Conn, bytes: string, lim: Limits)
    requires Sane(c.buffer, lim) && Can(c, Read(bytes)) && |c.posted| <= 1 && Mine(c) && Leads(s, Image(c))
    ensures Taken(c, bytes, lim).posted == c.posted && Leads(s, Image(Taken(c, bytes, lim)))
  {
    hide HandleRead, Leads, Queue, Held, NextJob, Overflow, Kept, Settles;
    var d := c.(arm := Disarmed);
    Handled(s, c, In(InputOf(c, bytes, lim)));
    HeldOwned(d.ctx.(inFlight := |d.tasks|), Disarmed, |d.tasks|, Between(c));
    ReadSettled(c, bytes, lim, Between(c));
    LeadsSettled(s, HandleRead(Holding(d, Between(c)), 0, ID, InputOf(c, bytes, lim)), Holding(Taken(c, bytes, lim), Between(c)));
  }

  lemma QueueOurs(c: Conn)
    requires |c.posted| <= 1
    ensures Ours(Between(c))
  {}

  lemma EndLeads(s: State, c: Conn)
    requires |c.posted| <= 1 && c.open && Mine(c) && Leads(s, Image(c))
    ensures Leads(s, Image(Shut(c)))
  {
    hide CloseConnection, Leads, Held, Settles, Ours;
    var x, n := c.ctx.(inFlight := |c.tasks|), |c.tasks|;
    Handled(s, c, In(Eof));
    HeldOwned(x, Disarmed, n, Between(c));
    QueueOurs(c);
    CloseSettled(x, Disarmed, n, Between(c));
    LeadsSettled(s, CloseConnection(Held(x, Disarmed, n, Between(c)), 0, 7), Gone(n, Between(c).(pending := [])));
  }

  lemma HangupLeads(s: State, c: Conn)
    requires |c.posted| <= 1 && c.open && Mine(c) && Can(c, Hangup) && Leads(s, Image(c))
    ensures Leads(s, Image(Shut(c)))
  {
    var x, n, b := c.ctx.(inFlight := |c.tasks|), |c.tasks|, Between(c);
    Handled(s, c, Hup(None));
    HeldOwned(x, Disarmed, n, b);
    var t := Held(x, Disarmed, n, b.(todo := HangupCheck(7, 0)));
    assert HandleStep(Holding(c.(arm := Disarmed), b), 0, ID, Hup(None)) == t;
    HeldOwned(x, Disarmed, n, b.(todo := HangupCheck(7, 0)));
    QueueOurs(c);
    hide Copies, Leads, Settles, CloseConnection;
    LeadsOn(s, t, CheckHangup(0));
    CloseSettled(x, Disarmed, n, b);
    assert CheckHangupStep(t, 0) == CloseConnection(Held(x, Disarmed, n, b), 0, 7);
    LeadsSettled(s, CloseConnection(Held(x, Disarmed, n, b), 0, 7), Gone(n, b.(pending := [])));
  }

  lemma IdleCollected(x: Ctx, arm: Arm, n: nat, b: Reactor)
    requires x.gen == 1 && x.inFlight == 0 && b.op == Free && b.todo == Nothing
    ensures Enabled(Held(x, arm, n, b), CollectIdle(0, [ID]))
    ensures Step(Held(x, arm, n, b), CollectIdle(0, [ID])) == Held(x, arm, n, b.(todo := Sweep([ID])))
  {
    hide Copies;
  }

  lemma SweptHeld(x: Ctx, arm: Arm, n: nat, b: Reactor)
    requires x.gen == 1 && b.op == Free && b.todo == Sweep([ID])
    ensures Enabled(Held(x, arm, n, b), SweepNext(0))
    ensures Step(Held(x, arm, n, b), SweepNext(0)) == CloseConnection(Held(x, arm, n, b.(todo := Sweep([]))), 0, 7)
  {
    ByIdentity(x, arm, n, b.(todo := Sweep([])));
    assert [ID][1..] == [];
    hide Copies, BeginClose, CloseConnection;
  }

  lemma SweptGone(n: nat, b: Reactor)
    requires b.op == Free && b.todo == Sweep([])
    ensures Enabled(Gone(n, b), SweepNext(0)) && Step(Gone(n, b), SweepNext(0)) == Gone(n, b.(todo := Nothing))
  {
    hide Copies;
  }

  lemma TimeoutLeads(s: State, c: Conn)
    requires |c.posted| <= 1 && c.open && Mine(c) && Can(c, Timeout) && Leads(s, Image(c))
    ensures Leads(s, Image(Shut(c)))
  {
    hide Leads, Settles, CloseConnection, Copies, Gone, Step, Enabled, Ours;
    var x, n, b := c.ctx.(inFlight := |c.tasks|), |c.tasks|, Between(c);
    var b1, b2 := b.(todo := Sweep([ID])), b.(todo := Sweep([]));
    QueueOurs(c);
    OursAnyTodo(b, Sweep([]));
    IdleCollected(x, c.arm, n, b);
    SweptHeld(x, c.arm, n, b1);
    CloseSettled(x, c.arm, n, b2);
    SweptGone(n, b2.(pending := []));
    LeadsOn(s, Image(c), CollectIdle(0, [ID]));
    LeadsOn(s, Held(x, c.arm, n, b1), SweepNext(0));
    LeadsSettled(s, CloseConnection(Held(x, c.arm, n, b2), 0, 7), Gone(n, b2.(pending := [])));
    LeadsOn(s, Gone(n, b2.(pending := [])), SweepNext(0));
  }

  lemma OursAnyTodo(b: Reactor, todo: Todo)
    requires Ours(b)
    ensures Ours(b.(todo := todo))
  {}

  lemma ByIdentity(x: Ctx, arm: Arm, n: nat, b: Reactor)
    requires x.gen == 1
    ensures CloseConnection(Held(x, arm, n, b), 0, 7) == BeginClose(Held(x, arm, n, b), 0, ID)
  {
    hide Copies, BeginClose;
  }

  lemma WriteAnyArm(c: Conn, out: Output, lim: Limits)
    requires c.ctx.current.Some? && Sane(c.buffer, lim)
    ensures Write(c.(arm := Disarmed), out, lim) == Write(c, out, lim)
    ensures |Write(c, out, lim).posted| <= |c.posted| && Mine(Write(c, out, lim)) == Mine(c)
    ensures !Write(c, out, lim).open ==> Write(c, out, lim).posted == [] || !c.open
    ensures Write(c, out, lim).open ==> Write(c, out, lim).posted == c.posted
  {
    hide NextJob, SentNow, ResponsePipeline.Chunk;
  }

  lemma WritableLeads(s: State, c: Conn, out: Output, lim: Limits)
    requires Sane(c.buffer, lim) && Can(c, Writable(out)) && |c.posted| <= 1 && Mine(c) && Leads(s, Image(c))
    ensures |Write(c, out, lim).posted| <= 1 && Leads(s, Image(Write(c, out, lim)))
  {
    hide Leads, Queue, Held, NextJob, Settles, WriteCurrent, Write, Judged, Gone, Ours;
    var d, b := c.(arm := Disarmed), Between(c);
    QueueOurs(c);
    WriteAnyArm(c, out, lim);
    Handled(s, c, Out(out, Rest(c, lim)));
    HeldOwned(d.ctx.(inFlight := |d.tasks|), Disarmed, |d.tasks|, b);
    WriteSettled(d, out, lim, b);
    LeadsSettled(s, WriteCurrent(Holding(d, b), 0, 7, out, Rest(d, lim)), HeldOrGone(Write(c, out, lim), b));
    assert Queue([]) == [] by { QueueNone(); }
  }

  lemma QueueNone()
    ensures Queue([]) == []
  {}

  // ---------- handleWake ----------

  function Waking(items: seq<Pending>): Reactor { Reactor([], Wake(items), Free) }

  lemma DeliverHeld(x: Ctx, arm: Arm, n: nat, a: Answer, out: Output, rest: Option<Parsed>)
    requires x.gen == 1 && x.uid == 0
    ensures Enabled(Held(x, arm, n, Waking([Posted(a)])), DeliverNext(0, out, rest))
    ensures Step(Held(x, arm, n, Waking([Posted(a)])), DeliverNext(0, out, rest))
         == WriteCurrent(Held(Loaded(x, a), arm, n, Waking([])), 0, 7, out, rest)
  {
    var s, t := Held(x, arm, n, Waking([Posted(a)])), Held(x, arm, n, Waking([]));
    assert [Posted(a)][1..] == [];
    hide Copies;
    assert WithTodo(s, 0, Wake([])) == t;
    HeldOwned(x, arm, n, Waking([]));
    PutHeld(x, arm, n, Waking([]), Loaded(x, a));
    hide WriteCurrent;
  }

  lemma DeliverGone(n: nat, a: Answer, out: Output)
    ensures Enabled(Gone(n, Waking([Posted(a)])), DeliverNext(0, out, None))
    ensures Step(Gone(n, Waking([Posted(a)])), DeliverNext(0, out, None)) == Gone(n, Waking([]))
  {
    assert [Posted(a)][1..] == [];
    hide Copies, WriteCurrent;
  }

  lemma WakeEnds(x: Ctx, arm: Arm, n: nat, out: Output)
    ensures Enabled(Held(x, arm, n, Waking([])), DeliverNext(0, out, None))
    ensures Step(Held(x, arm, n, Waking([])), DeliverNext(0, out, None)) == Held(x, arm, n, Reactor([], Nothing, Free))
    ensures Enabled(Gone(n, Waking([])), DeliverNext(0, out, None))
    ensures Step(Gone(n, Waking([])), DeliverNext(0, out, None)) == Gone(n, Reactor([], Nothing, Free))
  {
    hide Copies, Deliver;
  }

  lemma TakeHeld(x: Ctx, arm: Arm, n: nat, items: seq<Pending>)
    ensures Enabled(Held(x, arm, n, Reactor(items, Nothing, Free)), TakePending(0))
    ensures Step(Held(x, arm, n, Reactor(items, Nothing, Free)), TakePending(0)) == Held(x, arm, n, Waking(items))
    ensures Enabled(Gone(n, Reactor(items, Nothing, Free)), TakePending(0))
    ensures Step(Gone(n, Reactor(items, Nothing, Free)), TakePending(0)) == Gone(n, Waking(items))
  {
    hide Copies;
  }

  lemma WakingOurs()
    ensures Ours(Waking([]))
  {}

  lemma WakeupLeads(s: State, c: Conn, out: Output, lim: Limits)
    requires Sane(c.buffer, lim) && Can(c, Wakeup(out)) && |c.posted| == 1 && Mine(c) && Leads(s, Image(c))
    ensures |After(c, Wakeup(out), lim).posted| <= 1 && Leads(s, Image(After(c, Wakeup(out), lim)))
  {
    hide Leads, Copies, NextJob, Settles, WriteCurrent, Write, Judged, Ours, Step, Enabled;
    var x, n, a := c.ctx.(inFlight := |c.tasks|), |c.tasks|, c.posted[0];
    TakeHeld(x, c.arm, n, [Posted(a)]);
    LeadsOn(s, Image(c), TakePending(0));
    if c.open {
      var d := c.(posted := [], ctx := Loaded(c.ctx, a));
      DeliverHeld(x, c.arm, n, a, out, Rest(d, lim));
      LeadsOn(s, Held(x, c.arm, n, Waking([Posted(a)])), DeliverNext(0, out, Rest(d, lim)));
      WakingOurs();
      WriteSettled(d, out, lim, Waking([]));
      assert Holding(d, Waking([])) == Held(Loaded(x, a), c.arm, n, Waking([]));
      var w := Write(d, out, lim);
      LeadsSettled(s, WriteCurrent(Holding(d, Waking([])), 0, 7, out, Rest(d, lim)), HeldOrGone(w, Waking([])));
      WriteAnyArm(d, out, lim);
      WakeEnds(w.ctx.(inFlight := |w.tasks|), w.arm, |w.tasks|, out);
      LeadsOn(s, HeldOrGone(w, Waking([])), DeliverNext(0, out, None));
      assert c.posted[1..] == [];
    } else {
      DeliverGone(n, a, out);
      LeadsOn(s, Gone(n, Waking([Posted(a)])), DeliverNext(0, out, None));
      WakeEnds(x, c.arm, n, out);
      LeadsOn(s, Gone(n, Waking([])), DeliverNext(0, out, None));
    }
  }

  // ---------- A worker ----------

  const DONE: Task := TASK.(posted := true)

  /** One of n tasks has posted its answer and not yet left. */
  function Moved(n: nat): multiset<Task> { Copies(n) - multiset{TASK} + multiset{DONE} }

  lemma OneLess(n: nat)
    requires n > 0
    ensures TASK in Copies(n) && DONE in Moved(n) && Moved(n) - multiset{DONE} == Copies(n - 1)
  {
    assert Copies(n) - multiset{TASK} == Copies(n - 1);
  }

  lemma ExecuteIs(s: State, n: nat, b: Reactor, a: Answer)
    requires n > 0 && s.tasks == Copies(n) && s.reactors == [b]
    ensures Enabled(s, Execute(TASK, a.data, a.keepAlive, true))
    ensures Step(s, Execute(TASK, a.data, a.keepAlive, true))
         == s.(tasks := Moved(n), reactors := [b.(pending := b.pending + [Posted(a)])])
  {
    OneLess(n);
    hide Copies;
  }

  lemma LeaveIs(s: State, n: nat)
    requires n > 0 && s.tasks == Moved(n)
    ensures Enabled(s, Leave(DONE)) && Step(s, Leave(DONE)) == MarkInFlight(s.(tasks := Copies(n - 1)), 0, ID, false)
  {
    OneLess(n);
    hide Copies, Moved, MarkInFlight;
  }

  lemma WorkHeld(s: State, x: Ctx, arm: Arm, n: nat, b: Reactor, a: Answer)
    requires n > 0 && x.gen == 1 && x.inFlight == n && Leads(s, Held(x, arm, n, b))
    ensures Leads(s, Held(x.(inFlight := n - 1), arm, n - 1, b.(pending := b.pending + [Posted(a)])))
  {
    hide Copies, Leads, Moved, Step, Enabled;
    var t, d := Held(x, arm, n, b), b.(pending := b.pending + [Posted(a)]);
    ExecuteIs(t, n, b, a);
    LeadsOn(s, t, Execute(TASK, a.data, a.keepAlive, true));
    var u := t.(tasks := Moved(n), reactors := [d]);
    LeaveIs(u, n);
    LeadsOn(s, u, Leave(DONE));
    HeldOwned(x, arm, n - 1, d);
    PutHeld(x, arm, n - 1, d, x.(inFlight := n - 1));
    assert u.(tasks := Copies(n - 1)) == Held(x, arm, n - 1, d);
  }

  lemma WorkGone(s: State, n: nat, b: Reactor, a: Answer)
    requires n > 0 && Leads(s, Gone(n, b))
    ensures Leads(s, Gone(n - 1, b.(pending := b.pending + [Posted(a)])))
  {
    hide Copies, Leads, Moved, Step, Enabled;
    var t, d := Gone(n, b), b.(pending := b.pending + [Posted(a)]);
    ExecuteIs(t, n, b, a);
    LeadsOn(s, t, Execute(TASK, a.data, a.keepAlive, true));
    var u := t.(tasks := Moved(n), reactors := [d]);
    LeaveIs(u, n);
    LeadsOn(s, u, Leave(DONE));
  }

  lemma ServeLeads(s: State, c: Conn, i: nat, a: Answer, lim: Limits)
    requires Sane(c.buffer, lim) && Can(c, Serve(i, a)) && c.posted == [] && Mine(c) && Leads(s, Image(c))
    ensures |After(c, Serve(i, a), lim).posted| <= 1 && Leads(s, Image(After(c, Serve(i, a), lim)))
  {
    hide Leads, Held, Gone, WellFormed, KeepsOpen;
    var n, b := |c.tasks|, Reactor([], Nothing, Free);
    assert [] + [Posted(a)] == [Posted(a)] && [] + [a] == [a];
    if c.open { WorkHeld(s, c.ctx.(inFlight := n), c.arm, n, b, a); } else { WorkGone(s, n, b, a); }
  }

  // ---------- Every event, and every run ----------

  lemma MineAfter(c: Conn, e: ResponsePipeline.Event, lim: Limits)
    requires Sane(c.buffer, lim) && Can(c, e) && Mine(c)
    ensures Mine(After(c, e, lim))
  {
    hide NextJob, WellFormed, KeepsOpen, SentNow, Completes, Overflow, Kept;
  }

  lemma SelfLeads(s: State)
    ensures Leads(s, s)
  {
    assert Steps(s, []) == Some(s) && NoRollback([]);
  }

  /** What an event does to the connection, some steps of the server do to its tables, its
      queues and its epoll set; nothing of a handler is left to do afterwards. */
  lemma EventIsSteps(c: Conn, e: ResponsePipeline.Event, lim: Limits)
    requires Sane(c.buffer, lim) && Can(c, e) && Mine(c) && |c.posted| <= 1 && |After(c, e, lim).posted| <= 1
    ensures Leads(Image(c), Image(After(c, e, lim)))
  {
    hide Leads, Image, Taken, Write, WellFormed, KeepsOpen;
    SelfLeads(Image(c));
    match e
    case Serve(i, answer) => ServeLeads(Image(c), c, i, answer, lim);
    case Wakeup(out) => WakeupLeads(Image(c), c, out, lim);
    case Writable(out) => WritableLeads(Image(c), c, out, lim);
    case Read(bytes) => ReadLeads(Image(c), c, bytes, lim);
    case EndOfStream => EndLeads(Image(c), c);
    case Timeout => TimeoutLeads(Image(c), c);
    case Hangup => HangupLeads(Image(c), c);
  }

  lemma StartImage()
    ensures Image(START) == Alone(0, Loop(Nothing), [Peer(7, 0)], multiset{})
  {
    assert Generation(0) == 1;
    assert Copies(0) == multiset{};
  }

  lemma ImagePeers(c: Conn)
    requires |c.posted| <= 1
    ensures |Image(c).peers| == 1
  {}

  lemma StartReached() returns (run: seq<Action>)
    ensures Reaches(1, run, Image(START))
  {
    StartsAccepting();
    StartImage();
    assert Initial(1).peers + [Peer(7, 0)] == [Peer(7, 0)] && |Initial(1).peers| == 0 && Initial(1).closes == multiset{};
    assert Exec(1, []) == Some(Initial(1)) && IntactRun(1, []);
    hide Exec, IntactRun, Alone, Accepting, Image, Loop, Initial;
    AcceptOne(1, [], Loop(Nothing));
    run := [] + [Accept(7)] + [ClearStale] + [Register] + [Insert] + [AddToEpoll(true)];
  }

  /** Every run in which no two answers wait at the same time, so every orderly one, and every
      misordering one that is given here, is what a run of the server does to one connection. */
  lemma {:induction false} PipelineIsServerRun(lim: Limits, run: seq<ResponsePipeline.Event>, c: Conn) returns (server: seq<Action>)
    requires lim.body < ChunkedBody.MAX_SIZE && Run(lim, run) == Some(c) && Singly(lim, run)
    ensures Mine(c) && Reaches(1, server, Image(c))
  {
    hide Can, After, Image, Reaches, Leads;
    if run == [] {
      server := StartReached();
    } else {
      var b := Run(lim, run[..|run| - 1]).value;
      server := PipelineIsServerRun(lim, run[..|run| - 1], b);
      EventIsSteps(b, run[|run| - 1], lim);
      MineAfter(b, run[|run| - 1], lim);
      ImagePeers(c);
      server := ReachesOn(server, Image(b), Image(c));
    }
  }

  lemma ReachesOn(server: seq<Action>, s: State, t: State) returns (longer: seq<Action>)
    requires Reaches(1, server, s) && Leads(s, t) && |t.peers| <= SocketCompat.PERIOD
    ensures server <= longer && Reaches(1, longer, t)
  {
    hide Steps, Exec, IntactRun, NoRollback;
    var more :| Steps(s, more) == Some(t) && NoRollback(more);
    NoRollbackIsIntact(s, more);
    StepsExtend(1, server, s, more, t);
    longer := server + more;
  }
}
