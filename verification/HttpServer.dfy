/** The server object: the calls that the threads make, each proved against the steps of
    the protocol. A call here runs without interruption; ConnectionSafety covers all
    interleavings of the steps. */
module HttpServer {
  import opened ConnectionInvariant
  import opened ConnectionOwnership
  import opened ConnectionSafety
  import opened ConnectionState
  import opened HandlerRuns
  import opened Text

  // ---------- send ----------

  /** What one call of send reports. */
  datatype SendResult = Took(n: nat) | WouldBlock | Interrupted | Failed

  /** The loop calls send again: some bytes were taken, or a signal came in between. */
  predicate GoesOn(r: SendResult) { r.Interrupted? || (r.Took? && r.n > 0) }

  /** The first result after which the loop does not go on, if any. */
  function Stop(results: seq<SendResult>): (k: nat)
    ensures k <= |results| && (forall j :: 0 <= j < k ==> GoesOn(results[j]))
    ensures k < |results| ==> !GoesOn(results[k])
  {
    if results == [] || !GoesOn(results[0]) then 0 else 1 + Stop(results[1..])
  }

  /** The bytes that the calls report to have taken, in all. */
  function TookInAll(results: seq<SendResult>): nat {
    if results == [] then 0
    else TookInAll(results[..|results| - 1]) + match results[|results| - 1] case Took(n) => n case _ => 0
  }

  lemma {:induction false} TookGrows(results: seq<SendResult>, i: nat, k: nat)
    requires i <= k <= |results|
    ensures TookInAll(results[..i]) <= TookInAll(results[..k])
    decreases k - i
  {
    if i < k {
      TookGrows(results, i, k - 1);
      assert results[..k][..k - 1] == results[..k - 1];
    }
  }

  /** writeAllDataFromOffset over the results of the successive calls of send; when there are
      no more results the socket would block. wire is what the peer receives. What the calls
      before the first one that ends the loop have taken is sent, as far as there is data; the
      outcome is fatal exactly when that call failed with an error and data was left. */
  method WriteAllDataFromOffset(data: string, offset: nat, results: seq<SendResult>)
    returns (done: bool, written: nat, fatal: bool, wire: string)
    ensures done <==> offset + written >= |data|
    ensures offset <= |data| ==> offset + written <= |data| && wire == data[offset..offset + written]
    ensures offset > |data| ==> written == 0 && wire == ""
    ensures fatal ==> !done
    ensures offset < |data| ==> (
              var k, left := Stop(results), |data| - offset;
              var took := TookInAll(results[..k]);
              && written == (if took <= left then took else left)
              && (fatal <==> took < left && k < |results| && results[k].Failed?))
  {
    fatal, wire := false, "";
    if offset >= |data| { return true, 0, false, ""; }
    var total, i := offset, 0;
    while total < |data|
      invariant offset <= total <= |data| && i <= |results|
      invariant wire == data[offset..total]
      invariant i <= Stop(results)
      invariant total == if TookInAll(results[..i]) <= |data| - offset then offset + TookInAll(results[..i]) else |data|
      decreases |results| - i, |data| - total
    {
      if i == |results| { return false, total - offset, false, wire; }
      var r := results[i];
      assert results[..i + 1][..i] == results[..i];
      i := i + 1;
      match r {
        case Took(n) =>
          var k := if n <= |data| - total then n else |data| - total;
          if k == 0 { return false, total - offset, false, wire; }
          wire := wire + data[total..total + k];
          total := total + k;
        case WouldBlock => return false, total - offset, false, wire;
        case Interrupted =>
        case Failed => return false, total - offset, true, wire;
      }
    }
    TookGrows(results, i, Stop(results));
    return true, total - offset, false, wire;
  }

  /** remove_if and erase over a reactor's vector. */
  method RemoveIf(items: seq<Pending>, fd: nat) returns (kept: seq<Pending>)
    ensures kept == Without(items, fd)
  {
    kept := [];
    for i := 0 to |items|
      invariant kept + Without(items[i..], fd) == Without(items, fd)
    {
      NextItem(items, fd, i);
      if items[i].id.fd != fd {
        assert kept + ([items[i]] + Without(items[i + 1..], fd)) == (kept + [items[i]]) + Without(items[i + 1..], fd);
        kept := kept + [items[i]];
      }
    }
  }

  lemma NextItem(items: seq<Pending>, fd: nat, i: nat)
    requires i < |items|
    ensures Without(items[i..], fd) == (if items[i].id.fd == fd then [] else [items[i]]) + Without(items[i + 1..], fd)
  {
    assert items[i..][1..] == items[i + 1..];
  }

  // ---------- What the calls mean for connections ----------

  function Counted(c: Ctx, enter: bool): Ctx {
    c.(inFlight := if enter then c.inFlight + 1 else if c.inFlight <= 0 then 0 else c.inFlight - 1)
  }

  /** t counts one request of connection uid more, or less, than s, and nobody else's. */
  ghost predicate OnlyCounts(s: State, t: State, uid: nat, enter: bool) {
    && t == s.(ctxs := t.ctxs) && t.ctxs.Keys == s.ctxs.Keys
    && forall k :: k in s.ctxs ==> t.ctxs[k] == if s.ctxs[k].uid == uid then Counted(s.ctxs[k], enter) else s.ctxs[k]
  }

  lemma CountsOwn(s: State, r: nat, id: ConnId, uid: nat, enter: bool)
    requires Own(s) && GoodId(s, r, id, uid)
    ensures OnlyCounts(s, MarkInFlight(s, r, id, enter), uid, enter)
  {
    var t := MarkInFlight(s, r, id, enter);
    forall k | k in s.ctxs
      ensures t.ctxs[k] == if s.ctxs[k].uid == uid then Counted(s.ctxs[k], enter) else s.ctxs[k]
    {
      assert CtxOk(s, k);
      if k == Slot(r, id.fd) && s.ctxs[k].gen == id.gen { SameUid(s, r, id, uid, s.ctxs[k].uid); }
    }
  }

  lemma OwnsMeansBound(s: State, r: nat, id: ConnId, uid: nat)
    requires Own(s) && GoodId(s, r, id, uid)
    ensures Owns(s, r, id) <==> BoundTo(s, id.fd, uid)
  {
    if id.fd in s.conns { assert BindingOk(s, id.fd); }
    SocketCompat.GenerationsRepeatAfterPeriod(uid, uid);
    if Owns(s, r, id) { CloseTarget(s, r, id, uid); }
  }

  /** t is s with connection uid, if it is bound, unregistered and being closed by r. */
  predicate OnlyCloses(s: State, t: State, r: nat, fd: nat, uid: nat) {
    if BoundTo(s, fd, uid) then r < |s.reactors| && t == Closed(s, r, fd, uid) else t == s
  }

  lemma ClosesOwn(s: State, r: nat, id: ConnId, uid: nat)
    requires Own(s) && r < |s.reactors| && GoodId(s, r, id, uid)
    ensures OnlyCloses(s, BeginClose(s, r, id), r, id.fd, uid)
    ensures s.reactors[r].op == Free && Started(s, uid) ==> Own(BeginClose(s, r, id))
  {
    BeginCloseIs(s, r, id, uid);
    if id.fd in s.conns { assert BindingOk(s, id.fd); }
    if Matches(s, id) { CloseTarget(s, r, id, uid); }
    hide Own, BeginClose;
    if s.reactors[r].op == Free && Started(s, uid) { BeginCloseOwn(s, r, id, uid); }
  }

  /** How a handler leaves connection uid, on whose behalf it read: being closed by its own
      reactor, with one request counted and on its way, or at peace, and then it is armed for
      reading again unless a response is still being sent. */
  ghost predicate Handled(s: State, t: State, r: nat, id: ConnId, uid: nat, ends: bool, asks: bool)
    requires r < |s.reactors| && Has(s, r, id.fd)
  {
    && |t.reactors| == |s.reactors| && t.peers == s.peers && t.tasks == s.tasks
    && t.reactors[r].op == (if ends then Closing(id.fd, r, uid) else if asks then Submitting(id, uid) else Free)
    && (BoundTo(t, id.fd, uid) <==> !ends)
    && (if asks then OnlyCounts(s, t.(conns := s.conns, epoll := s.epoll, reactors := s.reactors), uid, true) else t.ctxs == s.ctxs)
    && (!ends && !asks && Ctxt(s, r, id.fd).current.None? && id.fd in s.epoll && s.epoll[id.fd].reactor == r
        ==> id.fd in t.epoll && t.epoll[id.fd] == Reg(r, id.gen, Reading))
  }

  /** A request is there to be answered, and nothing is being sent. */
  predicate Asks(c: Ctx, parsed: Parsed) { parsed == Request && c.current.None? }

  predicate AsksNow(c: Ctx, input: Input) { input.Refused? || (input.Bytes? && Asks(c, input.parsed)) }

  lemma ClosingHandled(s: State, r: nat, id: ConnId)
    requires MayAct(s, r, id)
    ensures Handled(s, CloseConnection(s, r, id.fd), r, id, Ctxt(s, r, id.fd).uid, true, false)
  {
    var uid := Ctxt(s, r, id.fd).uid;
    assert CtxOk(s, Slot(r, id.fd)) && BindingOk(s, id.fd);
    BeginCloseIs(s, r, id, uid);
    hide Own, BeginClose;
  }

  lemma SubmittedHandled(s: State, r: nat, id: ConnId)
    requires MayAct(s, r, id)
    ensures Handled(s, BeginSubmit(s, r, id, Ctxt(s, r, id.fd).uid), r, id, Ctxt(s, r, id.fd).uid, false, true)
  {
    var uid := Ctxt(s, r, id.fd).uid;
    assert CtxOk(s, Slot(r, id.fd));
    CountsOwn(s, r, id, uid, true);
    hide Own, MarkInFlight;
  }

  lemma RearmedHandled(s: State, r: nat, id: ConnId)
    requires MayAct(s, r, id)
    ensures Handled(s, Rearm(s, r, id, Reading), r, id, Ctxt(s, r, id.fd).uid, false, false)
  {
    hide Own;
  }

  lemma DispatchHandled(s: State, r: nat, id: ConnId, parsed: Parsed)
    requires MayAct(s, r, id)
    ensures (
        var c, t := Ctxt(s, r, id.fd), DispatchBuffered(s, r, id, parsed);
        Own(t) && Handled(s, t, r, id, c.uid, false, Asks(c, parsed)))
  {
    DispatchOwn(s, r, id, parsed);
    SubmittedHandled(s, r, id);
    RearmedHandled(s, r, id);
    hide Own, BeginSubmit, Rearm, OnlyCounts;
  }

  lemma ReadHandled(s: State, r: nat, id: ConnId, input: Input)
    requires MayAct(s, r, id)
    ensures (
        var c, t := Ctxt(s, r, id.fd), HandleRead(s, r, id, input);
        Own(t) && Handled(s, t, r, id, c.uid, input.Eof?, AsksNow(c, input)))
  {
    ReadOwn(s, r, id, input);
    hide Own, BeginSubmit, Rearm, DispatchBuffered, CloseConnection, Handled;
    ClosingHandled(s, r, id);
    SubmittedHandled(s, r, id);
    RearmedHandled(s, r, id);
    if input.Bytes? { DispatchHandled(s, r, id, input.parsed); }
  }

  /** What is left of a context after bytes of its response were sent. */
  function Progressed(c: Ctx, took: nat): Ctx
    requires c.current.Some?
  {
    if c.offset + took >= |c.current.value.data| then c.(offset := 0, current := None) else c.(offset := c.offset + took)
  }

  /** What becomes of a connection whose response is being sent, by what the calls of send
      report: it is closed when nothing was taken and the call that ended the loop failed, or
      when all was taken and it is not to be kept; with bytes left it is otherwise armed for
      writing, further on in its response. */
  ghost predicate SentAsReported(s: State, t: State, r: nat, fd: nat, results: seq<SendResult>)
    requires r < |s.reactors| && |t.reactors| == |s.reactors| && Has(s, r, fd) && Ctxt(s, r, fd).current.Some?
    requires Ctxt(s, r, fd).offset < |Ctxt(s, r, fd).current.value.data|
  {
    var c, k := Ctxt(s, r, fd), Stop(results);
    var left, took := |c.current.value.data| - c.offset, TookInAll(results[..k]);
    var ends := if took >= left then !c.keepAlive else took == 0 && k < |results| && results[k].Failed?;
    && (BoundTo(t, fd, c.uid) <==> !ends) && (t.reactors[r].op == Closing(fd, r, c.uid) <==> ends)
    && (ends ==> t.epoll == s.epoll)
    && Has(t, r, fd) && Ctxt(t, r, fd).(inFlight := c.inFlight) == Progressed(c, took)
    && (took < left && !ends ==>
          && t.reactors == s.reactors && Ctxt(t, r, fd).inFlight == c.inFlight
          && (fd in s.epoll && s.epoll[fd].reactor == r ==> fd in t.epoll && t.epoll[fd] == Reg(r, c.gen, Writing)))
  }

  lemma EndsHandled(s: State, r: nat, id: ConnId)
    requires MayAct(s, r, id)
    ensures (
        var t, uid := CloseConnection(s, r, id.fd), Ctxt(s, r, id.fd).uid;
        && |t.reactors| == |s.reactors| && !BoundTo(t, id.fd, uid) && t.reactors[r].op == Closing(id.fd, r, uid)
        && t.epoll == s.epoll && t.ctxs == s.ctxs)
  {
    ClosingHandled(s, r, id);
    hide Own, BeginClose;
    BeginCloseIs(s, r, id, Ctxt(s, r, id.fd).uid) by { MayActBound(s, r, id); }
  }

  lemma MayActBound(s: State, r: nat, id: ConnId)
    requires MayAct(s, r, id)
    ensures CtxOk(s, Slot(r, id.fd)) && BindingOk(s, id.fd)
  {}

  lemma RearmsHandled(s: State, r: nat, id: ConnId, arm: Arm)
    requires MayAct(s, r, id)
    ensures (
        var t := Rearm(s, r, id, arm);
        && BoundTo(t, id.fd, Ctxt(s, r, id.fd).uid) && t.reactors == s.reactors && t.ctxs == s.ctxs
        && (id.fd in s.epoll && s.epoll[id.fd].reactor == r ==> id.fd in t.epoll && t.epoll[id.fd] == Reg(r, id.gen, arm)))
  {
    hide Own;
  }

  lemma DispatchesHandled(s: State, r: nat, id: ConnId, parsed: Parsed)
    requires MayAct(s, r, id)
    ensures (
        var c, t := Ctxt(s, r, id.fd), DispatchBuffered(s, r, id, parsed);
        && |t.reactors| == |s.reactors| && BoundTo(t, id.fd, c.uid) && !t.reactors[r].op.Closing?
        && Has(t, r, id.fd) && Ctxt(t, r, id.fd).(inFlight := c.inFlight) == c)
  {
    hide Own;
  }

  lemma SentHandled(s: State, r: nat, fd: nat, results: seq<SendResult>, out: Output, rest: Option<Parsed>)
    requires Has(s, r, fd) && MayAct(s, r, ConnId(fd, Ctxt(s, r, fd).gen)) && Ctxt(s, r, fd).current.Some?
    requires Ctxt(s, r, fd).offset < |Ctxt(s, r, fd).current.value.data|
    requires (
        var c, k := Ctxt(s, r, fd), Stop(results);
        var left, took := |c.current.value.data| - c.offset, TookInAll(results[..k]);
        out == Output(if took <= left then took else left, took < left && k < |results| && results[k].Failed?))
    ensures |WriteCurrent(s, r, fd, out, rest).reactors| == |s.reactors|
    ensures SentAsReported(s, WriteCurrent(s, r, fd, out, rest), r, fd, results)
  {
    hide Own, Rearm, DispatchBuffered, CloseConnection, Stop, TookInAll, SameCtx;
    var c := Ctxt(s, r, fd);
    var id := ConnId(fd, c.gen);
    CurrentIsOwn(s, r, fd);
    var d := Progressed(c, TookInAll(results[..Stop(results)]));
    assert SameCtx(c, d) by { StaysOwn(c, TookInAll(results[..Stop(results)])); }
    var p := Put(s, r, fd, d);
    PutMay(s, r, id, d);
    if Completes(c, out) && c.keepAlive {
      RearmMay(p, r, id, Reading);
      RearmsHandled(p, r, id, Reading);
      if rest.Some? { DispatchesHandled(Rearm(p, r, id, Reading), r, id, rest.value); }
    } else if Completes(c, out) || (SentNow(c, out) == 0 && out.fatal) {
      EndsHandled(p, r, id);
    } else {
      RearmsHandled(p, r, id, Writing);
    }
  }

  lemma NothingToWrite(s: State, r: nat, fd: nat, out: Output, rest: Option<Parsed>)
    requires r < |s.reactors| && Has(s, r, fd) && Ctxt(s, r, fd).current.None?
    ensures WriteCurrent(s, r, fd, out, rest) == s
  {}

  lemma StaysOwn(c: Ctx, took: nat)
    requires c.current.Some? && SameCtx(c, c)
    ensures SameCtx(c, Progressed(c, took))
  {}

  lemma FinishedForGood(s: State, r: nat)
    requires Own(s) && Wired(s) && Enabled(s, FinishClose(r))
    ensures FinishCloseStep(s, r).closes[s.reactors[r].op.uid] == 1 && Wired(FinishCloseStep(s, r))
  {
    CloserHolds(s, r);
    assert CtxOk(s, Slot(r, s.reactors[r].op.fd));
    FinishCloseWired(s, r);
    FinishPeers(s, r);
    assert Kernel(FinishCloseStep(s, r));
    hide Own, Wired;
    assert s.reactors[r].op.fd !in FinishCloseStep(s, r).open;
  }

  // ---------- The object ----------

  class HttpServer {
    var conns: map<nat, Binding>
    var contexts: map<Slot, Ctx>
    var epoll: map<nat, Reg>
    var reactors: seq<Reactor>
    var tasks: multiset<Task>
    const generations: SocketCompat.GenerationCounter
    var nextSubReactor: nat
    var acceptor: Acceptor
    ghost var open: map<nat, nat>
    ghost var peers: seq<Peer>
    ghost var closes: multiset<nat>
    ghost var stray: nat

    ghost function View(): State
      reads this
    {
      State(conns, contexts, epoll, open, tasks, reactors, acceptor, peers, closes, stray)
    }

    /** Reactors are taken in turn, and every connection past registerConnection took one
        generation. */
    ghost predicate Valid()
      reads this, generations
    {
      && generations.Valid() && |reactors| > 0 && nextSubReactor == |peers|
      && (acceptor.Setup? ==> acceptor.reactor < |reactors| && acceptor.uid + 1 == |peers|)
      && generations.issued + (if acceptor.Setup? && (acceptor.stage == Opened || acceptor.stage == Cleared) then 1 else 0) == |peers|
    }

    constructor (n: nat)
      requires n > 0
      ensures Valid() && View() == Initial(n) && fresh(generations)
      ensures Own(View()) && Wired(View())
    {
      InitialInv(n);
      generations := new SocketCompat.GenerationCounter();
      conns, contexts, epoll, tasks := map[], map[], map[], multiset{};
      reactors := seq(n, _ => Reactor([], Nothing, Free));
      nextSubReactor, acceptor := 0, Waiting;
      open, peers, closes, stray := map[], [], multiset{}, 0;
    }

    /** For an identity made for connection uid: is uid still registered? */
    method OwnsConnection(fd: nat, r: nat, id: ConnId) returns (b: bool)
      requires id.fd == fd
      ensures b == Owns(View(), r, id)
      ensures forall uid :: Own(View()) && GoodId(View(), r, id, uid) ==> (b <==> BoundTo(View(), fd, uid))
    {
      forall uid | Own(View()) && GoodId(View(), r, id, uid) ensures Owns(View(), r, id) <==> BoundTo(View(), fd, uid) {
        OwnsMeansBound(View(), r, id, uid);
      }
      hide Own, GoodId, BoundTo;
      if fd !in conns { return false; }
      var it := conns[fd];
      if !it.context || it.owner != r { return false; }
      return it.gen != 0 && it.gen == id.gen;
    }

    method DropPendingResponses(r: nat, fd: nat)
      requires r < |reactors|
      modifies `reactors
      ensures View() == DropPending(old(View()), r, fd) && |reactors| == old(|reactors|)
    {
      var kept := RemoveIf(reactors[r].pending, fd);
      hide Without;
      reactors := reactors[r := reactors[r].(pending := kept)];
    }

    method NotifyConnectionReady(r: nat, p: Pending)
      requires r < |reactors|
      modifies `reactors
      ensures View() == Post(old(View()), r, p) && |reactors| == old(|reactors|)
      ensures Posted(View(), r, p)
    {
      reactors := reactors[r := reactors[r].(pending := reactors[r].pending + [p])];
    }

    /** For an identity made for connection uid, uid alone is counted, if it has a context. */
    method MarkInFlight(r: nat, id: ConnId, enter: bool)
      modifies `contexts
      ensures View() == ConnectionState.MarkInFlight(old(View()), r, id, enter)
      ensures forall uid :: Own(old(View())) && GoodId(old(View()), r, id, uid) ==> OnlyCounts(old(View()), View(), uid, enter)
    {
      ghost var s := View();
      forall uid | Own(s) && GoodId(s, r, id, uid)
        ensures OnlyCounts(s, ConnectionState.MarkInFlight(s, r, id, enter), uid, enter)
      {
        CountsOwn(s, r, id, uid, enter);
      }
      hide Own, GoodId, OnlyCounts;
      var k := Slot(r, id.fd);
      if k !in contexts || contexts[k].gen != id.gen { return; }
      var c := contexts[k];
      if enter {
        contexts := contexts[k := c.(inFlight := c.inFlight + 1)];
      } else {
        var prev := c.inFlight;
        contexts := contexts[k := c.(inFlight := if prev <= 0 then 0 else prev - 1)];
      }
    }

    method RegisterConnection(fd: nat, r: nat) returns (id: ConnId)
      requires Valid() && AtStage(View(), Cleared) && acceptor.fd == fd && acceptor.reactor == r
      modifies `conns, `acceptor, generations
      ensures Valid() && View() == Step(old(View()), Register) && id == ConnId(fd, Generation(acceptor.uid))
      ensures fd in conns && conns[fd] == Binding(id.gen, r, true, acceptor.uid)
    {
      var gen := generations.NextConnectionGeneration();
      conns := conns[fd := Binding(gen, r, true, acceptor.uid)];
      acceptor := acceptor.(stage := Registered);
      id := ConnId(fd, gen);
    }

    method Close(fd: nat, uid: nat)
      modifies `open, `epoll, `closes, `stray
      ensures View() == CloseFd(old(View()), fd, uid)
    {
      if fd !in open || open[fd] != uid { stray := stray + 1; }
      open, epoll, closes := open - {fd}, epoll - {fd}, closes + multiset{uid};
    }

    /** accept4 has returned fd; the next reactor is chosen and cleared of stale responses. */
    method OpenConnection(fd: nat) returns (r: nat)
      requires Valid() && acceptor == Waiting && fd !in open
      modifies this
      ensures Valid() && acceptor == Setup(Cleared, fd, r, old(nextSubReactor)) && r < |reactors|
      ensures Enabled(old(View()), Accept(fd)) && Enabled(Step(old(View()), Accept(fd)), ClearStale)
      ensures View() == Step(Step(old(View()), Accept(fd)), ClearStale)
    {
      var uid := nextSubReactor;
      r := uid % |reactors|;
      nextSubReactor := nextSubReactor + 1;
      open, peers, acceptor := open[fd := uid], peers + [Peer(fd, r)], Setup(Opened, fd, r, uid);
      DropPendingResponses(r, fd);
      acceptor := acceptor.(stage := Cleared);
    }

    method InsertContext(fd: nat, r: nat, id: ConnId)
      requires Valid() && AtStage(View(), Registered) && acceptor.fd == fd && acceptor.reactor == r
      requires id == ConnId(fd, Generation(acceptor.uid))
      modifies `contexts, `acceptor
      ensures Valid() && View() == Step(old(View()), Insert)
      ensures fd in conns && conns[fd] == Binding(id.gen, r, true, acceptor.uid) ==> Intact(View(), AddToEpoll(false))
    {
      SocketCompat.GenerationsRepeatAfterPeriod(acceptor.uid, acceptor.uid);
      contexts := contexts[Slot(r, fd) := Ctx(id.gen, acceptor.uid, 0, None, false, 0)];
      acceptor := acceptor.(stage := Inserted);
    }

    /** The answer of epoll_ctl ADD; a failure rolls everything back. */
    method AddConnection(fd: nat, r: nat, id: ConnId, added: bool)
      requires Valid() && AtStage(View(), Inserted) && acceptor.fd == fd && acceptor.reactor == r && fd in open
      requires id == ConnId(fd, Generation(acceptor.uid))
      modifies this
      ensures Valid() && acceptor == Waiting && View() == Step(old(View()), AddToEpoll(added))
    {
      hide CloseFd;
      if added {
        epoll := epoll[fd := Reg(r, id.gen, Reading)];
      } else {
        contexts := contexts - {Slot(r, fd)};
        conns := conns - {fd};
        Close(fd, acceptor.uid);
      }
      acceptor := Waiting;
    }

    /** handleAccept up to epoll_ctl ADD: should that fail, the rollback would find the
        registration. */
    method SetUpConnection(fd: nat) returns (r: nat, id: ConnId)
      requires Valid() && acceptor == Waiting && fd !in open
      modifies this, generations
      ensures Valid() && acceptor == Setup(Inserted, fd, r, old(nextSubReactor)) && fd in open
      ensures id == ConnId(fd, Generation(acceptor.uid)) && |peers| == old(|peers|) + 1
      ensures Steps(old(View()), [Accept(fd), ClearStale, Register, Insert]) == Some(View())
      ensures Intact(View(), AddToEpoll(false))
    {
      ghost var s := View();
      r := OpenConnection(fd);
      ghost var s2 := View();
      id := RegisterConnection(fd, r);
      ghost var s3 := View();
      hide Intact, Steps;
      InsertContext(fd, r, id);
      FourSteps(s, fd, Step(s, Accept(fd)), s2, s3, View());
    }

    /** handleAccept for one new descriptor. */
    method HandleAccept(fd: nat, added: bool)
      requires Valid() && acceptor == Waiting && fd !in open
      modifies this, generations
      ensures Valid() && acceptor == Waiting && |peers| == old(|peers|) + 1
      ensures Steps(old(View()), AcceptRound(fd, added)) == Some(View())
      ensures old(|peers|) < SocketCompat.PERIOD && Own(old(View())) ==> Own(View()) && (Wired(old(View())) ==> Wired(View()))
    {
      ghost var s := View();
      hide Own, Wired, Steps, AcceptRound, IntactSteps;
      var r, id := SetUpConnection(fd);
      ghost var s4 := View();
      AddConnection(fd, r, id, added);
      AcceptedRound(s, fd, s4, added);
      AcceptRoundKeeps(s, fd, View(), added);
    }

    // ---------- Closing ----------

    /** closeConnectionId up to the unregistering, called by reactor r's thread: with an
        identity made for connection uid, uid is closed if it is still registered, and
        nothing else is touched. */
    method CloseConnectionId(r: nat, id: ConnId)
      requires r < |reactors|
      modifies `conns, `reactors
      ensures View() == BeginClose(old(View()), r, id) && |reactors| == old(|reactors|)
      ensures forall uid :: Own(old(View())) && GoodId(old(View()), r, id, uid) ==>
                && OnlyCloses(old(View()), View(), r, id.fd, uid)
                && (old(reactors[r].op) == Free && Started(old(View()), uid) ==> Own(View()))
    {
      ghost var s := View();
      forall uid | Own(s) && GoodId(s, r, id, uid)
        ensures OnlyCloses(s, BeginClose(s, r, id), r, id.fd, uid)
        ensures s.reactors[r].op == Free && Started(s, uid) ==> Own(BeginClose(s, r, id))
      {
        ClosesOwn(s, r, id, uid);
      }
      hide Own, GoodId, OnlyCloses, Started;
      if id.fd !in conns || !conns[id.fd].context { return; }
      var it := conns[id.fd];
      if it.gen != id.gen { return; }
      conns := conns[id.fd := it.(owner := -1, context := false)];
      if it.owner < 0 || it.owner >= |reactors| { return; }
      reactors := reactors[r := reactors[r].(op := Closing(id.fd, it.owner, it.uid))];
    }

    /** The rest of closeConnectionId: context, queued responses and socket are gone, and in
        an agreeing state the connection has been closed once, for good. */
    method FinishClose(r: nat)
      requires Valid() && Enabled(View(), Action.FinishClose(r))
      modifies `reactors, `contexts, `open, `epoll, `closes, `stray
      ensures Valid() && View() == FinishCloseStep(old(View()), r) && |reactors| == old(|reactors|)
      ensures (
          var op := old(reactors[r].op);
          && Slot(op.owner, op.fd) !in contexts && op.fd !in open && op.fd !in epoll
          && (forall p :: p in reactors[op.owner].pending ==> p.id.fd != op.fd))
      ensures Own(old(View())) ==> Own(View())
      ensures Own(old(View())) && Wired(old(View())) ==> Wired(View()) && closes[old(reactors[r].op.uid)] == 1
    {
      ghost var s := View();
      if Own(s) { FinishCloseOwn(s, r); }
      if Own(s) && Wired(s) { FinishedForGood(s, r); }
      hide Own, Wired, CloseFd, DropPending;
      Finish(r);
    }

    method Finish(r: nat)
      requires Enabled(View(), Action.FinishClose(r))
      modifies `reactors, `contexts, `open, `epoll, `closes, `stray
      ensures View() == FinishCloseStep(old(View()), r) && |reactors| == old(|reactors|)
    {
      hide CloseFd, DropPending;
      var op := reactors[r].op;
      reactors := reactors[r := reactors[r].(op := Free)];
      contexts := contexts - {Slot(op.owner, op.fd)};
      DropPendingResponses(op.owner, op.fd);
      Close(op.fd, op.uid);
    }

    method CloseConnection(r: nat, fd: nat)
      requires r < |reactors|
      modifies `conns, `reactors
      ensures View() == ConnectionState.CloseConnection(old(View()), r, fd) && |reactors| == old(|reactors|)
    {
      if Slot(r, fd) in contexts { CloseConnectionId(r, ConnId(fd, contexts[Slot(r, fd)].gen)); }
    }

    /** Handing the task to the pool; when it refuses, the count is taken back. */
    method SubmitTask(r: nat, ok: bool)
      requires Enabled(View(), Submit(r, ok))
      modifies `reactors, `tasks, `contexts
      ensures View() == SubmitStep(old(View()), r, ok) && |reactors| == old(|reactors|)
    {
      var op := reactors[r].op;
      reactors := reactors[r := reactors[r].(op := Free)];
      if ok { tasks := tasks + multiset{Task(r, op.id, op.uid, false)}; } else { MarkInFlight(r, op.id, false); }
    }

    method Settle(r: nat, ok: bool)
      requires r < |reactors|
      modifies `reactors, `contexts, `tasks, `open, `epoll, `closes, `stray
      ensures View() == Settled(old(View()), r, ok) && |reactors| == old(|reactors|)
    {
      match reactors[r].op {
        case Free =>
        case Closing(fd, owner, uid) => if owner < |reactors| { Finish(r); }
        case Submitting(id, uid) => SubmitTask(r, ok);
      }
    }

    // ---------- Requests and responses ----------

    method RearmRead(r: nat, id: ConnId, arm: Arm)
      modifies `epoll
      ensures View() == Rearm(old(View()), r, id, arm)
    {
      if id.fd in epoll && epoll[id.fd].reactor == r { epoll := epoll[id.fd := Reg(r, id.gen, arm)]; }
    }

    /** enqueueRequestTask up to the submission: in flight first. */
    method EnqueueRequestTask(r: nat, id: ConnId, uid: nat)
      requires r < |reactors|
      modifies `contexts, `reactors
      ensures View() == BeginSubmit(old(View()), r, id, uid) && |reactors| == old(|reactors|)
    {
      MarkInFlight(r, id, true);
      reactors := reactors[r := reactors[r].(op := Submitting(id, uid))];
    }

    /** A request that is there to be answered is counted and on its way; without one the
        connection waits to read again. */
    method DispatchBufferedRequests(r: nat, id: ConnId, parsed: Parsed)
      requires r < |reactors|
      modifies `conns, `contexts, `epoll, `reactors
      ensures View() == DispatchBuffered(old(View()), r, id, parsed) && |reactors| == old(|reactors|)
      ensures MayAct(old(View()), r, id) ==> (
                var c := Ctxt(old(View()), r, id.fd);
                Own(View()) && Handled(old(View()), View(), r, id, c.uid, false, Asks(c, parsed)))
    {
      ghost var s := View();
      if MayAct(s, r, id) { DispatchHandled(s, r, id, parsed); }
      hide MayAct, Own, Handled;
      Dispatch(r, id, parsed);
    }

    method Dispatch(r: nat, id: ConnId, parsed: Parsed)
      requires r < |reactors|
      modifies `conns, `contexts, `epoll, `reactors
      ensures View() == DispatchBuffered(old(View()), r, id, parsed) && |reactors| == old(|reactors|)
    {
      hide ConnectionState.CloseConnection, BeginSubmit, Rearm;
      var k := Slot(r, id.fd);
      if k !in contexts {
        CloseConnection(r, id.fd);
      } else if contexts[k].current.Some? {
        return;
      } else if parsed == Incomplete {
        RearmRead(r, id, Reading);
      } else {
        EnqueueRequestTask(r, id, contexts[k].uid);
      }
    }

    /** A connection that may be acted on is closed at the end of its stream and nowhere else;
        a request that asks is counted and on its way; otherwise it waits to read again. */
    method HandleRead(r: nat, id: ConnId, input: Input)
      requires r < |reactors|
      modifies `conns, `contexts, `epoll, `reactors
      ensures View() == ConnectionState.HandleRead(old(View()), r, id, input) && |reactors| == old(|reactors|)
      ensures MayAct(old(View()), r, id) ==> (
                var c := Ctxt(old(View()), r, id.fd);
                Own(View()) && Handled(old(View()), View(), r, id, c.uid, input.Eof?, AsksNow(c, input)))
    {
      ghost var s := View();
      if MayAct(s, r, id) { ReadHandled(s, r, id, input); }
      hide MayAct, Own, Handled, ConnectionState.CloseConnection, BeginSubmit, Rearm, DispatchBuffered;
      var k := Slot(r, id.fd);
      if k !in contexts { CloseConnection(r, id.fd); return; }
      match input {
        case Eof => CloseConnection(r, id.fd);
        case NoData => RearmRead(r, id, Reading);
        case Refused => EnqueueRequestTask(r, id, contexts[k].uid);
        case Bytes(parsed) => Dispatch(r, id, parsed);
      }
    }

    /** The sends' results decide the output, and what becomes of the connection; wire is what
        the peer receives of the response. */
    method WriteCurrentResponse(r: nat, fd: nat, results: seq<SendResult>, rest: Option<Parsed>)
        returns (out: Output, wire: string)
      requires r < |reactors| && Slot(r, fd) in contexts
      modifies `conns, `contexts, `epoll, `reactors
      ensures View() == WriteCurrent(old(View()), r, fd, out, rest) && |reactors| == old(|reactors|)
      ensures (
          var c := old(contexts)[Slot(r, fd)];
          c.current.Some? && c.offset <= |c.current.value.data|
          ==> out.n == SentNow(c, out) && wire == c.current.value.data[c.offset..c.offset + out.n])
      ensures (
          var s := old(View());
          var c := Ctxt(s, r, fd);
          MayAct(s, r, ConnId(fd, c.gen)) && c.current.Some? && c.offset < |c.current.value.data|
          ==> SentAsReported(s, View(), r, fd, results))
    {
      ghost var s := View();
      hide WriteCurrent, MayAct, SentAsReported, Stop, TookInAll;
      out, wire := Output(0, false), "";
      var c := contexts[Slot(r, fd)];
      if c.current.None? {
        NothingToWrite(s, r, fd, out, rest);
        return;
      }
      var done, written, fatal, bytes := WriteAllDataFromOffset(c.current.value.data, c.offset, results);
      out, wire := Output(written, fatal), bytes;
      AfterSending(r, fd, done, written, fatal, rest);
      if MayAct(s, r, ConnId(fd, c.gen)) && c.offset < |c.current.value.data| { SentHandled(s, r, fd, results, out, rest); }
    }

    /** What writeCurrentResponse does once the loop of sends has ended. */
    method AfterSending(r: nat, fd: nat, done: bool, written: nat, fatal: bool, rest: Option<Parsed>)
      requires r < |reactors| && Slot(r, fd) in contexts && contexts[Slot(r, fd)].current.Some?
      requires written == SentNow(contexts[Slot(r, fd)], Output(written, fatal))
      requires done <==> Completes(contexts[Slot(r, fd)], Output(written, fatal))
      modifies `conns, `contexts, `epoll, `reactors
      ensures View() == WriteCurrent(old(View()), r, fd, Output(written, fatal), rest) && |reactors| == old(|reactors|)
    {
      hide DispatchBuffered, Rearm, ConnectionState.CloseConnection, Completes, SentNow;
      var k := Slot(r, fd);
      var c := contexts[k];
      var id := ConnId(fd, c.gen);
      if done {
        contexts := contexts[k := c.(offset := 0, current := None)];
        if c.keepAlive {
          RearmRead(r, id, Reading);
          if rest.Some? { Dispatch(r, id, rest.value); }
        } else {
          CloseConnection(r, fd);
        }
      } else {
        contexts := contexts[k := c.(offset := c.offset + written)];
        if written == 0 && fatal { CloseConnection(r, fd); } else { RearmRead(r, id, Writing); }
      }
    }

    // ---------- The event loop's batches ----------

    /** The contexts of reactor r that the clock judges stale, except those in flight. */
    method CollectIdle(r: nat, stale: set<nat>) returns (ids: seq<ConnId>)
      ensures forall id :: id in ids <==> MayBeIdle(View(), r, id) && id.fd in stale
    {
      ids := [];
      var rest := contexts.Keys;
      while rest != {}
        invariant rest <= contexts.Keys
        invariant forall id :: id in ids <==> MayBeIdle(View(), r, id) && id.fd in stale && Slot(r, id.fd) !in rest
        decreases rest
      {
        var k :| k in rest;
        rest := rest - {k};
        if k.reactor == r && contexts[k].inFlight <= 0 && k.fd in stale {
          ids := ids + [ConnId(k.fd, contexts[k].gen)];
        }
      }
    }

    /** The collected connections are closed one after the other, all of it a run of the
        protocol. */
    method HandleTimer(r: nat, stale: set<nat>) returns (ids: seq<ConnId>, ghost run: seq<Action>)
      requires Valid() && Idle(View(), r)
      modifies `conns, `reactors, `contexts, `tasks, `open, `epoll, `closes, `stray
      ensures Valid() && |reactors| == old(|reactors|)
      ensures forall id :: id in ids <==> MayBeIdle(old(View()), r, id) && id.fd in stale
      ensures View() == Ended(SweptOut(WithTodo(old(View()), r, Sweep(ids)), r, |ids|), r)
      ensures Steps(old(View()), run) == Some(View())
      ensures Own(old(View())) ==> Own(View()) && (Wired(old(View())) ==> Wired(View()))
    {
      ids := CollectIdle(r, stale);
      hide MayBeIdle, Own, Wired, Steps, SweptOut, Ended;
      run := SweepIds(r, ids);
    }

    method SweepIds(r: nat, ids: seq<ConnId>) returns (ghost run: seq<Action>)
      requires Enabled(View(), Action.CollectIdle(r, ids))
      modifies `conns, `reactors, `contexts, `tasks, `open, `epoll, `closes, `stray
      ensures |reactors| == old(|reactors|)
      ensures View() == Ended(SweptOut(WithTodo(old(View()), r, Sweep(ids)), r, |ids|), r)
      ensures Steps(old(View()), run) == Some(View())
      ensures Own(old(View())) ==> Own(View()) && (Wired(old(View())) ==> Wired(View()))
    {
      ghost var s := View();
      run := TimerIsRun(s, r, ids);
      hide MayBeIdle, Own, Wired, Steps, SweptOut, Ended, NoRollback;
      reactors := reactors[r := reactors[r].(todo := Sweep(ids))];
      SweepAll(r, |ids|);
      End(r);
      HandlerKeeps(s, run, View());
    }

    method End(r: nat)
      requires r < |reactors|
      modifies `reactors
      ensures View() == Ended(old(View()), r) && |reactors| == old(|reactors|)
    {
      if reactors[r].op == Free && (reactors[r].todo == Wake([]) || reactors[r].todo == Sweep([])) {
        reactors := reactors[r := reactors[r].(todo := Nothing)];
      }
    }

    method SweepAll(r: nat, n: nat)
      requires r < |reactors|
      modifies `conns, `reactors, `contexts, `tasks, `open, `epoll, `closes, `stray
      ensures |reactors| == old(|reactors|) && View() == SweptOut(old(View()), r, n)
    {
      hide SweepStep, Settled;
      for k := 0 to n
        invariant |reactors| == old(|reactors|) && View() == SweptOut(old(View()), r, k)
      {
        if reactors[r].op == Free && reactors[r].todo.Sweep? { SweepOne(r); }
      }
    }

    method SweepOne(r: nat)
      requires Enabled(View(), SweepNext(r))
      modifies `conns, `reactors, `contexts, `tasks, `open, `epoll, `closes, `stray
      ensures |SweepStep(old(View()), r).reactors| == |old(reactors)| == |reactors|
      ensures View() == Settled(SweepStep(old(View()), r), r, true)
    {
      LoopKeepsOps(View(), SweepNext(r));
      var ids := reactors[r].todo.ids;
      if ids == [] {
        reactors := reactors[r := reactors[r].(todo := Nothing)];
      } else {
        reactors := reactors[r := reactors[r].(todo := Sweep(ids[1..]))];
        CloseConnectionId(r, ids[0]);
      }
      Settle(r, true);
    }

    /** One item of handleWake. */
    method DeliverItem(r: nat, p: Pending, results: seq<SendResult>, rest: Option<Parsed>) returns (out: Output)
      requires r < |reactors|
      modifies `conns, `contexts, `epoll, `reactors
      ensures View() == Deliver(old(View()), r, p, out, rest) && |reactors| == old(|reactors|)
    {
      hide WriteCurrent;
      out := Output(0, false);
      var owned := OwnsConnection(p.id.fd, r, p.id);
      if !owned { return; }
      var k := Slot(r, p.id.fd);
      if k !in contexts || contexts[k].gen != p.id.gen { return; }
      var c := contexts[k];
      contexts := contexts[k := c.(current := Some(p.response), keepAlive := p.keepAlive, offset := 0)];
      var wire;
      out, wire := WriteCurrentResponse(r, p.id.fd, results, rest);
    }

    method DeliverOne(r: nat, results: seq<SendResult>, rest: Option<Parsed>, ok: bool) returns (turn: Turn)
      requires r < |reactors| && reactors[r].op == Free && reactors[r].todo.Wake?
      modifies `conns, `reactors, `contexts, `tasks, `open, `epoll, `closes, `stray
      ensures turn.rest == rest && turn.ok == ok && Enabled(old(View()), DeliverNext(r, turn.output, rest))
      ensures |DeliverStep(old(View()), r, turn.output, rest).reactors| == |old(reactors)| == |reactors|
      ensures View() == Settled(DeliverStep(old(View()), r, turn.output, rest), r, ok)
    {
      hide Deliver;
      ghost var s := View();
      var items := reactors[r].todo.items;
      turn := Turn(Output(0, false), rest, ok);
      if items == [] {
        reactors := reactors[r := reactors[r].(todo := Nothing)];
      } else {
        reactors := reactors[r := reactors[r].(todo := Wake(items[1..]))];
        var out := DeliverItem(r, items[0], results, rest);
        turn := turn.(output := out);
      }
      DeliverKeepsOps(s, r, turn.output, rest);
      Settle(r, ok);
    }

    /** The environment of each delivery is given in order; the swap empties the queue. All of
        it is a run of the protocol. */
    method HandleWake(r: nat, results: seq<seq<SendResult>>, rests: seq<Option<Parsed>>, oks: seq<bool>)
      returns (turns: seq<Turn>, ghost run: seq<Action>)
      requires Valid() && Idle(View(), r) && |results| == |rests| == |oks| == |reactors[r].pending|
      modifies `conns, `reactors, `contexts, `tasks, `open, `epoll, `closes, `stray
      ensures Valid() && |reactors| == old(|reactors|)
      ensures |turns| <= |rests| && forall i :: 0 <= i < |turns| ==> turns[i].rest == rests[i] && turns[i].ok == oks[i]
      ensures View() == Ended(Delivered(Swapped(old(View()), r), r, turns), r)
      ensures Steps(old(View()), run) == Some(View())
      ensures Own(old(View())) ==> Own(View()) && (Wired(old(View())) ==> Wired(View()))
    {
      ghost var s := View();
      hide Own, Wired, Steps, Delivered, Ended, NoRollback;
      reactors := reactors[r := Reactor([], Wake(reactors[r].pending), Free)];
      turns := DeliverAll(r, results, rests, oks);
      End(r);
      run := WakeIsRun(s, r, turns);
      HandlerKeeps(s, run, View());
    }

    method DeliverAll(r: nat, results: seq<seq<SendResult>>, rests: seq<Option<Parsed>>, oks: seq<bool>)
      returns (turns: seq<Turn>)
      requires r < |reactors| && |results| == |rests| == |oks|
      modifies `conns, `reactors, `contexts, `tasks, `open, `epoll, `closes, `stray
      ensures |turns| <= |rests| && forall i :: 0 <= i < |turns| ==> turns[i].rest == rests[i] && turns[i].ok == oks[i]
      ensures |reactors| == old(|reactors|) && View() == Delivered(old(View()), r, turns)
      ensures |turns| == |rests| || reactors[r].op != Free || !reactors[r].todo.Wake?
    {
      ghost var s := View();
      assert Delivered(s, r, []) == s;
      hide *;
      turns := [];
      while |turns| < |rests| && reactors[r].op == Free && reactors[r].todo.Wake?
        invariant |turns| <= |rests| && r < |reactors| == old(|reactors|) && r < |s.reactors| && View() == Delivered(s, r, turns)
        invariant forall j :: 0 <= j < |turns| ==> turns[j].rest == rests[j] && turns[j].ok == oks[j]
        decreases |rests| - |turns|
      {
        var turn := DeliverOne(r, results[|turns|], rests[|turns|], oks[|turns|]);
        DeliveredSnoc(s, r, turns, turn);
        turns := turns + [turn];
      }
    }
  }
}
