/** Several requests in one buffer: from the bytes that arrived to the bytes that are sent,
    on one connection, under any schedule of the workers and any partial sends. */
module ResponsePipeline {
  import opened Text
  import opened ChunkedBody
  import opened ReadBuffer
  import opened RequestParser
  import opened RequestRoundTrip
  import opened ConnectionState

  /** Where the bytes of a connection are kept: a string that is to stay within a limit, a
      block of the pool, or nothing, when the pool had no block left. */
  datatype Store = Growing(limit: nat) | Fixed(cap: nat) | Starved

  /** The configured limits on a request's body and head, and the request buffer. */
  datatype Limits = Limits(body: nat, head: nat, store: Store)

  /** What the dispatcher hands to the pool: a request, or the answer to a refused one. */
  datatype Job = Accepted(req: RequestParser.Request) | Rejected(status: nat)

  datatype Answer = Answer(data: string, keepAlive: bool)

  /** The answer to the job that was handed out after number others. */
  datatype Served = Served(number: nat, answer: Answer)

  const STATUS_LINE: string := "HTTP/1.1 "

  /** Every answer begins with a status line. */
  predicate WellFormed(a: Answer) { |a.data| > |STATUS_LINE| && a.data[..|STATUS_LINE|] == STATUS_LINE }

  predicate Sane(buffer: string, lim: Limits) { |buffer| < MAX_SIZE && lim.body < MAX_SIZE }

  /** The status for which a request that does not parse is answered and closed. */
  function Refusal(r: RequestParser.Request, size: nat, lim: Limits): Option<nat> {
    if r.conflicting || r.tooLarge then Some(if r.tooLarge then 413 else 400)
    else if r.malformed then Some(400)
    else if !r.lengthValid then Some(400)
    else if size > lim.head then Some(431)
    else None
  }

  /** dispatchBufferedRequests: the next job, and what stays in the buffer. */
  function NextJob(buffer: string, lim: Limits): (j: Option<(Job, string)>)
    requires Sane(buffer, lim)
    ensures j.Some? && j.value.0.Accepted? ==> |j.value.1| < |buffer|
    ensures j.Some? ==> |j.value.1| <= |buffer|
  {
    var o := Parse(FRESH, buffer, lim.body);
    if !o.ok then
      match Refusal(o.req, |buffer|, lim)
      case None => None
      case Some(status) => Some((Rejected(status), buffer))
    else if o.req.headerEnd + o.req.sepLen > lim.head then Some((Rejected(431), buffer))
    else
      ConsumedInBounds(FRESH, buffer, lim.body);
      Some((Accepted(o.req), buffer[o.req.Consumed()..]))
  }

  /** All jobs that a buffer holds; a refusal is the last. */
  function Jobs(buffer: string, lim: Limits): seq<Job>
    requires Sane(buffer, lim)
    decreases |buffer|
  {
    match NextJob(buffer, lim)
    case None => []
    case Some(next) => if next.0.Rejected? then [next.0] else [next.0] + Jobs(next.1, lim)
  }

  // ---------- The request buffer ----------

  /** What is unread after the bytes of a read event have been appended. */
  function Kept(buffer: string, bytes: string, store: Store): (r: string)
    ensures |r| <= |buffer + bytes|
  {
    match store
    case Growing(_) => QueueStep(buffer, Append(bytes))
    case Fixed(cap) => BlockStep(Block(buffer, false), cap, Append(bytes)).unread
    case Starved => buffer
  }

  /** The status with which handleRead refuses all that is in the buffer, without parsing it:
      the string has grown beyond its limit, the block has been too small, or there is none. */
  function Overflow(buffer: string, bytes: string, store: Store): Option<nat> {
    match store
    case Growing(limit) => if |buffer + bytes| > limit then Some(413) else None
    case Fixed(cap) => if BlockStep(Block(buffer, false), cap, Append(bytes)).truncated then Some(413) else None
    case Starved => Some(503)
  }

  /** Exactly when the unread bytes and the new ones exceed what there is room for. */
  lemma OverflowIff(buffer: string, bytes: string, store: Store)
    requires bytes != ""
    ensures Overflow(buffer, bytes, store)
         == match store
            case Growing(limit) => if |buffer| + |bytes| > limit then Some(413) else None
            case Fixed(cap) => if |buffer| + |bytes| > cap then Some(413) else None
            case Starved => Some(503)
    ensures Overflow(buffer, bytes, store) == None ==> Kept(buffer, bytes, store) == buffer + bytes
  {}

  /** It makes no difference in how many pieces the bytes of one read event are appended. */
  lemma {:induction false} PiecesAreOne(buffer: string, a: string, b: string, store: Store)
    requires store.Fixed? ==> |buffer| <= store.cap
    ensures Kept(Kept(buffer, a, store), b, store) == Kept(buffer, a + b, store)
    ensures Overflow(buffer, a + b, store)
         == if Overflow(buffer, a, store).Some? then Overflow(buffer, a, store) else Overflow(Kept(buffer, a, store), b, store)
  {
    Assoc(buffer, a, b);
    if store.Fixed? {
      BlockPieces(Block(buffer, false), store.cap, a, b);
    }
  }

  // ---------- One connection ----------

  /** tasks are the numbers of the jobs queued or running, posted waits for handleWake; wire
      is what the peer has received. Histories: all jobs handed out, and the answers
      computed, in the order of the workers. The flags of a refused buffer are not kept:
      they are cleared whenever reading is armed again. */
  datatype Conn = Conn(
    buffer: string, tasks: seq<nat>, posted: seq<Answer>, ctx: Ctx, arm: Arm, open: bool,
    wire: string, handed: seq<Job>, served: seq<Served>)

  /** A worker finishes, a posted answer is delivered, the socket takes more, bytes arrive, the
      stream ends; the timer or the hang-up check closes. */
  datatype Event =
    | Serve(i: nat, answer: Answer) | Wakeup(out: Output) | Writable(out: Output) | Read(bytes: string)
    | EndOfStream | Timeout | Hangup

  function Dispatch(c: Conn, lim: Limits): (d: Conn)
    requires Sane(c.buffer, lim)
    ensures |d.buffer| <= |c.buffer|
  {
    if c.ctx.current.Some? then c
    else
      match NextJob(c.buffer, lim)
      case None => c.(arm := Reading)
      case Some(next) => c.(buffer := next.1, tasks := c.tasks + [|c.handed|], handed := c.handed + [next.0])
  }

  /** The bytes of the current response that this send gives to the peer. */
  function Chunk(x: Ctx, out: Output): string
    requires x.current.Some?
  {
    if x.offset <= |x.current.value.data| then x.current.value.data[x.offset..x.offset + SentNow(x, out)] else ""
  }

  /** The connection is closed; what was posted or being sent is dropped, what runs goes on. */
  function Shut(c: Conn): Conn {
    c.(open := false, posted := [], arm := Disarmed, ctx := c.ctx.(current := None, offset := 0))
  }

  /** A send that gives nothing to the peer and fails. */
  predicate Fails(x: Ctx, out: Output)
    requires x.current.Some?
  {
    !Completes(x, out) && SentNow(x, out) == 0 && out.fatal
  }

  /** writeCurrentResponse. */
  function Write(c: Conn, out: Output, lim: Limits): (d: Conn)
    requires c.ctx.current.Some? && Sane(c.buffer, lim)
    ensures |d.buffer| <= |c.buffer|
  {
    var x := c.ctx;
    var sent := c.(wire := c.wire + Chunk(x, out));
    if Completes(x, out) then
      var d := sent.(ctx := x.(offset := 0, current := None), arm := Reading);
      if !x.keepAlive then Shut(d) else if d.buffer != "" then Dispatch(d, lim) else d
    else if Fails(x, out) then Shut(sent)
    else sent.(ctx := x.(offset := x.offset + SentNow(x, out)), arm := Writing)
  }

  /** Only then may the answer leave the connection open; an exception still closes it. */
  predicate KeepsOpen(j: Job) { j.Accepted? && j.req.KeepAlive() }

  predicate Can(c: Conn, e: Event) {
    match e
    case Serve(i, answer) =>
      && i < |c.tasks| && c.tasks[i] < |c.handed| && WellFormed(answer)
      && (answer.keepAlive ==> KeepsOpen(c.handed[c.tasks[i]]))
    case Wakeup(out) => c.posted != []
    case Writable(out) => c.open && c.arm == Writing && c.ctx.current.Some?
    case Read(bytes) => c.open && c.arm == Reading && bytes != "" && |c.buffer| + |bytes| < MAX_SIZE
    case EndOfStream => c.open && c.arm == Reading
    case Timeout => c.open && c.tasks == []
    case Hangup => c.open && c.tasks == [] && c.ctx.current.None?
  }

  /** handleWake, for one answer. */
  function Loaded(x: Ctx, a: Answer): Ctx {
    x.(current := Some(Response(a.data, x.uid)), keepAlive := a.keepAlive, offset := 0)
  }

  /** handleRead with bytes: a buffer without room is refused past the dispatcher's gate. */
  function Taken(c: Conn, bytes: string, lim: Limits): (d: Conn)
    requires Sane(c.buffer, lim) && |c.buffer| + |bytes| < MAX_SIZE
    ensures Sane(d.buffer, lim)
  {
    var b := c.(buffer := Kept(c.buffer, bytes, lim.store), arm := Disarmed);
    match Overflow(c.buffer, bytes, lim.store)
    case Some(status) => b.(tasks := c.tasks + [|c.handed|], handed := c.handed + [Rejected(status)])
    case None => Dispatch(b, lim)
  }

  function After(c: Conn, e: Event, lim: Limits): (d: Conn)
    requires Can(c, e) && Sane(c.buffer, lim)
    ensures Sane(d.buffer, lim)
  {
    match e
    case Serve(i, answer) =>
      c.(tasks := c.tasks[..i] + c.tasks[i + 1..], posted := c.posted + [answer], served := c.served + [Served(c.tasks[i], answer)])
    case Wakeup(out) =>
      var d := c.(posted := c.posted[1..]);
      if !c.open then d
      else Write(d.(ctx := Loaded(c.ctx, c.posted[0])), out, lim)
    case Writable(out) => Write(c, out, lim)
    case Read(bytes) => Taken(c, bytes, lim)
    case EndOfStream => Shut(c)
    case Timeout => Shut(c)
    case Hangup => Shut(c)
  }

  /** A connection that has just been accepted. */
  const START: Conn := Conn("", [], [], Ctx(1, 0, 0, None, false, 0), Reading, true, "", [], [])

  function Run(lim: Limits, run: seq<Event>): (c: Option<Conn>)
    requires lim.body < MAX_SIZE
    ensures c.Some? ==> Sane(c.value.buffer, lim)
  {
    if run == [] then Some(START)
    else
      match Run(lim, run[..|run| - 1])
      case None => None
      case Some(c) => if Can(c, run[|run| - 1]) then Some(After(c, run[|run| - 1], lim)) else None
  }

  // ---------- These are the steps of the protocol ----------

  /** How the dispatcher judges a buffer. */
  function Judged(buffer: string, lim: Limits): Parsed
    requires Sane(buffer, lim)
  {
    if NextJob(buffer, lim).Some? then Parsed.Request else Parsed.Incomplete
  }

  /** The connection as the server's tables hold it. */
  predicate Shows(s: State, r: nat, fd: nat, c: Conn) {
    && r < |s.reactors| && Has(s, r, fd) && Ctxt(s, r, fd).(inFlight := 0) == c.ctx.(inFlight := 0)
    && fd in s.epoll && s.epoll[fd].reactor == r && s.epoll[fd].arm == c.arm
  }

  lemma DispatchFollowsProtocol(c: Conn, lim: Limits, s: State, r: nat, fd: nat)
    requires Sane(c.buffer, lim) && Shows(s, r, fd, c) && s.reactors[r].op == Free
    ensures (
        var t, d := DispatchBuffered(s, r, ConnId(fd, c.ctx.gen), Judged(c.buffer, lim)), Dispatch(c, lim);
        Shows(t, r, fd, d) && d.open == c.open && (t.reactors[r].op.Submitting? <==> d.tasks != c.tasks) && !t.reactors[r].op.Closing?)
  {
    hide NextJob;
  }

  /** A connection stays open, keeps what it sends, is armed and hands out its next request
      exactly as writeCurrentResponse does it in the protocol. */
  lemma {:induction false} WriteFollowsProtocol(c: Conn, out: Output, lim: Limits, s: State, r: nat, fd: nat)
    requires c.ctx.current.Some? && Sane(c.buffer, lim) && c.open && Shows(s, r, fd, c) && s.reactors[r].op == Free
    ensures (
        var rest := if c.buffer == "" then None else Some(Judged(c.buffer, lim));
        var t, d, x := WriteCurrent(s, r, fd, out, rest), Write(c, out, lim), Ctxt(s, r, fd);
        && (d.open ==> Shows(t, r, fd, d) && (t.reactors[r].op.Submitting? <==> d.tasks != c.tasks) && !t.reactors[r].op.Closing?)
        && (!d.open ==> t == CloseConnection(Put(s, r, fd, Advanced(x, out)), r, fd)))
  {
    hide NextJob, Dispatch, DispatchBuffered, CloseConnection;
    var x := Ctxt(s, r, fd);
    assert Completes(x, out) == Completes(c.ctx, out) && SentNow(x, out) == SentNow(c.ctx, out);
    if Completes(c.ctx, out) && c.ctx.keepAlive {
      var d := c.(wire := c.wire + Chunk(c.ctx, out), ctx := c.ctx.(offset := 0, current := None), arm := Reading);
      var t := Rearm(Put(s, r, fd, x.(offset := 0, current := None)), r, ConnId(fd, x.gen), Reading);
      assert Shows(t, r, fd, d);
      DispatchFollowsProtocol(d, lim, t, r, fd);
    }
  }

  function Advanced(x: Ctx, out: Output): Ctx
    requires x.current.Some?
  {
    if Completes(x, out) then x.(offset := 0, current := None) else x.(offset := x.offset + SentNow(x, out))
  }

  /** How a read event with bytes is classified there. */
  function InputOf(c: Conn, bytes: string, lim: Limits): Input
    requires Sane(c.buffer, lim) && |c.buffer| + |bytes| < MAX_SIZE
  {
    if Overflow(c.buffer, bytes, lim.store).Some? then Refused else Bytes(Judged(Kept(c.buffer, bytes, lim.store), lim))
  }

  /** Bytes are taken, refused, parsed and submitted exactly as handleRead does it in the
      protocol, once the event has disarmed the descriptor. */
  lemma {:induction false} ReadFollowsProtocol(c: Conn, bytes: string, lim: Limits, s: State, r: nat, fd: nat)
    requires Sane(c.buffer, lim) && |c.buffer| + |bytes| < MAX_SIZE && c.open && s.reactors != []
    requires Shows(s, r, fd, c.(arm := Disarmed)) && s.reactors[r].op == Free
    ensures (
        var t, d := HandleRead(s, r, ConnId(fd, c.ctx.gen), InputOf(c, bytes, lim)), Taken(c, bytes, lim);
        Shows(t, r, fd, d) && d.open && (t.reactors[r].op.Submitting? <==> d.tasks != c.tasks) && !t.reactors[r].op.Closing?)
  {
    hide NextJob, DispatchBuffered, Dispatch;
    var b := c.(buffer := Kept(c.buffer, bytes, lim.store), arm := Disarmed);
    DispatchFollowsProtocol(b, lim, s, r, fd);
  }

  // ---------- Orderly runs ----------

  predicate Quiet(c: Conn) { c.tasks == [] && c.posted == [] && c.ctx.current.None? }

  /** A read event that hands out a job while another is under way. */
  predicate HandsOutBusy(c: Conn, e: Event, lim: Limits)
    requires Can(c, e) && Sane(c.buffer, lim)
  {
    e.Read? && !Quiet(c) && After(c, e, lim).handed != c.handed
  }

  predicate Orderly(lim: Limits, run: seq<Event>)
    requires lim.body < MAX_SIZE && Run(lim, run).Some?
  {
    run == [] ||
    (&& Orderly(lim, run[..|run| - 1])
     && !HandsOutBusy(Run(lim, run[..|run| - 1]).value, run[|run| - 1], lim))
  }

  /** Never two answers wait to be delivered at the same time. */
  predicate Singly(lim: Limits, run: seq<Event>)
    requires lim.body < MAX_SIZE && Run(lim, run).Some?
  {
    |Run(lim, run).value.posted| <= 1 && (run == [] || Singly(lim, run[..|run| - 1]))
  }

  predicate Closes(e: Event) { e.EndOfStream? || e.Timeout? || e.Hangup? }

  /** An event that drops a job that is under way: a send fails, or the connection is closed
      although it is not quiet. */
  predicate Cuts(c: Conn, e: Event)
    requires Can(c, e)
  {
    match e
    case Wakeup(out) => c.open && Fails(Loaded(c.ctx, c.posted[0]), out)
    case Writable(out) => Fails(c.ctx, out)
    case _ => Closes(e) && !Quiet(c)
  }

  predicate Uncut(lim: Limits, run: seq<Event>)
    requires lim.body < MAX_SIZE && Run(lim, run).Some?
  {
    run == [] || (Uncut(lim, run[..|run| - 1]) && !Cuts(Run(lim, run[..|run| - 1]).value, run[|run| - 1]))
  }

  /** All answers in the order given, one behind the other. */
  function Cat(served: seq<Served>): string {
    if served == [] then "" else Cat(served[..|served| - 1]) + served[|served| - 1].answer.data
  }

  predicate Numbered(served: seq<Served>) { forall k :: 0 <= k < |served| ==> served[k].number == k }

  /** Jobs are answered in the order they were handed out, and the peer has received a
      prefix of their answers laid end to end. */
  predicate AnsweredInOrder(c: Conn) { Numbered(c.served) && c.wire <= Cat(c.served) }

  // ---------- What is on the wire ----------

  predicate AllKeep(served: seq<Served>) { forall k :: 0 <= k < |served| ==> served[k].answer.keepAlive }

  predicate InOrder(c: Conn) {
    && Numbered(c.served) && |c.served| <= |c.handed|
    && forall k :: 0 <= k < |c.served| ==> (c.served[k].answer.keepAlive ==> KeepsOpen(c.handed[k]))
  }

  /** One job is queued or running, all before it are answered and sent. */
  predicate Working(c: Conn) {
    var n := |c.served|;
    && c.open && |c.handed| == n + 1 && c.tasks == [n] && c.posted == [] && c.ctx.current.None?
    && AllKeep(c.served) && c.wire == Cat(c.served)
  }

  /** The last answer is computed and not completely sent. */
  predicate Answered(c: Conn) {
    var n := |c.served|;
    c.open && n > 0 && |c.handed| == n && c.tasks == [] && AllKeep(c.served[..n - 1])
  }

  predicate Replied(c: Conn) {
    var n := |c.served|;
    && Answered(c) && c.posted == [c.served[n - 1].answer] && WellFormed(c.posted[0]) && c.ctx.current.None?
    && c.wire == Cat(c.served[..n - 1])
  }

  predicate Sending(c: Conn) {
    var n := |c.served|;
    && Answered(c) && c.posted == [] && c.ctx.current.Some?
    && c.ctx.current.value.data == c.served[n - 1].answer.data && c.ctx.keepAlive == c.served[n - 1].answer.keepAlive
    && c.ctx.offset < |c.ctx.current.value.data|
    && c.wire == Cat(c.served[..n - 1]) + c.ctx.current.value.data[..c.ctx.offset]
  }

  /** Nothing is under way, and the buffer holds no complete request. */
  predicate Rests(c: Conn, lim: Limits)
    requires Sane(c.buffer, lim)
  {
    && c.open && Quiet(c) && c.arm == Reading && |c.handed| == |c.served|
    && AllKeep(c.served) && c.wire == Cat(c.served) && NextJob(c.buffer, lim).None?
  }

  /** Closed after all answers: by the last of them, or at rest. */
  predicate Ended(c: Conn, lim: Limits)
    requires Sane(c.buffer, lim)
  {
    var n := |c.served|;
    && !c.open && Quiet(c) && |c.handed| == n && c.wire == Cat(c.served)
    && if n > 0 && !c.served[n - 1].answer.keepAlive then AllKeep(c.served[..n - 1])
       else AllKeep(c.served) && NextJob(c.buffer, lim).None?
  }

  /** Closed with a job under way: its answer will not come, or has not come completely. */
  predicate Lost(c: Conn) {
    var n := |c.served|;
    && !c.open && c.ctx.current.None?
    && if c.tasks != [] then c.tasks == [n] && |c.handed| == n + 1 && c.posted == [] && AllKeep(c.served) && c.wire == Cat(c.served)
       else
         && |c.handed| == n > 0 && AllKeep(c.served[..n - 1]) && |c.posted| <= 1
         && c.wire <= Cat(c.served) && c.wire != Cat(c.served)
  }

  predicate Inv(c: Conn, lim: Limits)
    requires Sane(c.buffer, lim)
  {
    && InOrder(c)
    && (Working(c) || Replied(c) || (Sending(c) && c.arm == Writing) || Rests(c, lim) || Ended(c, lim) || Lost(c))
  }

  lemma ServeInv(c: Conn, i: nat, answer: Answer, lim: Limits)
    requires Sane(c.buffer, lim) && Inv(c, lim) && Can(c, Serve(i, answer))
    ensures Inv(After(c, Serve(i, answer), lim), lim)
    ensures Lost(After(c, Serve(i, answer), lim)) <==> Lost(c)
  {
    hide NextJob, WellFormed, KeepsOpen;
    var d := After(c, Serve(i, answer), lim);
    assert d.tasks == [] && d.posted == [answer] && d.served[..|c.served|] == c.served;
    assert Cat(d.served) == Cat(c.served) + answer.data && |answer.data| > 0 by { NotEmpty(answer); }
  }

  lemma NotEmpty(a: Answer)
    requires WellFormed(a)
    ensures |a.data| > 0
  {}

  /** Handing out the next job when the last response is complete. */
  lemma NextInv(c: Conn, lim: Limits)
    requires Sane(c.buffer, lim) && InOrder(c) && c.open && Quiet(c) && |c.handed| == |c.served|
    requires AllKeep(c.served) && c.wire == Cat(c.served)
    ensures Inv(Dispatch(c, lim), lim)
  {
    hide NextJob;
  }

  lemma StartInv(lim: Limits)
    requires lim.body < MAX_SIZE
    ensures Inv(START, lim) && !Lost(START)
  {
    EmptyHoldsNothing(lim);
    hide NextJob;
  }

  lemma CompleteInv(c: Conn, out: Output, lim: Limits)
    requires Sane(c.buffer, lim) && InOrder(c) && Sending(c) && Completes(c.ctx, out)
    ensures Inv(Write(c, out, lim), lim) && !Lost(Write(c, out, lim))
  {
    hide NextJob;
    var n, x := |c.served|, c.ctx;
    var data := x.current.value.data;
    assert Chunk(x, out) == data[x.offset..];
    assert data[..x.offset] + data[x.offset..] == data;
    Assoc(Cat(c.served[..n - 1]), data[..x.offset], data[x.offset..]);
    assert c.wire + Chunk(x, out) == Cat(c.served);
    assert c.served == c.served[..n - 1] + [c.served[n - 1]];
    if x.keepAlive {
      var d := c.(wire := Cat(c.served), ctx := x.(offset := 0, current := None), arm := Reading);
      assert AllKeep(d.served);
      if d.buffer != "" { NextInv(d, lim); } else { EmptyHoldsNothing(lim); }
    }
  }

  lemma EmptyHoldsNothing(lim: Limits)
    requires lim.body < MAX_SIZE
    ensures NextJob("", lim) == None && Jobs("", lim) == []
  {
    hide Parse;
    EmptyDoesNotParse(lim.body);
    EmptyIsNotRejected(lim);
  }

  lemma EmptyIsNotRejected(lim: Limits)
    requires lim.body < MAX_SIZE
    ensures Refusal(Parse(FRESH, "", lim.body).req, 0, lim) == None
  {}

  /** What is on the wire when not all of an answer has been sent. */
  lemma PartialWire(served: seq<Served>, offset: nat)
    requires served != [] && offset < |served[|served| - 1].answer.data|
    ensures (
        var wire := Cat(served[..|served| - 1]) + served[|served| - 1].answer.data[..offset];
        wire <= Cat(served) && wire != Cat(served))
  {
    var data := served[|served| - 1].answer.data;
    assert data[..offset] + data[offset..] == data;
    Assoc(Cat(served[..|served| - 1]), data[..offset], data[offset..]);
  }

  lemma PartialInv(c: Conn, out: Output, lim: Limits)
    requires Sane(c.buffer, lim) && InOrder(c) && Sending(c) && !Completes(c.ctx, out)
    ensures Inv(Write(c, out, lim), lim) && (Lost(Write(c, out, lim)) <==> Fails(c.ctx, out))
  {
    hide NextJob;
    var n, x := |c.served|, c.ctx;
    var data, k := x.current.value.data, SentNow(x, out);
    assert data[..x.offset] + data[x.offset..x.offset + k] == data[..x.offset + k];
    Assoc(Cat(c.served[..n - 1]), data[..x.offset], data[x.offset..x.offset + k]);
    assert c.wire + Chunk(x, out) == Cat(c.served[..n - 1]) + data[..x.offset + k];
    PartialWire(c.served, x.offset + k);
  }

  lemma WriteInv(c: Conn, out: Output, lim: Limits)
    requires Sane(c.buffer, lim) && InOrder(c) && Sending(c)
    ensures Inv(Write(c, out, lim), lim) && (Lost(Write(c, out, lim)) <==> Fails(c.ctx, out))
  {
    hide Write, Inv, Completes, InOrder, Lost;
    if Completes(c.ctx, out) { CompleteInv(c, out, lim); } else { PartialInv(c, out, lim); }
  }

  lemma WakeupInv(c: Conn, out: Output, lim: Limits)
    requires Sane(c.buffer, lim) && Inv(c, lim) && Can(c, Wakeup(out))
    ensures Inv(After(c, Wakeup(out), lim), lim)
    ensures Lost(After(c, Wakeup(out), lim)) <==> Lost(c) || Cuts(c, Wakeup(out))
  {
    hide NextJob, Write, Fails;
    if c.open {
      assert Replied(c);
      var p := c.posted[0];
      var d := c.(posted := c.posted[1..], ctx := Loaded(c.ctx, p));
      assert d.wire == Cat(d.served[..|d.served| - 1]) + p.data[..0];
      WriteInv(d, out, lim);
    }
  }

  lemma WritableInv(c: Conn, out: Output, lim: Limits)
    requires Sane(c.buffer, lim) && Inv(c, lim) && Can(c, Writable(out))
    ensures Inv(After(c, Writable(out), lim), lim)
    ensures Lost(After(c, Writable(out), lim)) <==> Lost(c) || Cuts(c, Writable(out))
  {
    hide NextJob, Write, Fails;
    assert Sending(c);
    WriteInv(c, out, lim);
  }

  /** Closing at rest loses nothing, and closing with a job under way loses it. */
  lemma CloseInv(c: Conn, e: Event, lim: Limits)
    requires Sane(c.buffer, lim) && Inv(c, lim) && Can(c, e) && Closes(e)
    ensures Inv(After(c, e, lim), lim)
    ensures Lost(After(c, e, lim)) <==> Lost(c) || Cuts(c, e)
  {
    hide NextJob, Completes, SentNow;
    var n := |c.served|;
    assert After(c, e, lim) == Shut(c);
    if Replied(c) {
      PartialWire(c.served, 0);
      assert c.wire == Cat(c.served[..n - 1]) + c.served[n - 1].answer.data[..0];
    } else if Sending(c) {
      PartialWire(c.served, c.ctx.offset);
    }
  }

  lemma ReadInv(c: Conn, bytes: string, lim: Limits)
    requires Sane(c.buffer, lim) && Inv(c, lim) && Can(c, Read(bytes)) && !HandsOutBusy(c, Read(bytes), lim)
    ensures Inv(After(c, Read(bytes), lim), lim) && !Lost(After(c, Read(bytes), lim))
  {
    hide NextJob, WellFormed, Overflow, Kept;
    if Quiet(c) && Overflow(c.buffer, bytes, lim.store) == None {
      NextInv(c.(buffer := Kept(c.buffer, bytes, lim.store), arm := Disarmed), lim);
    }
  }

  lemma StepInv(c: Conn, e: Event, lim: Limits)
    requires Sane(c.buffer, lim) && Inv(c, lim) && Can(c, e) && !HandsOutBusy(c, e, lim)
    ensures Inv(After(c, e, lim), lim) && (Lost(After(c, e, lim)) <==> Lost(c) || Cuts(c, e))
  {
    hide Inv, Lost, After, HandsOutBusy, Fails, Quiet;
    match e
    case Serve(i, answer) => ServeInv(c, i, answer, lim);
    case Wakeup(out) => WakeupInv(c, out, lim);
    case Writable(out) => WritableInv(c, out, lim);
    case Read(bytes) =>
      OpenIsNotLost(c);
      ReadInv(c, bytes, lim);
    case _ => CloseInv(c, e, lim);
  }

  lemma OpenIsNotLost(c: Conn)
    ensures Lost(c) ==> !c.open
  {}

  lemma {:induction false} OrderlyInv(lim: Limits, run: seq<Event>, c: Conn)
    requires lim.body < MAX_SIZE && Run(lim, run) == Some(c) && Orderly(lim, run)
    ensures Inv(c, lim) && (Lost(c) <==> !Uncut(lim, run))
  {
    hide Inv, Lost, Can, After, HandsOutBusy, Cuts;
    if run == [] {
      StartInv(lim);
    } else {
      var b := Run(lim, run[..|run| - 1]).value;
      OrderlyInv(lim, run[..|run| - 1], b);
      StepInv(b, run[|run| - 1], lim);
    }
  }

  lemma {:induction false} OrderlyIsSingle(lim: Limits, run: seq<Event>)
    requires lim.body < MAX_SIZE && Run(lim, run).Some? && Orderly(lim, run)
    ensures Singly(lim, run)
  {
    OrderlyInv(lim, run, Run(lim, run).value);
    InvSingle(Run(lim, run).value, lim);
    hide Inv, Can, After, HandsOutBusy;
    if run != [] { OrderlyIsSingle(lim, run[..|run| - 1]); }
  }

  lemma InvSingle(c: Conn, lim: Limits)
    requires Sane(c.buffer, lim) && Inv(c, lim)
    ensures |c.posted| <= 1
  {
    hide NextJob, Cat, WellFormed, AllKeep;
  }

  // ---------- Results ----------

  /** In an orderly run one job is under way at a time, jobs are answered in the order they
      were handed out, none behind one that does not keep the connection open, and the peer
      has received a prefix of their answers laid end to end. */
  lemma AnswersInOrder(lim: Limits, run: seq<Event>, c: Conn)
    requires lim.body < MAX_SIZE && Run(lim, run) == Some(c) && Orderly(lim, run)
    ensures c.open ==> |c.tasks| + |c.posted| + (if c.ctx.current.Some? then 1 else 0) <= 1
    ensures AnsweredInOrder(c) && |c.served| + |c.tasks| == |c.handed|
    ensures forall k :: 0 <= k < |c.served| - 1 ==> KeepsOpen(c.handed[k])
  {
    OrderlyInv(lim, run, c);
    InvWire(c, lim);
    InvKeeps(c, lim);
    hide KeepsOpen, AllKeep, NextJob, Orderly, Run;
  }

  lemma InvWire(c: Conn, lim: Limits)
    requires Sane(c.buffer, lim) && Inv(c, lim)
    ensures c.wire <= Cat(c.served)
  {
    hide KeepsOpen, AllKeep, InOrder, NextJob;
    var n := |c.served|;
    if n > 0 {
      assert Cat(c.served) == Cat(c.served[..n - 1]) + c.served[n - 1].answer.data;
      if Sending(c) { PartialWire(c.served, c.ctx.offset); }
    }
  }

  lemma InvKeeps(c: Conn, lim: Limits)
    requires Sane(c.buffer, lim) && Inv(c, lim)
    ensures forall k :: 0 <= k < |c.served| - 1 ==> KeepsOpen(c.handed[k])
  {
    hide KeepsOpen, Cat, NextJob;
    var n := |c.served|;
    if n > 0 {
      assert AllKeep(c.served[..n - 1]);
      forall k | 0 <= k < n - 1 ensures KeepsOpen(c.handed[k]) { assert c.served[..n - 1][k] == c.served[k]; }
    }
  }

  /** Once everything under way has come to its end and no job has been dropped, the peer has
      received exactly the answers to all jobs handed out, in their order; either no complete
      request is left in the buffer, or the last answer has closed the connection. */
  lemma WireIsAllAnswers(lim: Limits, run: seq<Event>, c: Conn)
    requires lim.body < MAX_SIZE && Run(lim, run) == Some(c) && Orderly(lim, run) && Quiet(c) && Uncut(lim, run)
    ensures Numbered(c.served) && |c.served| == |c.handed| && c.wire == Cat(c.served)
    ensures c.open ==> AllKeep(c.served)
    ensures (AllKeep(c.served) && NextJob(c.buffer, lim) == None)
         || (|c.served| > 0 && AllKeep(c.served[..|c.served| - 1]) && !c.served[|c.served| - 1].answer.keepAlive)
  {
    OrderlyInv(lim, run, c);
    hide NextJob, Run, Orderly, Uncut;
  }

  /** All jobs handed out are answered completely, when all is quiet, exactly if no send has
      failed and nobody has closed the connection while a job was under way. */
  lemma {:induction false} AnsweredIffUncut(lim: Limits, run: seq<Event>, c: Conn)
    requires lim.body < MAX_SIZE && Run(lim, run) == Some(c) && Orderly(lim, run) && Quiet(c)
    ensures |c.served| == |c.handed| && c.wire == Cat(c.served) <==> Uncut(lim, run)
  {
    OrderlyInv(lim, run, c);
    hide NextJob, Run, Orderly, Uncut, AllKeep;
  }

  // ---------- Exactly when a read event may break the order ----------

  /** No further read event. */
  predicate NoMoreReads(run: seq<Event>) { forall k :: 0 <= k < |run| ==> !run[k].Read? }

  lemma {:induction false} OrderlyGoesOn(lim: Limits, run: seq<Event>, more: seq<Event>)
    requires lim.body < MAX_SIZE && Run(lim, run + more).Some? && NoMoreReads(more)
    ensures Run(lim, run).Some? && (Orderly(lim, run) ==> Orderly(lim, run + more))
  {
    hide After, Can;
    if more == [] {
      assert run + more == run;
    } else {
      var less := more[..|more| - 1];
      assert (run + more)[..|run + more| - 1] == run + less && (run + more)[|run + more| - 1] == more[|more| - 1];
      OrderlyGoesOn(lim, run, less);
    }
  }

  lemma RunSnoc(lim: Limits, run: seq<Event>, c: Conn, e: Event)
    requires lim.body < MAX_SIZE && Run(lim, run) == Some(c) && Can(c, e)
    ensures Run(lim, run + [e]) == Some(After(c, e, lim))
    ensures Orderly(lim, run + [e]) <==> Orderly(lim, run) && !HandsOutBusy(c, e, lim)
    ensures Singly(lim, run + [e]) <==> Singly(lim, run) && |After(c, e, lim).posted| <= 1
  {
    hide After, Can;
    assert (run + [e])[..|run|] == run;
  }

  /** Another answer than a, told by the first digit of its status. */
  function OtherThan(a: Answer): (b: Answer)
    requires WellFormed(a)
    ensures WellFormed(b) && b.data[|STATUS_LINE|] != a.data[|STATUS_LINE|]
  {
    Answer(STATUS_LINE + (if a.data[|STATUS_LINE|] == '2' then "4" else "2") + "00 \r\n\r\n", false)
  }

  /** Sending a whole response at once. */
  lemma WholeWire(c: Conn, a: Answer, lim: Limits)
    requires Sane(c.buffer, lim) && c.open && c.posted != [] && c.posted[0] == a
    ensures (
        var d := After(c, Wakeup(Output(|a.data|, false)), lim);
        d.wire == c.wire + a.data && d.served == c.served)
  {
    assert a.data[0..|a.data|] == a.data;
    hide NextJob;
  }

  /** When a job is queued or running, the one handed out behind it may be answered first. */
  lemma SecondAnsweredFirst(lim: Limits, run: seq<Event>, c: Conn, b: Answer) returns (more: seq<Event>, d: Conn)
    requires lim.body < MAX_SIZE && Run(lim, run) == Some(c) && c.open && c.posted == []
    requires |c.tasks| == 2 && c.tasks[1] + 1 == |c.handed| && WellFormed(b) && !b.keepAlive
    ensures NoMoreReads(more) && Run(lim, run + more) == Some(d) && (Singly(lim, run) ==> Singly(lim, run + more))
    ensures d.served == c.served + [Served(c.tasks[1], b)] && d.wire == c.wire + b.data
  {
    var e1, e2 := Serve(1, b), Wakeup(Output(|b.data|, false));
    hide WellFormed, Run, Orderly, HandsOutBusy, Singly;
    var c1 := After(c, e1, lim);
    RunSnoc(lim, run, c, e1);
    hide After;
    WholeWire(c1, b, lim);
    RunSnoc(lim, run + [e1], c1, e2);
    more, d := [e1, e2], After(c1, e2, lim);
    assert run + [e1] + [e2] == run + [e1, e2];
  }

  /** When an answer waits to be sent, the one to a job handed out behind it may take its
      place on the wire: it is loaded over the first before that has been sent. */
  lemma FirstIsCut(lim: Limits, run: seq<Event>, c: Conn, a: Answer, b: Answer) returns (more: seq<Event>, d: Conn)
    requires lim.body < MAX_SIZE && Run(lim, run) == Some(c) && c.open && c.posted == [a] && WellFormed(a)
    requires |c.tasks| == 1 && c.tasks[0] + 1 == |c.handed| && WellFormed(b) && !b.keepAlive
    ensures NoMoreReads(more) && Run(lim, run + more) == Some(d) && (Singly(lim, run) ==> Singly(lim, run + more))
    ensures d.served == c.served + [Served(c.tasks[0], b)] && d.wire == c.wire + b.data
  {
    var e1, e2, e3 := Wakeup(Output(0, false)), Serve(0, b), Wakeup(Output(|b.data|, false));
    hide Run, Orderly, HandsOutBusy, Singly;
    var c1 := c.(posted := [], ctx := Loaded(c.ctx, a), arm := Writing);
    assert After(c, e1, lim) == c1 by { StallsAtOnce(c, a, lim); }
    RunSnoc(lim, run, c, e1);
    var c2 := c1.(tasks := [], posted := [b], served := c.served + [Served(c.tasks[0], b)]);
    assert After(c1, e2, lim) == c2;
    hide WellFormed;
    RunSnoc(lim, run + [e1], c1, e2);
    hide After;
    WholeWire(c2, b, lim);
    RunSnoc(lim, run + [e1] + [e2], c2, e3);
    more, d := [e1, e2, e3], After(c2, e3, lim);
    assert run + [e1] + [e2] + [e3] == run + [e1, e2, e3];
  }

  /** The socket would block at the first byte. */
  lemma StallsAtOnce(c: Conn, a: Answer, lim: Limits)
    requires Sane(c.buffer, lim) && c.open && c.posted == [a] && WellFormed(a)
    ensures After(c, Wakeup(Output(0, false)), lim) == c.(posted := [], ctx := Loaded(c.ctx, a), arm := Writing)
  {
    hide NextJob;
    assert c.wire + a.data[0..0] == c.wire;
  }

  /** The job handed out last is answered before the one in front of it. */
  lemma LaterAnsweredFirst(lim: Limits, run: seq<Event>, c: Conn) returns (more: seq<Event>, d: Conn)
    requires lim.body < MAX_SIZE && Run(lim, run) == Some(c) && Singly(lim, run) && c.open && c.posted == []
    requires c.tasks == [|c.served|, |c.served| + 1] && |c.handed| == |c.served| + 2
    ensures NoMoreReads(more) && Run(lim, run + more) == Some(d) && !AnsweredInOrder(d) && Singly(lim, run + more)
  {
    hide Run, Singly, Cat;
    var b := Answer(STATUS_LINE + "200 OK\r\n\r\n", false);
    more, d := SecondAnsweredFirst(lim, run, c, b);
    assert d.served[|c.served|].number != |c.served|;
  }

  /** The answer to the job handed out last is loaded over the one that waits. */
  lemma LaterTakesPlace(lim: Limits, run: seq<Event>, c: Conn, a: Answer) returns (more: seq<Event>, d: Conn)
    requires lim.body < MAX_SIZE && Run(lim, run) == Some(c) && Singly(lim, run) && c.open && c.posted == [a] && WellFormed(a)
    requires |c.tasks| == 1 && c.tasks[0] + 1 == |c.handed|
    requires c.served != [] && c.served[|c.served| - 1].answer == a && c.wire == Cat(c.served[..|c.served| - 1])
    ensures NoMoreReads(more) && Run(lim, run + more) == Some(d) && !AnsweredInOrder(d) && Singly(lim, run + more)
  {
    hide Run, Singly, Cat;
    var b := OtherThan(a);
    CutIsNoPrefix(c.served, Served(c.tasks[0], b));
    hide WellFormed;
    assert !b.keepAlive by { OtherCloses(a); }
    more, d := FirstIsCut(lim, run, c, a, b);
  }

  lemma OtherCloses(a: Answer)
    requires WellFormed(a)
    ensures !OtherThan(a).keepAlive
  {}

  /** A read event that hands out a job while another is under way has a continuation, without
      any further read event, in which the peer does not receive the answers in order. */
  lemma {:induction false} BusyReadMisorders(lim: Limits, run: seq<Event>, c: Conn, bytes: string)
      returns (more: seq<Event>, d: Conn)
    requires lim.body < MAX_SIZE && Run(lim, run) == Some(c) && Orderly(lim, run)
    requires Can(c, Read(bytes)) && HandsOutBusy(c, Read(bytes), lim)
    ensures NoMoreReads(more) && Run(lim, run + [Read(bytes)] + more) == Some(d) && !AnsweredInOrder(d)
    ensures Singly(lim, run + [Read(bytes)] + more)
  {
    hide Run, Orderly, HandsOutBusy, After, NextJob, Singly, Inv, Can, Lost, WellFormed, Cat, AnsweredInOrder, NoMoreReads;
    OrderlyIsSingle(lim, run);
    OrderlyInv(lim, run, c);
    BusyRead(c, bytes, lim);
    RunSnoc(lim, run, c, Read(bytes));
    var c1 := After(c, Read(bytes), lim);
    if c.posted == [] {
      more, d := LaterAnsweredFirst(lim, run + [Read(bytes)], c1);
    } else {
      more, d := LaterTakesPlace(lim, run + [Read(bytes)], c1, c.posted[0]);
    }
  }

  /** What such a read event leaves: one of two situations. */
  lemma BusyRead(c: Conn, bytes: string, lim: Limits)
    requires Sane(c.buffer, lim) && Inv(c, lim) && Can(c, Read(bytes)) && HandsOutBusy(c, Read(bytes), lim)
    ensures (
        var d := After(c, Read(bytes), lim);
        && d.open && d.posted == c.posted && d.served == c.served && d.wire == c.wire && |d.handed| == |c.handed| + 1
        && |d.posted| <= 1
        && d.tasks == c.tasks + [|c.handed|]
        && (if c.posted == [] then c.tasks == [|c.served|] && |c.handed| == |c.served| + 1 else c.tasks == [] && Replied(c)))
  {
    hide NextJob;
  }

  lemma CutIsNoPrefix(served: seq<Served>, last: Served)
    requires served != [] && WellFormed(served[|served| - 1].answer) && last.answer == OtherThan(served[|served| - 1].answer)
    ensures !(Cat(served[..|served| - 1]) + last.answer.data <= Cat(served + [last]))
  {
    assert (served + [last])[..|served|] == served;
    DifferLater(Cat(served[..|served| - 1]), served[|served| - 1].answer.data, last.answer.data, |STATUS_LINE|);
  }

  lemma DifferLater(first: string, a: string, b: string, n: nat)
    requires n < |a| && n < |b| && a[n] != b[n]
    ensures !(first + b <= first + a + b)
  {
    assert (first + b)[|first| + n] == b[n] && (first + a + b)[|first| + n] == a[n];
  }

  /** The order survives a read event under every continuation without further ones exactly
      when it does not hand out a job while another is under way. */
  lemma {:induction false} ReadKeepsOrderIff(lim: Limits, run: seq<Event>, c: Conn, bytes: string)
    requires lim.body < MAX_SIZE && Run(lim, run) == Some(c) && Orderly(lim, run) && Can(c, Read(bytes))
    ensures !HandsOutBusy(c, Read(bytes), lim)
       <==> forall more, d :: NoMoreReads(more) && Run(lim, run + [Read(bytes)] + more) == Some(d) ==> AnsweredInOrder(d)
  {
    hide HandsOutBusy, Run, Orderly, AnsweredInOrder;
    if HandsOutBusy(c, Read(bytes), lim) {
      var more, d := BusyReadMisorders(lim, run, c, bytes);
      assert NoMoreReads(more) && !AnsweredInOrder(d);
    } else {
      RunSnoc(lim, run, c, Read(bytes));
      forall more, d | NoMoreReads(more) && Run(lim, run + [Read(bytes)] + more) == Some(d) ensures AnsweredInOrder(d) {
        OrderlyGoesOn(lim, run + [Read(bytes)], more);
        AnswersInOrder(lim, run + [Read(bytes)] + more, d);
      }
    }
  }

  // ---------- What is handed out ----------

  /** The jobs handed out, with those that the buffer still holds, are jobs; a refusal stops
      the parsing. */
  predicate Holds(c: Conn, jobs: seq<Job>, lim: Limits)
    requires Sane(c.buffer, lim)
  {
    var n := |c.handed|;
    && n <= |jobs| && c.handed == jobs[..n]
    && (n == 0 || jobs[n - 1].Accepted? ==> Jobs(c.buffer, lim) == jobs[n..])
  }

  lemma DispatchHolds(c: Conn, jobs: seq<Job>, lim: Limits)
    requires Sane(c.buffer, lim) && Holds(c, jobs, lim) && (|c.handed| == 0 || c.handed[|c.handed| - 1].Accepted?)
    ensures Holds(Dispatch(c, lim), jobs, lim)
  {
    hide NextJob;
    var n := |c.handed|;
    if c.ctx.current.None? && NextJob(c.buffer, lim).Some? {
      assert jobs[n..][0] == jobs[n];
      assert jobs[n..][1..] == jobs[n + 1..];
    }
  }

  /** What the first read event brings: the jobs of its bytes, unless there is no room for
      them. */
  function FirstJobs(input: string, lim: Limits): seq<Job>
    requires Sane(input, lim)
  {
    match Overflow("", input, lim.store)
    case Some(status) => [Rejected(status)]
    case None => Jobs(input, lim)
  }

  lemma FirstHolds(input: string, lim: Limits)
    requires Sane(input, lim) && Can(START, Read(input))
    ensures Holds(After(START, Read(input), lim), FirstJobs(input, lim), lim)
  {
    hide Jobs, Dispatch;
    OverflowIff("", input, lim.store);
    assert "" + input == input;
    if Overflow("", input, lim.store) == None {
      assert Jobs(input, lim)[0..] == Jobs(input, lim);
      DispatchHolds(START.(buffer := input, arm := Disarmed), Jobs(input, lim), lim);
    }
  }

  /** Whatever a complete response hands out, it stands behind jobs that keep the connection
      open. */
  lemma WriteHolds(c: Conn, jobs: seq<Job>, out: Output, lim: Limits)
    requires Sane(c.buffer, lim) && InOrder(c) && Sending(c) && Holds(c, jobs, lim)
    ensures Holds(Write(c, out, lim), jobs, lim)
  {
    hide Jobs, Dispatch, Cat;
    var n := |c.served|;
    assert c.handed[n - 1] == jobs[n - 1];
    if Completes(c.ctx, out) && c.ctx.keepAlive {
      DispatchHolds(c.(wire := c.wire + Chunk(c.ctx, out), ctx := c.ctx.(offset := 0, current := None), arm := Reading), jobs, lim);
    }
  }

  lemma {:induction false} HandedAreJobs(input: string, lim: Limits, more: seq<Event>, c: Conn)
    requires Sane(input, lim) && Run(lim, [Read(input)] + more) == Some(c) && NoMoreReads(more)
    ensures Orderly(lim, [Read(input)] + more) && Holds(c, FirstJobs(input, lim), lim)
  {
    hide Inv, Can, Holds, FirstJobs, After;
    if more == [] {
      assert [Read(input)] + more == [Read(input)] && [Read(input)][..0] == [];
      assert Run(lim, []) == Some(START);
      FirstHolds(input, lim);
    } else {
      var run, less := [Read(input)] + more, more[..|more| - 1];
      assert run[..|run| - 1] == [Read(input)] + less;
      var e, b := run[|run| - 1], Run(lim, [Read(input)] + less).value;
      HandedAreJobs(input, lim, less, b);
      OrderlyInv(lim, [Read(input)] + less, b);
      HoldsStep(b, FirstJobs(input, lim), e, lim);
    }
  }

  lemma HoldsStep(c: Conn, jobs: seq<Job>, e: Event, lim: Limits)
    requires Sane(c.buffer, lim) && Inv(c, lim) && Can(c, e) && !e.Read? && Holds(c, jobs, lim)
    ensures Holds(After(c, e, lim), jobs, lim)
  {
    hide Jobs, NextJob, Write, Cat;
    match e
    case Wakeup(out) =>
      if c.open {
        assert Replied(c);
        var d := c.(posted := c.posted[1..], ctx := Loaded(c.ctx, c.posted[0]));
        assert d.wire + c.posted[0].data[..0] == d.wire;
        WriteHolds(d, jobs, out, lim);
      }
    case Writable(out) => WriteHolds(c, jobs, out, lim);
    case _ =>
  }

  /** When no read event follows the first, the jobs of the first bytes are all there is: they
      are handed out and answered in the order of the buffer. */
  lemma BufferIsAnswered(input: string, lim: Limits, more: seq<Event>, c: Conn)
    requires Sane(input, lim) && Run(lim, [Read(input)] + more) == Some(c) && NoMoreReads(more)
    ensures |c.handed| <= |FirstJobs(input, lim)| && c.handed == FirstJobs(input, lim)[..|c.handed|] && AnsweredInOrder(c)
    ensures Quiet(c) && c.open ==> c.handed == FirstJobs(input, lim) && |c.served| == |c.handed| && c.wire == Cat(c.served)
  {
    HandedAreJobs(input, lim, more, c);
    AnswersInOrder(lim, [Read(input)] + more, c);
    OrderlyInv(lim, [Read(input)] + more, c);
    hide Run, Orderly, Cat, AnsweredInOrder, NextJob, FirstJobs;
    if Quiet(c) && c.open { RestsHasAll(c, FirstJobs(input, lim), lim); }
  }

  lemma RestsHasAll(c: Conn, jobs: seq<Job>, lim: Limits)
    requires Sane(c.buffer, lim) && Inv(c, lim) && Holds(c, jobs, lim) && Quiet(c) && c.open
    ensures c.handed == jobs && |c.served| == |c.handed| && c.wire == Cat(c.served)
  {
    hide NextJob, Cat;
    var n := |c.handed|;
    if n > 0 { assert c.served[n - 1].answer.keepAlive; }
    assert Jobs(c.buffer, lim) == [];
    assert jobs[..n] == jobs;
  }
}
