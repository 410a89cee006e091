/** Well-formed requests on one connection: from any pieces in which their bytes arrive to the
    bytes of their answers. */
module PrintedPipeline {
  import opened ChunkedBody
  import opened PartialRequest
  import opened RequestParser
  import opened RequestRoundTrip
  import opened ResponsePipeline
  import opened Text
  import Protocol = ConnectionState

  predicate HeadsFit(ms: seq<Message>, lim: Limits) { forall k :: 0 <= k < |ms| ==> |HeadText(ms[k])| <= lim.head }

  /** The jobs of a printed pipeline are its messages. */
  lemma {:induction false} JobsOfPrinted(ms: seq<Message>, lim: Limits)
    requires Sane(PrintAll(ms), lim) && HeadsFit(ms, lim) && forall k :: 0 <= k < |ms| ==> ValidMessage(ms[k], lim.body)
    ensures |Jobs(PrintAll(ms), lim)| == |ms|
    ensures forall k :: 0 <= k < |ms| ==> Jobs(PrintAll(ms), lim)[k] == Accepted(Expected(ms[k]))
  {
    hide Parse, Print, HeadText, ValidMessage, NextJob, Expected;
    if ms == [] {
      EmptyHoldsNothing(lim);
    } else {
      NextPrinted(ms[0], PrintAll(ms[1..]), lim);
      JobsOfPrinted(ms[1..], lim);
    }
  }

  lemma NextPrinted(m: Message, rest: string, lim: Limits)
    requires Sane(Print(m) + rest, lim) && |HeadText(m)| <= lim.head && ValidMessage(m, lim.body)
    ensures NextJob(Print(m) + rest, lim) == Some((Accepted(Expected(m)), rest))
  {
    PrintOntoLength(m, rest);
    PrintedSeparator(m, "");
    assert Expected(m).headerEnd + Expected(m).sepLen == |HeadText(m)| by { hide HeadText; }
    hide Parse, Print, PrintOnto, HeadText, ValidMessage, FindSeparator;
    ParsePrinted(m, rest, lim.body);
    Drop(Print(m), rest);
  }

  // ---------- A printed pipeline, arriving in pieces ----------

  /** All bytes that have arrived. */
  function Received(run: seq<Event>): string {
    if run == [] then ""
    else
      var e := run[|run| - 1];
      Received(run[..|run| - 1]) + if e.Read? then e.bytes else ""
  }

  /** There was room for the unread and the new bytes at every read event. */
  predicate Roomy(lim: Limits, run: seq<Event>)
    requires lim.body < MAX_SIZE && Run(lim, run).Some?
  {
    run == [] ||
    (&& Roomy(lim, run[..|run| - 1])
     && HadRoom(Run(lim, run[..|run| - 1]).value, run[|run| - 1], lim))
  }

  predicate HadRoom(c: Conn, e: Event, lim: Limits) {
    e.Read? ==> Overflow(c.buffer, e.bytes, lim.store) == None
  }

  function Part(ms: seq<Message>, j: nat, k: nat): string
    requires j <= |ms| && (j < |ms| ==> k <= |Print(ms[j])|)
  {
    if j < |ms| then Print(ms[j])[..k] else ""
  }

  /** Where a message may be cut: nowhere in its request line or in the name of a field, and
      in its body only while the limit on heads is not exceeded. Anywhere else the part is
      refused at once, although nothing is wrong with the message. */
  predicate MayBeCut(m: Message, k: nat, lim: Limits) {
    k == 0 || if k < |HeadText(m)| then HeadCutOk(m, k) else k <= lim.head
  }

  lemma {:induction false} CutWaitsIff(m: Message, k: nat, lim: Limits)
    requires ValidMessage(m, lim.body) && |HeadText(m)| <= lim.head && k < |Print(m)| < MAX_SIZE && lim.body < MAX_SIZE
    ensures NextJob(Print(m)[..k], lim)
         == if MayBeCut(m, k, lim) then None else Some((Rejected(if k < |HeadText(m)| then 400 else 431), Print(m)[..k]))
  {
    hide Parse, ValidMessage, Print, HeadCutOk;
    var body := BodyText(m.framing);
    assert Print(m) == HeadText(m) + body by { PrintIs(m); }
    if k == 0 {
      assert Print(m)[..0] == "";
      EmptyHoldsNothing(lim);
    } else if k < |HeadText(m)| {
      assert Print(m)[..k] == HeadText(m)[..k];
      PartialHeadWaitsIff(m, k, lim.body);
    } else {
      assert Print(m)[..k] == HeadText(m) + body[..k - |HeadText(m)|];
      hide HeadText, BodyText;
      PartialBodyWaits(m, k - |HeadText(m)|, lim.body);
    }
  }

  lemma PrintIs(m: Message)
    ensures Print(m) == HeadText(m) + BodyText(m.framing)
  {
    hide LinesOnto, HeadLines, BodyText;
    LinesOntoIs(HeadLines(m), BodyText(m.framing) + "");
    assert BodyText(m.framing) + "" == BodyText(m.framing);
  }

  /** The first j messages and a part of the next, cut where it may be. */
  predicate CutAt(bytes: string, ms: seq<Message>, j: nat, k: nat, lim: Limits) {
    && j <= |ms| && (j < |ms| ==> k < |Print(ms[j])| && MayBeCut(ms[j], k, lim))
    && bytes == PrintAll(ms[..j]) + Part(ms, j, k)
  }

  /** The messages arrive in any number of pieces, cut where they may be. */
  ghost predicate Arrives(run: seq<Event>, ms: seq<Message>, lim: Limits) {
    && (exists j, k :: CutAt(Received(run), ms, j, k, lim))
    && (run != [] ==> Arrives(run[..|run| - 1], ms, lim))
  }

  predicate Fit(ms: seq<Message>, lim: Limits) {
    && lim.body < MAX_SIZE && HeadsFit(ms, lim)
    && forall k :: 0 <= k < |ms| ==> ValidMessage(ms[k], lim.body) && |Print(ms[k])| < MAX_SIZE
  }

  predicate Takes(c: Conn, ms: seq<Message>, received: string) {
    && |c.handed| <= |ms| && (forall k :: 0 <= k < |c.handed| ==> c.handed[k] == Accepted(Expected(ms[k])))
    && received == PrintAll(ms[..|c.handed|]) + c.buffer
  }

  lemma {:induction false} PrintAllSplit(ms: seq<Message>, h: nat)
    requires h <= |ms|
    ensures PrintAll(ms) == PrintAll(ms[..h]) + PrintAll(ms[h..])
  {
    hide Print;
    if h == 0 {
      assert ms[..0] == [] && ms[0..] == ms;
    } else {
      PrintAllSplit(ms[1..], h - 1);
      assert ms[1..][..h - 1] == ms[..h][1..] && ms[1..][h - 1..] == ms[h..];
      Assoc(Print(ms[0]), PrintAll(ms[1..][..h - 1]), PrintAll(ms[h..]));
    }
  }

  lemma PrintAllSnoc(ms: seq<Message>, h: nat)
    requires h < |ms|
    ensures PrintAll(ms[..h + 1]) == PrintAll(ms[..h]) + Print(ms[h])
  {
    PrintAllSplit(ms[..h + 1], h);
    assert ms[..h + 1][..h] == ms[..h] && ms[..h + 1][h..] == [ms[h]];
    hide Print;
    assert [ms[h]][1..] == [] && Print(ms[h]) + "" == Print(ms[h]);
  }

  lemma {:induction false} CutIsShort(ms: seq<Message>, j: nat, k: nat, h: nat)
    requires j < h <= |ms| && k < |Print(ms[j])|
    ensures |PrintAll(ms[..j])| + k < |PrintAll(ms[..h])|
  {
    PrintAllSnoc(ms, j);
    PrintAllSplit(ms[..h], j + 1);
    hide Print;
    assert ms[..h][..j + 1] == ms[..j + 1];
  }

  /** The buffer holds the messages that have arrived and are not handed out, and the part. */
  lemma BufferIs(c: Conn, ms: seq<Message>, received: string, j: nat, k: nat, lim: Limits)
    requires Takes(c, ms, received) && CutAt(received, ms, j, k, lim)
    ensures |c.handed| <= j && c.buffer == PrintAll(ms[|c.handed|..j]) + Part(ms, j, k)
  {
    hide Print, NextJob;
    var h := |c.handed|;
    if j < h { CutIsShort(ms, j, k, h); }
    PrintAllSplit(ms[..j], h);
    assert ms[..j][..h] == ms[..h] && ms[..j][h..] == ms[h..j];
    Assoc(PrintAll(ms[..h]), PrintAll(ms[h..j]), Part(ms, j, k));
    Drop(PrintAll(ms[..h]), PrintAll(ms[h..j]) + Part(ms, j, k));
    Drop(PrintAll(ms[..h]), c.buffer);
  }

  /** What the dispatcher does with such a buffer: it takes the next message, if all of it is
      there. */
  lemma NextArrived(c: Conn, ms: seq<Message>, received: string, j: nat, k: nat, lim: Limits)
    requires Sane(c.buffer, lim) && Fit(ms, lim) && Takes(c, ms, received) && CutAt(received, ms, j, k, lim)
    ensures (
        var h, next := |c.handed|, NextJob(c.buffer, lim);
        && h <= j <= |ms|
        && (if h == j then next == None
            else next.Some? && next.value.0 == Accepted(Expected(ms[h])) && c.buffer == Print(ms[h]) + next.value.1))
  {
    BufferIs(c, ms, received, j, k, lim);
    CutWaits(received, ms, j, k, lim);
    hide Print, NextJob, ValidMessage, HeadText, Expected, CutAt, Takes;
    var h, part := |c.handed|, Part(ms, j, k);
    if h == j {
      assert ms[h..j] == [] && "" + part == part;
    } else {
      var rest := PrintAll(ms[h..j][1..]) + part;
      assert ms[h..j][0] == ms[h];
      Assoc(Print(ms[h]), PrintAll(ms[h..j][1..]), part);
      NextPrinted(ms[h], rest, lim);
    }
  }

  lemma TakesOne(c: Conn, d: Conn, ms: seq<Message>, received: string)
    requires Takes(c, ms, received) && |c.handed| < |ms| && c.buffer == Print(ms[|c.handed|]) + d.buffer
    requires d.handed == c.handed + [Accepted(Expected(ms[|c.handed|]))]
    ensures Takes(d, ms, received)
  {
    hide Print, Expected;
    PrintAllSnoc(ms, |c.handed|);
    Assoc(PrintAll(ms[..|c.handed|]), Print(ms[|c.handed|]), d.buffer);
  }

  lemma TakesNext(c: Conn, ms: seq<Message>, received: string, j: nat, k: nat, lim: Limits)
    requires Sane(c.buffer, lim) && Fit(ms, lim) && Takes(c, ms, received) && CutAt(received, ms, j, k, lim)
    ensures Takes(Dispatch(c, lim), ms, received)
    ensures |c.handed| <= j && (NextJob(c.buffer, lim) == None <==> |c.handed| == j)
  {
    hide Print, NextJob, Expected, CutAt, Fit, Takes;
    NextArrived(c, ms, received, j, k, lim);
    if |c.handed| < j {
      var next := NextJob(c.buffer, lim).value;
      TakesOne(c, c.(buffer := next.1, tasks := c.tasks + [|c.handed|], handed := c.handed + [next.0]), ms, received);
    }
    TakesSame(c, c.(arm := Protocol.Reading), ms, received);
  }

  lemma TakesSame(c: Conn, d: Conn, ms: seq<Message>, received: string)
    requires Takes(c, ms, received) && d.handed == c.handed && d.buffer == c.buffer
    ensures Takes(d, ms, received)
  {}

  lemma CutWaits(received: string, ms: seq<Message>, j: nat, k: nat, lim: Limits)
    requires Fit(ms, lim) && CutAt(received, ms, j, k, lim)
    ensures j <= |ms| && (j < |ms| ==> k < |Print(ms[j])|) && Sane(Part(ms, j, k), lim) && NextJob(Part(ms, j, k), lim) == None
  {
    hide Print, NextJob, ValidMessage, HeadText, MayBeCut;
    if j < |ms| { CutWaitsIff(ms[j], k, lim); } else { EmptyHoldsNothing(lim); }
  }

  lemma {:induction false} TakesAlways(lim: Limits, run: seq<Event>, c: Conn, ms: seq<Message>)
    requires lim.body < MAX_SIZE && Run(lim, run) == Some(c) && Fit(ms, lim) && Arrives(run, ms, lim) && Roomy(lim, run)
    ensures Takes(c, ms, Received(run))
  {
    hide Can, Takes, CutAt, Fit, After, HadRoom;
    if run == [] {
      NothingTaken(ms);
    } else {
      var e, b := run[|run| - 1], Run(lim, run[..|run| - 1]).value;
      var j, k :| CutAt(Received(run), ms, j, k, lim);
      TakesAlways(lim, run[..|run| - 1], b, ms);
      StepTakes(b, e, ms, Received(run[..|run| - 1]), Received(run), j, k, lim);
    }
  }

  lemma NothingTaken(ms: seq<Message>)
    ensures Takes(START, ms, "")
  {
    assert ms[..0] == [];
  }

  lemma StepTakes(c: Conn, e: Event, ms: seq<Message>, received: string, now: string, j: nat, k: nat, lim: Limits)
    requires Sane(c.buffer, lim) && Can(c, e) && Fit(ms, lim) && Takes(c, ms, received) && CutAt(now, ms, j, k, lim)
    requires HadRoom(c, e, lim) && now == received + if e.Read? then e.bytes else ""
    ensures Takes(After(c, e, lim), ms, now)
  {
    hide Dispatch, CutAt, Fit, Print, Kept, Overflow;
    assert received + "" == received;
    match e
    case Wakeup(out) => if c.open { WriteTakes(c.(posted := c.posted[1..], ctx := Loaded(c.ctx, c.posted[0])), ms, now, j, k, out, lim); }
    case Writable(out) => WriteTakes(c, ms, now, j, k, out, lim);
    case Read(bytes) =>
      OverflowIff(c.buffer, bytes, lim.store);
      Assoc(PrintAll(ms[..|c.handed|]), c.buffer, bytes);
      TakesNext(c.(buffer := c.buffer + bytes, arm := Protocol.Disarmed), ms, now, j, k, lim);
    case _ =>
  }

  lemma WriteTakes(c: Conn, ms: seq<Message>, received: string, j: nat, k: nat, out: Protocol.Output, lim: Limits)
    requires c.ctx.current.Some? && Sane(c.buffer, lim) && Fit(ms, lim) && Takes(c, ms, received) && CutAt(received, ms, j, k, lim)
    ensures Takes(Write(c, out, lim), ms, received)
  {
    hide Dispatch, CutAt, Fit, Print;
    if Protocol.Completes(c.ctx, out) && c.ctx.keepAlive {
      TakesNext(c.(wire := c.wire + ResponsePipeline.Chunk(c.ctx, out), ctx := c.ctx.(offset := 0, current := None), arm := Protocol.Reading), ms, received, j, k, lim);
    }
  }

  // ---------- Without room ----------

  /** Jobs are only ever added. */
  lemma HandedGrows(c: Conn, e: Event, lim: Limits)
    requires Can(c, e) && Sane(c.buffer, lim)
    ensures c.handed <= After(c, e, lim).handed
  {
    hide NextJob, Protocol.Completes, Protocol.SentNow, Kept, Overflow;
  }

  /** Bytes beyond the room there is are refused with 413, or 503 without a block, together
      with all that is unread: no message is taken. */
  lemma BeyondRoomIsRefused(c: Conn, bytes: string, lim: Limits)
    requires Sane(c.buffer, lim) && Can(c, Read(bytes))
    ensures (
        var room := match lim.store case Growing(limit) => limit case Fixed(cap) => cap case Starved => 0;
        var d := After(c, Read(bytes), lim);
        if lim.store.Starved? || |c.buffer| + |bytes| > room
        then d.handed == c.handed + [Rejected(if lim.store.Starved? then 503 else 413)]
        else d == Dispatch(c.(buffer := c.buffer + bytes, arm := Protocol.Disarmed), lim))
  {
    OverflowIff(c.buffer, bytes, lim.store);
    hide Dispatch, Kept, Overflow;
  }

  lemma RefusedWith(c: Conn, e: Event, lim: Limits)
    requires Sane(c.buffer, lim) && Can(c, e) && !HadRoom(c, e, lim)
    ensures After(c, e, lim).handed == c.handed + [Rejected(if lim.store.Starved? then 503 else 413)]
  {
    OverflowIff(c.buffer, e.bytes, lim.store);
    hide Kept, Overflow;
  }

  lemma {:induction false} NotRoomyRejects(lim: Limits, run: seq<Event>, c: Conn)
    requires lim.body < MAX_SIZE && Run(lim, run) == Some(c) && !Roomy(lim, run)
    ensures exists k :: 0 <= k < |c.handed| && c.handed[k].Rejected?
  {
    hide Can, After, Overflow, Kept;
    var e, b := run[|run| - 1], Run(lim, run[..|run| - 1]).value;
    if Roomy(lim, run[..|run| - 1]) {
      RefusedWith(b, e, lim);
      assert c.handed[|b.handed|].Rejected?;
    } else {
      NotRoomyRejects(lim, run[..|run| - 1], b);
      var k :| 0 <= k < |b.handed| && b.handed[k].Rejected?;
      HandedGrows(b, e, lim);
      assert c.handed[k].Rejected?;
    }
  }

  /** However a printed pipeline arrives, and whatever the schedule: exactly when there was
      room at every read event, the jobs handed out are its messages in their order, and every
      byte that has arrived is either theirs or still unread. */
  lemma {:induction false} HandedAreMessages(lim: Limits, run: seq<Event>, c: Conn, ms: seq<Message>)
    requires lim.body < MAX_SIZE && Run(lim, run) == Some(c) && Fit(ms, lim) && Arrives(run, ms, lim)
    ensures Takes(c, ms, Received(run)) <==> Roomy(lim, run)
  {
    hide Run, Roomy, Received, Fit, Arrives;
    if Roomy(lim, run) { TakesAlways(lim, run, c, ms); } else { NotRoomyRejects(lim, run, c); }
  }

  /** How many unread bytes a connection may hold. */
  function Room(store: Store): nat {
    match store case Growing(limit) => limit case Fixed(cap) => cap case Starved => 0
  }

  /** At most one job is handed out at a time, and nothing is taken from beyond the room. */
  lemma StepWithinRoom(c: Conn, e: Event, lim: Limits)
    requires Sane(c.buffer, lim) && Can(c, e) && HadRoom(c, e, lim) && |c.buffer| <= Room(lim.store)
    ensures |c.handed| <= |After(c, e, lim).handed| <= |c.handed| + 1
    ensures |c.buffer| + (if e.Read? then |e.bytes| else 0) <= Room(lim.store) && |After(c, e, lim).buffer| <= Room(lim.store)
  {
    if e.Read? { OverflowIff(c.buffer, e.bytes, lim.store); }
    hide NextJob, Protocol.Completes, Protocol.SentNow, ResponsePipeline.Chunk, Kept, Overflow, WellFormed, KeepsOpen;
  }

  /** The lengths of what was taken and what is left. */
  lemma TakesLength(c: Conn, ms: seq<Message>, received: string)
    requires Takes(c, ms, received)
    ensures |received| == |PrintAll(ms[..|c.handed|])| + |c.buffer|
  {
    hide Print;
  }

  lemma {:induction false} WithinRoom(lim: Limits, run: seq<Event>, c: Conn, ms: seq<Message>, h: nat)
    requires lim.body < MAX_SIZE && Run(lim, run) == Some(c) && Fit(ms, lim) && Arrives(run, ms, lim) && Roomy(lim, run)
    requires h < |ms| && |Print(ms[h])| > Room(lim.store)
    ensures |c.handed| <= h && |c.buffer| <= Room(lim.store)
  {
    TakesAlways(lim, run, c, ms);
    hide Can, Takes, Fit, After, HadRoom, Print, PrintAll, Room;
    if run != [] {
      var less := run[..|run| - 1];
      var b := Run(lim, less).value;
      WithinRoom(lim, less, b, ms, h);
      TakesAlways(lim, less, b, ms);
      StaysShort(b, run[|run| - 1], c, ms, Received(less), Received(run), h, lim);
    }
  }

  lemma StaysShort(b: Conn, e: Event, c: Conn, ms: seq<Message>, received: string, now: string, h: nat, lim: Limits)
    requires Sane(b.buffer, lim) && Can(b, e) && HadRoom(b, e, lim) && c == After(b, e, lim)
    requires Takes(b, ms, received) && Takes(c, ms, now) && now == received + if e.Read? then e.bytes else ""
    requires h < |ms| && |Print(ms[h])| > Room(lim.store) && |b.handed| <= h && |b.buffer| <= Room(lim.store)
    ensures |c.handed| <= h && |c.buffer| <= Room(lim.store)
  {
    hide *;
    StepWithinRoom(b, e, lim);
    TakesLength(b, ms, received);
    TakesLength(c, ms, now);
    if |c.handed| > h { PrintAllSnoc(ms, h); }
  }

  /** Behind a refusal nothing more is handed out in an orderly run. */
  lemma RefusalIsLast(c: Conn, e: Event, lim: Limits)
    requires Sane(c.buffer, lim) && Inv(c, lim) && Can(c, e) && !HandsOutBusy(c, e, lim)
    requires c.handed != [] && c.handed[|c.handed| - 1].Rejected?
    ensures After(c, e, lim).handed == c.handed
  {
    hide NextJob, Protocol.SentNow, ResponsePipeline.Chunk, Kept, Overflow, WellFormed, Cat, Dispatch, Numbered;
    var n := |c.served|;
    if n > 0 && |c.handed| == n { assert !c.served[n - 1].answer.keepAlive; }
  }

  /** An orderly run in which there was no room at some read event: what is handed out are
      messages in their order, none of them longer than the room, and then one refusal. */
  lemma {:induction false} MessagesThenRefusal(lim: Limits, run: seq<Event>, c: Conn, ms: seq<Message>) returns (m: nat)
    requires lim.body < MAX_SIZE && Run(lim, run) == Some(c) && Fit(ms, lim) && Arrives(run, ms, lim)
    requires Orderly(lim, run) && !Roomy(lim, run)
    ensures |c.handed| == m + 1 && m <= |ms| && c.handed[m] == Rejected(if lim.store.Starved? then 503 else 413)
    ensures forall k :: 0 <= k < m ==> c.handed[k] == Accepted(Expected(ms[k])) && |Print(ms[k])| <= Room(lim.store)
  {
    hide Can, After, HandsOutBusy, Fit, Room, Print, HadRoom, Expected;
    var less, e := run[..|run| - 1], run[|run| - 1];
    var b := Run(lim, less).value;
    if Roomy(lim, less) {
      m := |b.handed|;
      RefusedWith(b, e, lim);
      AllWithinRoom(lim, less, b, ms);
    } else {
      m := MessagesThenRefusal(lim, less, b, ms);
      OrderlyInv(lim, less, b);
      RefusalIsLast(b, e, lim);
    }
  }

  lemma AllWithinRoom(lim: Limits, run: seq<Event>, c: Conn, ms: seq<Message>)
    requires lim.body < MAX_SIZE && Run(lim, run) == Some(c) && Fit(ms, lim) && Arrives(run, ms, lim) && Roomy(lim, run)
    ensures |c.handed| <= |ms|
    ensures forall k :: 0 <= k < |c.handed| ==> c.handed[k] == Accepted(Expected(ms[k])) && |Print(ms[k])| <= Room(lim.store)
  {
    TakesAlways(lim, run, c, ms);
    hide Run, Fit, Arrives, Roomy, Print, Room, Expected, PrintAll;
    forall k | 0 <= k < |c.handed| ensures |Print(ms[k])| <= Room(lim.store) {
      if |Print(ms[k])| > Room(lim.store) { WithinRoom(lim, run, c, ms, k); }
    }
  }

  /** So in an orderly run with room a printed pipeline is answered message by message in its
      order, however it arrived: when all that is under way has come to its end and nothing
      was dropped, the peer has the answers to exactly the messages that have arrived
      completely, or to those up to the first whose answer closed the connection. */
  lemma {:induction false} PrintedPipelineIsAnswered(lim: Limits, run: seq<Event>, c: Conn, ms: seq<Message>, j: nat, k: nat)
    requires lim.body < MAX_SIZE && Run(lim, run) == Some(c) && Orderly(lim, run) && Quiet(c) && Uncut(lim, run) && Roomy(lim, run)
    requires Fit(ms, lim) && Arrives(run, ms, lim) && CutAt(Received(run), ms, j, k, lim)
    ensures Numbered(c.served) && |c.served| == |c.handed| <= j <= |ms| && c.wire == Cat(c.served)
    ensures forall i :: 0 <= i < |c.served| ==> c.handed[i] == Accepted(Expected(ms[i]))
    ensures c.open ==> |c.served| == j
    ensures |c.served| < j ==> |c.served| > 0 && !c.served[|c.served| - 1].answer.keepAlive
  {
    TakesAlways(lim, run, c, ms);
    WireIsAllAnswers(lim, run, c);
    TakesNext(c, ms, Received(run), j, k, lim);
    BufferIs(c, ms, Received(run), j, k, lim);
    hide Run, Orderly, Cat, Numbered, Arrives, CutAt, Fit, NextJob, Uncut, Roomy;
  }

  /** Bytes that are more than the room there is and arrive at once are not looked at: whatever
      requests they hold, and whatever arrives behind them in an orderly run, one 413 or 503 is
      all that is ever handed out, and its answer closes the connection. */
  lemma {:induction false} LongPipelineIsRefused(input: string, lim: Limits, more: seq<Event>, c: Conn)
    requires Sane(input, lim) && input != "" && (lim.store.Starved? || |input| > Room(lim.store))
    requires Run(lim, [Read(input)] + more) == Some(c) && Orderly(lim, [Read(input)] + more)
    ensures c.handed == [Rejected(if lim.store.Starved? then 503 else 413)] && |c.served| <= 1
    ensures Quiet(c) && Uncut(lim, [Read(input)] + more) ==> !c.open && c.served != [] && c.wire == c.served[0].answer.data
  {
    hide Can, After, HandsOutBusy, Inv, Cuts, Room;
    RefusalOnly(input, lim, more, c);
    OrderlyInv(lim, [Read(input)] + more, c);
    RefusalCloses(c, lim);
  }

  lemma {:induction false} RefusalOnly(input: string, lim: Limits, more: seq<Event>, c: Conn)
    requires Sane(input, lim) && input != "" && (lim.store.Starved? || |input| > Room(lim.store))
    requires Run(lim, [Read(input)] + more) == Some(c) && Orderly(lim, [Read(input)] + more)
    ensures c.handed == [Rejected(if lim.store.Starved? then 503 else 413)]
  {
    hide Can, After, HandsOutBusy, Inv, Room;
    if more == [] {
      assert [Read(input)] + more == [Read(input)] && [Read(input)][..0] == [] && Run(lim, []) == Some(START);
      FirstRefused(input, lim);
    } else {
      var run, less := [Read(input)] + more, more[..|more| - 1];
      assert run[..|run| - 1] == [Read(input)] + less;
      var b := Run(lim, [Read(input)] + less).value;
      RefusalOnly(input, lim, less, b);
      OrderlyInv(lim, [Read(input)] + less, b);
      RefusalIsLast(b, run[|run| - 1], lim);
    }
  }

  lemma FirstRefused(input: string, lim: Limits)
    requires Sane(input, lim) && Can(START, Read(input)) && (lim.store.Starved? || |input| > Room(lim.store))
    ensures After(START, Read(input), lim).handed == [Rejected(if lim.store.Starved? then 503 else 413)]
  {
    OverflowIff("", input, lim.store);
    assert !HadRoom(START, Read(input), lim);
    RefusedWith(START, Read(input), lim);
  }

  lemma RefusalCloses(c: Conn, lim: Limits)
    requires Sane(c.buffer, lim) && Inv(c, lim) && |c.handed| == 1 && c.handed[0].Rejected?
    ensures |c.served| <= 1
    ensures Quiet(c) && !Lost(c) ==> !c.open && c.served != [] && c.wire == c.served[0].answer.data
  {
    hide NextJob, WellFormed;
    if |c.served| == 1 { assert c.served[..0] == [] && Cat(c.served) == "" + c.served[0].answer.data; }
  }

  // ---------- Two requests overtaking each other ----------

  /** Sending a whole response at once. */
  lemma WholeAnswer(c: Conn, a: Answer, lim: Limits)
    requires Sane(c.buffer, lim) && c.open && c.posted != [] && c.posted[0] == a && a.keepAlive
    ensures (
        var d := c.(posted := c.posted[1..], wire := c.wire + a.data, arm := Protocol.Reading,
                    ctx := c.ctx.(current := None, keepAlive := true, offset := 0));
        After(c, Wakeup(Protocol.Output(|a.data|, false)), lim) == if c.buffer == "" then d else Dispatch(d, lim))
  {
    hide Dispatch;
    assert a.data[0..|a.data|] == a.data;
  }

  /** The context after an answer that keeps the connection open. */
  const KEPT_OPEN: Protocol.Ctx := Protocol.Ctx(1, 0, 0, None, true, 0)

  lemma OrderlyNow(lim: Limits)
    requires lim.body < MAX_SIZE
    ensures Run(lim, []) == Some(START) && Orderly(lim, []) && Singly(lim, [])
  {}

  lemma NotBusy(c: Conn, e: Event, lim: Limits)
    requires Sane(c.buffer, lim) && Can(c, e) && (Quiet(c) || !e.Read?)
    ensures !HandsOutBusy(c, e, lim)
  {
    hide After, Can;
  }

  /** The first job is answered and sent, and the second handed out at once. */
  lemma FirstAnswered(input: string, lim: Limits, rest: string, j0: Job, j1: Job, a: Answer) returns (run: seq<Event>)
    requires a.keepAlive && WellFormed(a) && Sane(input, lim) && Sane(rest, lim) && rest != "" && input != ""
    requires Overflow("", input, lim.store) == None && KeepsOpen(j0) && j1.Accepted?
    requires NextJob(input, lim) == Some((j0, rest)) && NextJob(rest, lim) == Some((j1, ""))
    ensures Run(lim, run)
         == Some(Conn("", [1], [], KEPT_OPEN, Protocol.Reading, true, a.data, [j0, j1], [Served(0, a)]))
    ensures [Read(input)] <= run && Orderly(lim, run) && Singly(lim, run)
  {
    hide NextJob, Write, WellFormed, Orderly, HandsOutBusy, Singly;
    OverflowIff("", input, lim.store);
    assert "" + input == input && [] + [j0] == [j0] && [j0] + [j1] == [j0, j1];
    hide Overflow, Kept;
    OrderlyNow(lim);
    var c0 := Conn(rest, [0], [], START.ctx, Protocol.Disarmed, true, "", [j0], []);
    assert After(START, Read(input), lim) == c0;
    var c1 := c0.(tasks := [], posted := [a], served := [Served(0, a)]);
    assert After(c0, Serve(0, a), lim) == c1;
    WholeAnswer(c1, a, lim);
    var e1 := Wakeup(Protocol.Output(|a.data|, false));
    var c2 := Conn("", [1], [], KEPT_OPEN, Protocol.Reading, true, a.data, [j0, j1], [Served(0, a)]);
    assert After(c1, e1, lim) == c2;
    hide Run, After;
    RunSnoc(lim, [], START, Read(input));
    NotBusy(START, Read(input), lim);
    RunSnoc(lim, [] + [Read(input)], c0, Serve(0, a));
    NotBusy(c0, Serve(0, a), lim);
    RunSnoc(lim, [] + [Read(input)] + [Serve(0, a)], c1, e1);
    NotBusy(c1, e1, lim);
    run := [] + [Read(input)] + [Serve(0, a)] + [e1];
  }

  /** Two jobs are under way after the first answer and one more read event. */
  lemma TwoUnderWay(input: string, lim: Limits, rest: string, bytes: string, j0: Job, j1: Job, j2: Job, a: Answer)
    returns (run: seq<Event>, c: Conn)
    requires a.keepAlive && WellFormed(a) && Sane(input, lim) && Sane(rest, lim) && Sane(bytes, lim) && rest != "" && input != ""
    requires bytes != "" && Overflow("", input, lim.store) == None && Overflow("", bytes, lim.store) == None
    requires KeepsOpen(j0) && j1.Accepted? && j2.Accepted?
    requires NextJob(input, lim) == Some((j0, rest)) && NextJob(rest, lim) == Some((j1, ""))
    requires NextJob(bytes, lim) == Some((j2, ""))
    ensures Run(lim, run) == Some(c) && [Read(input)] <= run && Singly(lim, run)
    ensures c == Conn("", [1, 2], [], KEPT_OPEN, Protocol.Disarmed, true, a.data, [j0, j1, j2], [Served(0, a)])
  {
    hide NextJob, Run, WellFormed, Orderly, HandsOutBusy, KeepsOpen, Singly;
    run := FirstAnswered(input, lim, rest, j0, j1, a);
    var c2 := Conn("", [1], [], KEPT_OPEN, Protocol.Reading, true, a.data, [j0, j1], [Served(0, a)]);
    OverflowIff("", bytes, lim.store);
    hide Overflow, Kept;
    assert "" + bytes == bytes && [j0, j1] + [j2] == [j0, j1, j2] && [1] + [2] == [1, 2];
    c := c2.(tasks := [1, 2], arm := Protocol.Disarmed, handed := [j0, j1, j2]);
    assert After(c2, Read(bytes), lim) == c;
    hide After;
    RunSnoc(lim, run, c2, Read(bytes));
    run := run + [Read(bytes)];
  }

  /** The second of two jobs is answered first. */
  lemma Overtaken(lim: Limits, run0: seq<Event>, c0: Conn, a: Answer, b: Answer)
    returns (run: seq<Event>, c: Conn)
    requires lim.body < MAX_SIZE && Run(lim, run0) == Some(c0) && a.keepAlive && b.keepAlive && WellFormed(a) && WellFormed(b)
    requires |c0.tasks| == 2 && c0.open && c0.posted == [] && c0.buffer == "" && c0.ctx.current.None?
    requires c0.tasks[0] < |c0.handed| && c0.tasks[1] < |c0.handed|
    requires KeepsOpen(c0.handed[c0.tasks[0]]) && KeepsOpen(c0.handed[c0.tasks[1]])
    ensures run0 <= run && Run(lim, run) == Some(c) && Quiet(c) && c.wire == c0.wire + b.data + a.data && c.handed == c0.handed
    ensures c.served == c0.served + [Served(c0.tasks[1], b)] + [Served(c0.tasks[0], a)]
    ensures Singly(lim, run0) ==> Singly(lim, run)
  {
    hide Run, WellFormed, Orderly, HandsOutBusy, Singly, Dispatch;
    var e1, e2 := Wakeup(Protocol.Output(|b.data|, false)), Wakeup(Protocol.Output(|a.data|, false));
    var c1 := c0.(tasks := [c0.tasks[0]], posted := [b], served := c0.served + [Served(c0.tasks[1], b)]);
    assert After(c0, Serve(1, b), lim) == c1;
    hide Write;
    WholeAnswer(c1, b, lim);
    var c2 := After(c1, e1, lim);
    var c3 := c2.(tasks := [], posted := [a], served := c1.served + [Served(c0.tasks[0], a)]);
    assert After(c2, Serve(0, a), lim) == c3;
    WholeAnswer(c3, a, lim);
    c := After(c3, e2, lim);
    hide After;
    RunSnoc(lim, run0, c0, Serve(1, b));
    RunSnoc(lim, run0 + [Serve(1, b)], c1, e1);
    RunSnoc(lim, run0 + [Serve(1, b)] + [e1], c2, Serve(0, a));
    RunSnoc(lim, run0 + [Serve(1, b)] + [e1] + [Serve(0, a)], c3, e2);
    run := run0 + [Serve(1, b)] + [e1] + [Serve(0, a)] + [e2];
  }

  lemma PrintNotEmpty(m: Message)
    ensures Print(m) != ""
  {
    hide HeadLines, BodyText;
    PrintOntoLength(m, "");
    LinesOntoIs(HeadLines(m), BodyText(m.framing) + "");
    assert |LinesOnto(HeadLines(m), "")| >= 2 by { hide *; LinesNotEmpty(HeadLines(m)); }
  }

  lemma {:induction false} LinesNotEmpty(lines: seq<string>)
    ensures |LinesOnto(lines, "")| >= 2
  {}

  /** After a response has been sent reading is armed again and the next buffered request is
      dispatched as well, so one more read event puts two requests under way: whatever the
      three requests and their keep-alive answers, the third answer can overtake the second. */
  lemma {:induction false} ReadEventMayReorder(m: seq<Message>, a: seq<Answer>, lim: Limits) returns (run: seq<Event>, c: Conn)
    requires |m| == |a| == 3 && HeadsFit(m, lim)
    requires forall k :: 0 <= k < 3 ==> ValidMessage(m[k], lim.body) && a[k].keepAlive && WellFormed(a[k])
    requires forall k :: 0 <= k < 3 ==> Expected(m[k]).KeepAlive()
    requires Sane(Print(m[0]) + Print(m[1]), lim) && Sane(Print(m[2]), lim)
    requires Overflow("", Print(m[0]) + Print(m[1]), lim.store) == None && Overflow("", Print(m[2]), lim.store) == None
    ensures Run(lim, run) == Some(c) && Quiet(c) && [Read(Print(m[0]) + Print(m[1]))] <= run && Singly(lim, run)
    ensures c.wire == a[0].data + a[2].data + a[1].data
    ensures c.handed == [Accepted(Expected(m[0])), Accepted(Expected(m[1])), Accepted(Expected(m[2]))]
    ensures c.served == [Served(0, a[0]), Served(2, a[2]), Served(1, a[1])]
  {
    hide Print, Expected, ValidMessage, HeadText, NextJob, Run, WellFormed, Overflow, Singly;
    assert Print(m[1]) + "" == Print(m[1]) && Print(m[2]) + "" == Print(m[2]);
    PrintNotEmpty(m[0]);
    PrintNotEmpty(m[1]);
    PrintNotEmpty(m[2]);
    NextPrinted(m[0], Print(m[1]), lim);
    NextPrinted(m[1], "", lim);
    NextPrinted(m[2], "", lim);
    run, c := TwoUnderWay(Print(m[0]) + Print(m[1]), lim, Print(m[1]), Print(m[2]),
                          Accepted(Expected(m[0])), Accepted(Expected(m[1])), Accepted(Expected(m[2])), a[0]);
    run, c := Overtaken(lim, run, c, a[1], a[2]);
  }

  // ---------- Requests whose answers are dropped ----------

  /** A peer that has sent two requests and then shut down its writing side loses the second
      answer: the end of the stream closes the connection although that request is being
      worked on. */
  lemma {:induction false} EndOfStreamMayLoseAnswer(m0: Message, m1: Message, a: Answer, b: Answer, lim: Limits)
    returns (run: seq<Event>, c: Conn)
    requires HeadsFit([m0, m1], lim) && ValidMessage(m0, lim.body) && ValidMessage(m1, lim.body) && Expected(m0).KeepAlive()
    requires a.keepAlive && WellFormed(a) && WellFormed(b) && (b.keepAlive ==> Expected(m1).KeepAlive())
    requires Sane(Print(m0) + Print(m1), lim) && Overflow("", Print(m0) + Print(m1), lim.store) == None
    ensures [Read(Print(m0) + Print(m1))] <= run && Run(lim, run) == Some(c) && Orderly(lim, run) && Quiet(c)
    ensures c.handed == [Accepted(Expected(m0)), Accepted(Expected(m1))] && c.served == [Served(0, a), Served(1, b)]
    ensures c.wire == a.data
  {
    hide Print, Expected, ValidMessage, HeadText, NextJob, Run, WellFormed, Overflow, Orderly;
    assert |HeadText([m0, m1][0])| <= lim.head && |HeadText([m0, m1][1])| <= lim.head;
    PrintNotEmpty(m0);
    PrintNotEmpty(m1);
    assert Print(m1) + "" == Print(m1);
    NextPrinted(m0, Print(m1), lim);
    NextPrinted(m1, "", lim);
    run, c := EndLosesSecond(Print(m0) + Print(m1), lim, Print(m1), Accepted(Expected(m0)), Accepted(Expected(m1)), a, b);
  }

  lemma EndLosesSecond(input: string, lim: Limits, rest: string, j0: Job, j1: Job, a: Answer, b: Answer)
    returns (run: seq<Event>, c: Conn)
    requires a.keepAlive && WellFormed(a) && Sane(input, lim) && Sane(rest, lim) && rest != "" && input != ""
    requires Overflow("", input, lim.store) == None && KeepsOpen(j0) && j1.Accepted?
    requires NextJob(input, lim) == Some((j0, rest)) && NextJob(rest, lim) == Some((j1, ""))
    requires WellFormed(b) && (b.keepAlive ==> KeepsOpen(j1))
    ensures [Read(input)] <= run && Run(lim, run) == Some(c) && Orderly(lim, run) && Quiet(c)
    ensures c.handed == [j0, j1] && c.served == [Served(0, a), Served(1, b)] && c.wire == a.data
  {
    hide NextJob, Run, Orderly, Singly, WellFormed, KeepsOpen, Overflow;
    run := FirstAnswered(input, lim, rest, j0, j1, a);
    var c0 := Conn("", [1], [], KEPT_OPEN, Protocol.Reading, true, a.data, [j0, j1], [Served(0, a)]);
    run, c := LostAtEnd(lim, run, c0, b);
  }

  lemma LostAtEnd(lim: Limits, run0: seq<Event>, c0: Conn, b: Answer) returns (run: seq<Event>, c: Conn)
    requires lim.body < MAX_SIZE && Run(lim, run0) == Some(c0) && Orderly(lim, run0) && c0.open && c0.arm == Protocol.Reading
    requires |c0.tasks| == 1 && c0.posted == [] && WellFormed(b)
    requires c0.tasks[0] < |c0.handed| && (b.keepAlive ==> KeepsOpen(c0.handed[c0.tasks[0]]))
    ensures run0 <= run && Run(lim, run) == Some(c) && Orderly(lim, run) && Quiet(c)
    ensures c.handed == c0.handed && c.served == c0.served + [Served(c0.tasks[0], b)] && c.wire == c0.wire
  {
    hide Run, Orderly, WellFormed;
    var c1 := Shut(c0);
    var c2 := c1.(tasks := [], posted := [b], served := c0.served + [Served(c0.tasks[0], b)]);
    assert After(c1, Serve(0, b), lim) == c2;
    var e := Wakeup(Protocol.Output(0, false));
    c := c2.(posted := []);
    assert After(c2, e, lim) == c;
    hide After;
    RunSnoc(lim, run0, c0, EndOfStream);
    RunSnoc(lim, run0 + [EndOfStream], c1, Serve(0, b));
    RunSnoc(lim, run0 + [EndOfStream] + [Serve(0, b)], c2, e);
    run := run0 + [EndOfStream] + [Serve(0, b)] + [e];
  }

  /** And the timer, or a hang-up, may close between the end of a request and the delivery of
      its answer: nothing is sent. */
  lemma {:induction false} PostedAnswerMayBeDropped(m: Message, a: Answer, lim: Limits, e: Event) returns (run: seq<Event>, c: Conn)
    requires ValidMessage(m, lim.body) && |HeadText(m)| <= lim.head && WellFormed(a) && (a.keepAlive ==> Expected(m).KeepAlive())
    requires Sane(Print(m), lim) && Overflow("", Print(m), lim.store) == None && (e.Timeout? || e.Hangup?)
    ensures run == [Read(Print(m)), Serve(0, a), e] && Run(lim, run) == Some(c) && Orderly(lim, run) && Quiet(c)
    ensures c.handed == [Accepted(Expected(m))] && c.served == [Served(0, a)] && c.wire == ""
  {
    hide Print, Expected, ValidMessage, HeadText, NextJob, Run, WellFormed, Orderly, Overflow;
    PrintNotEmpty(m);
    assert Print(m) + "" == Print(m);
    NextPrinted(m, "", lim);
    run, c := CloseDropsPosted(Print(m), lim, Accepted(Expected(m)), a, e);
  }

  lemma CloseDropsPosted(input: string, lim: Limits, j: Job, a: Answer, e: Event) returns (run: seq<Event>, c: Conn)
    requires Sane(input, lim) && input != "" && Overflow("", input, lim.store) == None && NextJob(input, lim) == Some((j, ""))
    requires WellFormed(a) && (a.keepAlive ==> KeepsOpen(j)) && (e.Timeout? || e.Hangup?)
    ensures run == [Read(input), Serve(0, a), e] && Run(lim, run) == Some(c) && Orderly(lim, run) && Quiet(c)
    ensures c.handed == [j] && c.served == [Served(0, a)] && c.wire == ""
  {
    hide NextJob, WellFormed, Orderly, HandsOutBusy, Singly, KeepsOpen;
    OverflowIff("", input, lim.store);
    hide Overflow, Kept;
    assert "" + input == input;
    OrderlyNow(lim);
    var c0 := Conn("", [0], [], START.ctx, Protocol.Disarmed, true, "", [j], []);
    assert After(START, Read(input), lim) == c0;
    var c1 := c0.(tasks := [], posted := [a], served := [Served(0, a)]);
    assert After(c0, Serve(0, a), lim) == c1;
    c := Shut(c1);
    assert After(c1, e, lim) == c;
    NotBusy(START, Read(input), lim);
    NotBusy(c0, Serve(0, a), lim);
    NotBusy(c1, e, lim);
    hide Run, After;
    RunSnoc(lim, [], START, Read(input));
    RunSnoc(lim, [] + [Read(input)], c0, Serve(0, a));
    RunSnoc(lim, [] + [Read(input)] + [Serve(0, a)], c1, e);
    run := [] + [Read(input)] + [Serve(0, a)] + [e];
    assert run == [Read(input), Serve(0, a), e];
  }
}
