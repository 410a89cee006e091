/** The thread pool: one mutex, a FIFO of tasks, a counter changed outside the mutex and
    two condition variables, as interleaved steps of any number of threads. */
module ThreadPool {
  import opened Text

  type Task = nat

  /** Where a thread is. The first block is a worker's, the second a client's. */
  datatype Pc =
    | Start                     // about to lock the mutex
    | Looking                   // holds it, about to evaluate the wait condition
    | Drowsy                    // holds it, the condition was false
    | Asleep                    // waits on condition_
    | Taken(task: Task)         // holds it, the task popped
    | Running(task: Task)
    | Done                      // the task returned, the counter still counts it
    | Announcing                // made the counter zero, about to lock
    | Notifying                 // holds the mutex
    | Outside                   // between two calls
    | Submitting(task: Task)    // holds the mutex
    | Pushed                    // holds it, the counter not yet increased
    | Counted                   // holds it
    | Released                  // about to notify one worker
    | Arriving                  // in waitForAllTasks, about to lock
    | Judging                   // holds the mutex, about to evaluate the condition
    | Doubting                  // holds it, the condition was false
    | Blocked                   // waits on finishedCondition_
    | Leaving                   // holds it, the condition was true
  {
    predicate Worker() {
      Start? || Looking? || Drowsy? || Asleep? || Taken? || Running? || Done? || Announcing? || Notifying?
    }
    predicate Holds() {
      Looking? || Drowsy? || Taken? || Notifying? || Submitting? || Pushed? || Counted? || Judging? || Doubting? || Leaving?
    }
    predicate HasTask() { Taken? || Running? || Done? }
    predicate WillNotifyAll() { Announcing? || Notifying? }
    predicate WillNotifyOne() { Pushed? || Counted? || Released? }
    predicate Waits() { Doubting? || Blocked? }
  }

  /** accepted, started and finished are histories: the tasks ever pushed, the tasks ever
      popped, and how many have been counted down. */
  datatype State = State(
    threads: seq<Pc>, holder: Option<nat>, tasks: seq<Task>, active: int,
    accepted: seq<Task>, started: seq<Task>, finished: nat)

  datatype Action =
    // workers
    | Lock(i: nat) | Look(i: nat) | Sleep(i: nat) | Wake(i: nat) | Run(i: nat) | Return(i: nat) | CountDown(i: nat)
    | NotifyAll(i: nat)
    // clients
    | Submit(i: nat, task: Task) | Push(i: nat) | CountUp(i: nat) | Unlock(i: nat) | NotifyOne(i: nat, woken: Option<nat>)
    | Call(i: nat) | Enter(i: nat) | Judge(i: nat) | Block(i: nat) | Recheck(i: nat) | Leave(i: nat)
  {
    predicate ByWorker() {
      Lock? || Look? || Sleep? || Wake? || Run? || Return? || CountDown? || NotifyAll?
    }
  }

  function Go(s: State, i: nat, pc: Pc): State
    requires i < |s.threads|
  {
    s.(threads := s.threads[i := pc])
  }

  function Acquire(s: State, i: nat, pc: Pc): State
    requires i < |s.threads|
  {
    Go(s, i, pc).(holder := Some(i))
  }

  function Release(s: State, i: nat, pc: Pc): State
    requires i < |s.threads|
  {
    Go(s, i, pc).(holder := None)
  }

  /** notify_all on finishedCondition_: every sleeper will evaluate its condition again. */
  function WakeBlocked(threads: seq<Pc>): (r: seq<Pc>)
    ensures |r| == |threads|
    ensures forall k :: 0 <= k < |r| ==> r[k] == if threads[k] == Blocked then Arriving else threads[k]
  {
    seq(|threads|, k requires 0 <= k < |threads| => if threads[k] == Blocked then Arriving else threads[k])
  }

  predicate Sleeper(s: State, k: nat) { k < |s.threads| && s.threads[k] == Asleep }

  /** notify_one may pick any worker that sleeps, and none when nobody does. */
  predicate MayWake(s: State, woken: Option<nat>) {
    match woken
    case Some(k) => Sleeper(s, k)
    case None => Asleep !in s.threads
  }

  /** workerFunction. A worker may also be woken for no reason. */
  function WorkerStep(s: State, a: Action): Option<State>
    requires a.ByWorker() && a.i < |s.threads|
  {
    var pc := s.threads[a.i];
    match a
    case Lock(i) =>
      if s.holder.Some? then None
      else if pc == Start then Some(Acquire(s, i, Looking))
      else if pc == Announcing then Some(Acquire(s, i, Notifying))
      else None
    case Look(i) =>
      if pc != Looking then None
      else if s.tasks == [] then Some(Go(s, i, Drowsy))
      else Some(Go(s, i, Taken(s.tasks[0])).(tasks := s.tasks[1..], started := s.started + [s.tasks[0]]))
    case Sleep(i) => if pc == Drowsy then Some(Release(s, i, Asleep)) else None
    case Wake(i) => if pc == Asleep then Some(Go(s, i, Start)) else None
    case Run(i) => if pc.Taken? then Some(Release(s, i, Running(pc.task))) else None
    case Return(i) => if pc.Running? then Some(Go(s, i, Done)) else None
    case CountDown(i) =>
      if pc != Done then None
      else Some(Go(s, i, if s.active - 1 == 0 then Announcing else Start)
                .(active := s.active - 1, finished := s.finished + 1))
    case NotifyAll(i) =>
      if pc != Notifying then None
      else Some(Release(s, i, Start).(threads := WakeBlocked(s.threads[i := Start])))
  }

  /** enqueueDetached, from Submit to NotifyOne, and waitForAllTasks, from Call to Leave. */
  function ClientStep(s: State, a: Action): Option<State>
    requires !a.ByWorker() && a.i < |s.threads|
  {
    var pc := s.threads[a.i];
    match a
    case Submit(i, task) =>
      if pc == Outside && s.holder.None? then Some(Acquire(s, i, Submitting(task))) else None
    case Push(i) =>
      if !pc.Submitting? then None
      else Some(Go(s, i, Pushed).(tasks := s.tasks + [pc.task], accepted := s.accepted + [pc.task]))
    case CountUp(i) => if pc == Pushed then Some(Go(s, i, Counted).(active := s.active + 1)) else None
    case Unlock(i) => if pc == Counted then Some(Release(s, i, Released)) else None
    case NotifyOne(i, woken) =>
      if pc != Released || !MayWake(s, woken) then None
      else if woken.None? then Some(Go(s, i, Outside))
      else Some(Go(Go(s, i, Outside), woken.value, Start))
    case Call(i) => if pc == Outside then Some(Go(s, i, Arriving)) else None
    case Enter(i) => if pc == Arriving && s.holder.None? then Some(Acquire(s, i, Judging)) else None
    case Judge(i) =>
      if pc != Judging then None
      else Some(Go(s, i, if s.tasks == [] && s.active == 0 then Leaving else Doubting))
    case Block(i) => if pc == Doubting then Some(Release(s, i, Blocked)) else None
    case Recheck(i) => if pc == Blocked then Some(Go(s, i, Arriving)) else None
    case Leave(i) => if pc == Leaving then Some(Release(s, i, Outside)) else None
  }

  function Step(s: State, a: Action): Option<State> {
    if a.i >= |s.threads| then None else if a.ByWorker() then WorkerStep(s, a) else ClientStep(s, a)
  }

  /** A pool with some workers and some clients, all at their beginning. */
  predicate Initial(s: State) {
    && (forall k :: 0 <= k < |s.threads| ==> s.threads[k] in {Start, Outside})
    && s == State(s.threads, None, [], 0, [], [], 0)
  }

  function Exec(s: State, run: seq<Action>): Option<State> {
    if run == [] then Some(s)
    else
      match Exec(s, run[..|run| - 1])
      case None => None
      case Some(t) => Step(t, run[|run| - 1])
  }

  // ---------- Counting ----------

  function InHand(threads: seq<Pc>): nat {
    if threads == [] then 0
    else InHand(threads[..|threads| - 1]) + if threads[|threads| - 1].HasTask() then 1 else 0
  }

  function One(b: bool): nat { if b then 1 else 0 }

  lemma {:induction false} InHandUpdate(threads: seq<Pc>, i: nat, pc: Pc)
    requires i < |threads|
    ensures InHand(threads[i := pc]) + One(threads[i].HasTask()) == InHand(threads) + One(pc.HasTask())
  {
    var n := |threads| - 1;
    var u := threads[i := pc];
    if i == n {
      assert u[..n] == threads[..n];
    } else {
      assert u[..n] == threads[..n][i := pc];
      InHandUpdate(threads[..n], i, pc);
    }
  }

  lemma {:induction false} InHandPointwise(a: seq<Pc>, b: seq<Pc>)
    requires |a| == |b| && forall k :: 0 <= k < |a| ==> a[k].HasTask() == b[k].HasTask()
    ensures InHand(a) == InHand(b)
  {
    if a != [] { InHandPointwise(a[..|a| - 1], b[..|b| - 1]); }
  }

  lemma {:induction false} InHandZero(threads: seq<Pc>)
    ensures InHand(threads) == 0 <==> forall k :: 0 <= k < |threads| ==> !threads[k].HasTask()
  {
    if threads != [] {
      var n := |threads| - 1;
      InHandZero(threads[..n]);
      assert forall k :: 0 <= k < n ==> threads[..n][k] == threads[k];
    }
  }

  // ---------- The invariant ----------

  /** One thread at most is inside the mutex. */
  predicate MutexHeld(s: State) {
    && (s.holder.Some? ==> s.holder.value < |s.threads|)
    && (forall k :: 0 <= k < |s.threads| ==> (s.threads[k].Holds() <==> s.holder == Some(k)))
  }

  predicate PushPending(s: State) {
    s.holder.Some? && s.holder.value < |s.threads| && s.threads[s.holder.value] == Pushed
  }

  /** Between push and fetch_add, and only there, the counter lacks one task. */
  predicate Accounted(s: State) {
    && s.active + One(PushPending(s)) == |s.tasks| + InHand(s.threads)
    && (PushPending(s) ==> s.tasks != [])
    && s.accepted == s.started + s.tasks
    && |s.started| == s.finished + InHand(s.threads)
  }

  ghost predicate NoLostFinish(s: State) {
    s.tasks == [] && s.active == 0 && (exists k :: 0 <= k < |s.threads| && s.threads[k].Waits())
    ==> exists k :: 0 <= k < |s.threads| && s.threads[k].WillNotifyAll()
  }

  /** A worker that will look at the queue again, or a client that will wake one. */
  predicate Alert(pc: Pc) { pc.WillNotifyOne() || (pc.Worker() && pc != Asleep) }

  ghost predicate NoLostTask(s: State) {
    && (forall k :: 0 <= k < |s.threads| && s.threads[k] == Drowsy ==> s.tasks == [])
    && (s.tasks != [] && (exists k :: 0 <= k < |s.threads| && s.threads[k] == Asleep)
        ==> exists k :: 0 <= k < |s.threads| && Alert(s.threads[k]))
  }

  ghost predicate Inv(s: State) { MutexHeld(s) && Accounted(s) && NoLostFinish(s) && NoLostTask(s) }

  lemma WorkerKeepsMutex(s: State, a: Action)
    requires a.ByWorker() && MutexHeld(s) && Step(s, a).Some?
    ensures MutexHeld(Step(s, a).value)
  {
    hide ClientStep;
  }

  lemma ClientKeepsMutex(s: State, a: Action)
    requires !a.ByWorker() && MutexHeld(s) && Step(s, a).Some?
    ensures MutexHeld(Step(s, a).value)
  {
    hide WorkerStep;
  }

  lemma WorkerMovesTasks(s: State, a: Action)
    requires a.ByWorker() && MutexHeld(s) && Step(s, a).Some?
    ensures InHand(Step(s, a).value.threads)
         == InHand(s.threads) + (if a.Look? && s.tasks != [] then 1 else 0) - (if a.CountDown? then 1 else 0)
  {
    hide ClientStep, InHand;
    var t := Step(s, a).value;
    if a.NotifyAll? {
      InHandUpdate(s.threads, a.i, Start);
      InHandPointwise(s.threads[a.i := Start], t.threads);
    } else {
      InHandUpdate(s.threads, a.i, t.threads[a.i]);
    }
  }

  lemma ClientMovesNoTask(s: State, a: Action)
    requires !a.ByWorker() && Step(s, a).Some?
    ensures InHand(Step(s, a).value.threads) == InHand(s.threads)
  {
    hide WorkerStep, InHand;
    InHandPointwise(s.threads, Step(s, a).value.threads);
  }

  lemma WorkerKeepsAccounts(s: State, a: Action)
    requires a.ByWorker() && MutexHeld(s) && Accounted(s) && Step(s, a).Some?
    ensures Accounted(Step(s, a).value)
  {
    hide ClientStep, InHand;
    WorkerMovesTasks(s, a);
  }

  lemma ClientKeepsAccounts(s: State, a: Action)
    requires !a.ByWorker() && MutexHeld(s) && Accounted(s) && Step(s, a).Some?
    ensures Accounted(Step(s, a).value)
  {
    hide WorkerStep, InHand;
    ClientMovesNoTask(s, a);
  }

  lemma WorkerLosesNoFinish(s: State, a: Action)
    requires a.ByWorker() && MutexHeld(s) && Accounted(s) && NoLostFinish(s) && Step(s, a).Some?
    ensures NoLostFinish(Step(s, a).value)
  {
    hide ClientStep, InHand;
    var t := Step(s, a).value;
    WorkerMovesTasks(s, a);
    if a.CountDown? && t.active == 0 {
      assert t.threads[a.i].WillNotifyAll();
    } else if a.NotifyAll? {
      assert forall k :: 0 <= k < |t.threads| ==> !t.threads[k].Waits();
    } else if a.Look? && s.tasks != [] {
      assert t.tasks != [] || t.active != 0;
    } else if !a.CountDown? {
      forall k | 0 <= k < |s.threads| && s.threads[k].WillNotifyAll() ensures t.threads[k].WillNotifyAll() {}
      assert forall k :: 0 <= k < |t.threads| && t.threads[k].Waits() ==> s.threads[k].Waits();
    }
  }

  lemma ClientLosesNoFinish(s: State, a: Action)
    requires !a.ByWorker() && MutexHeld(s) && Accounted(s) && NoLostFinish(s) && Step(s, a).Some?
    ensures NoLostFinish(Step(s, a).value)
  {
    hide WorkerStep, InHand;
    var t := Step(s, a).value;
    forall k | 0 <= k < |s.threads| && s.threads[k].WillNotifyAll() ensures t.threads[k].WillNotifyAll() {}
    assert forall k :: 0 <= k < |t.threads| && t.threads[k].Waits() ==> s.threads[k].Waits() || a.Judge?;
  }

  lemma WorkerLosesNoTask(s: State, a: Action)
    requires a.ByWorker() && MutexHeld(s) && NoLostTask(s) && Step(s, a).Some?
    ensures NoLostTask(Step(s, a).value)
  {
    hide ClientStep;
    var t := Step(s, a).value;
    if t.threads[a.i] != Asleep { assert Alert(t.threads[a.i]); }
  }

  lemma ClientMovesAlone(s: State, a: Action)
    requires !a.ByWorker() && !a.NotifyOne? && Step(s, a).Some?
    ensures var t := Step(s, a).value;
            && t.threads == s.threads[a.i := t.threads[a.i]] && (a.Push? || t.tasks == s.tasks)
            && t.threads[a.i] != Asleep && t.threads[a.i] != Drowsy
            && (a.Push? || Alert(s.threads[a.i]) ==> Alert(t.threads[a.i]))
            && (a.Push? ==> s.holder == Some(a.i) || !MutexHeld(s))
  {
    hide WorkerStep;
  }

  lemma ClientLosesNoTask(s: State, a: Action)
    requires !a.ByWorker() && MutexHeld(s) && NoLostTask(s) && Step(s, a).Some?
    ensures NoLostTask(Step(s, a).value)
  {
    hide WorkerStep;
    var t := Step(s, a).value;
    if a.NotifyOne? {
      if a.woken.Some? { assert Alert(t.threads[a.woken.value]); }
    } else {
      hide ClientStep;
      ClientMovesAlone(s, a);
      forall k | 0 <= k < |s.threads| && Alert(s.threads[k]) ensures Alert(t.threads[k]) {}
      if a.Push? { assert Alert(t.threads[a.i]); }
    }
  }

  lemma InvKept(s: State, a: Action)
    requires Inv(s) && Step(s, a).Some?
    ensures Inv(Step(s, a).value)
  {
    hide Step, MutexHeld, Accounted, NoLostFinish, NoLostTask;
    if a.ByWorker() {
      WorkerKeepsMutex(s, a);
      WorkerKeepsAccounts(s, a);
      WorkerLosesNoFinish(s, a);
      WorkerLosesNoTask(s, a);
    } else {
      ClientKeepsMutex(s, a);
      ClientKeepsAccounts(s, a);
      ClientLosesNoFinish(s, a);
      ClientLosesNoTask(s, a);
    }
  }

  lemma InitialInv(s: State)
    requires Initial(s)
    ensures Inv(s)
  {
    InHandZero(s.threads);
  }

  lemma {:induction false} ReachableInv(s0: State, run: seq<Action>)
    requires Initial(s0) && Exec(s0, run).Some?
    ensures Inv(Exec(s0, run).value)
  {
    hide Initial, Inv, Step;
    if run == [] {
      InitialInv(s0);
    } else {
      ReachableInv(s0, run[..|run| - 1]);
      InvKept(Exec(s0, run[..|run| - 1]).value, run[|run| - 1]);
    }
  }

  // ---------- What holds in every reachable state ----------

  /** The counter is the number of queued and running tasks, except between a push and its
      fetch_add, when it is one less; it never goes below zero. */
  lemma CounterIsQueuedPlusRunning(s0: State, run: seq<Action>)
    requires Initial(s0) && Exec(s0, run).Some?
    ensures (
        var s := Exec(s0, run).value;
        && s.active == |s.tasks| + InHand(s.threads) - One(PushPending(s))
        && 0 <= s.active)
  {
    ReachableInv(s0, run);
  }

  /** Accepted tasks are started at most once, in the order of acceptance; the ones not
      started are exactly the queue. */
  lemma {:induction false} StartedInOrder(s0: State, run: seq<Action>)
    requires Initial(s0) && Exec(s0, run).Some?
    ensures (
        var s := Exec(s0, run).value;
        && s.started <= s.accepted
        && s.tasks == s.accepted[|s.started|..])
  {
    ReachableInv(s0, run);
  }

  /** Nobody waits for a pool that is done, unless a worker is about to notify. */
  lemma NoWaiterForgotten(s0: State, run: seq<Action>, i: nat)
    requires Initial(s0) && Exec(s0, run).Some? && i < |s0.threads|
    ensures (
        var s := Exec(s0, run).value;
        && |s.threads| == |s0.threads|
        && (s.tasks == [] && s.active == 0 && s.threads[i] == Blocked
            ==> exists k :: 0 <= k < |s.threads| && s.threads[k].WillNotifyAll()))
  {
    ReachableInv(s0, run);
    ThreadsStay(s0, run);
  }

  lemma {:induction false} ThreadsStay(s0: State, run: seq<Action>)
    requires Exec(s0, run).Some?
    ensures |Exec(s0, run).value.threads| == |s0.threads|
  {
    if run != [] {
      ThreadsStay(s0, run[..|run| - 1]);
      StepThreads(Exec(s0, run[..|run| - 1]).value, run[|run| - 1]);
    }
  }

  lemma StepThreads(s: State, a: Action)
    requires Step(s, a).Some?
    ensures |Step(s, a).value.threads| == |s.threads|
  {}

  /** While a task is queued, not every worker sleeps with no one to wake it. */
  lemma NoTaskForgotten(s0: State, run: seq<Action>, w: nat)
    requires Initial(s0) && Exec(s0, run).Some?
    ensures (
        var s := Exec(s0, run).value;
        s.tasks != [] && w < |s.threads| && s.threads[w].Worker()
        ==> exists k :: 0 <= k < |s.threads| && Alert(s.threads[k]))
  {
    ReachableInv(s0, run);
    var s := Exec(s0, run).value;
    if s.tasks != [] && w < |s.threads| && s.threads[w].Worker() {
      assert Alert(s.threads[w]) || s.threads[w] == Asleep;
    }
  }

  /** waitForAllTasks returns from its condition exactly when every task accepted so far
      has been started and has finished. */
  lemma {:induction false} WaitEndsExactlyWhenAllFinished(s0: State, run: seq<Action>, i: nat)
    requires Initial(s0) && Exec(s0, run).Some? && Step(Exec(s0, run).value, Judge(i)).Some?
    ensures (
        var s := Exec(s0, run).value;
        Step(s, Judge(i)).value.threads[i] == Leaving <==> s.finished == |s.accepted|)
  {
    ReachableInv(s0, run);
  }

  // ---------- One thread running its section without interruption ----------

  function Then(o: Option<State>, a: Action): Option<State> {
    if o.None? then None else Step(o.value, a)
  }

  lemma Exec3(s: State, a: Action, b: Action, c: Action)
    ensures Exec(s, [a, b, c]) == Then(Then(Step(s, a), b), c)
  {
    hide Step;
    assert [a, b, c][..2] == [a, b] && [a, b][..1] == [a] && [a][..0] == [];
    assert Exec(s, [a]) == Step(s, a);
    assert Exec(s, [a, b]) == Then(Exec(s, [a]), b);
  }

  lemma Exec4(s: State, a: Action, b: Action, c: Action, d: Action)
    ensures Exec(s, [a, b, c, d]) == Then(Then(Then(Step(s, a), b), c), d)
  {
    hide Step;
    Exec3(s, a, b, c);
    assert [a, b, c, d][..3] == [a, b, c];
  }

  function Enqueued(s: State, me: nat, task: Task): State
    requires me < |s.threads|
  {
    s.(tasks := s.tasks + [task], accepted := s.accepted + [task], active := s.active + 1, threads := s.threads[me := Released])
  }

  lemma EnqueueSection(s: State, me: nat, task: Task)
    requires me < |s.threads| && s.threads[me] == Outside && s.holder == None
    ensures Exec(s, [Submit(me, task), Push(me), CountUp(me), Unlock(me)]) == Some(Enqueued(s, me, task))
  {
    Exec4(s, Submit(me, task), Push(me), CountUp(me), Unlock(me));
    hide Exec, WorkerStep;
    var s1 := Acquire(s, me, Submitting(task));
    assert Step(s, Submit(me, task)) == Some(s1);
    var s2 := Go(s1, me, Pushed).(tasks := s.tasks + [task], accepted := s.accepted + [task]);
    assert Step(s1, Push(me)) == Some(s2);
    var s3 := Go(s2, me, Counted).(active := s.active + 1);
    assert Step(s2, CountUp(me)) == Some(s3);
    assert Step(s3, Unlock(me)) == Some(Release(s3, me, Released));
    assert Release(s3, me, Released).threads == s.threads[me := Released];
  }

  function Took(s: State, me: nat): State
    requires me < |s.threads|
  {
    if s.tasks == [] then Go(s, me, Asleep)
    else Go(s, me, Running(s.tasks[0])).(tasks := s.tasks[1..], started := s.started + [s.tasks[0]])
  }

  lemma TakeSection(s: State, me: nat)
    requires me < |s.threads| && s.threads[me] == Start && s.holder == None
    ensures Exec(s, [Lock(me), Look(me), if s.tasks == [] then Sleep(me) else Run(me)]) == Some(Took(s, me))
  {
    var last := if s.tasks == [] then Sleep(me) else Run(me);
    Exec3(s, Lock(me), Look(me), last);
    hide Exec, ClientStep;
    var s1 := Acquire(s, me, Looking);
    assert Step(s, Lock(me)) == Some(s1);
    if s.tasks == [] {
      assert Step(s1, Look(me)) == Some(Go(s1, me, Drowsy));
      assert Release(Go(s1, me, Drowsy), me, Asleep).threads == s.threads[me := Asleep];
    } else {
      var s2 := Go(s1, me, Taken(s.tasks[0])).(tasks := s.tasks[1..], started := s.started + [s.tasks[0]]);
      assert Step(s1, Look(me)) == Some(s2);
      assert Step(s2, Run(me)) == Some(Release(s2, me, Running(s.tasks[0])));
      assert s2.threads[me := Running(s.tasks[0])] == s.threads[me := Running(s.tasks[0])];
    }
  }

  function Finished(s: State, me: nat): State
    requires me < |s.threads|
  {
    var threads := if s.active == 1 then WakeBlocked(s.threads[me := Start]) else s.threads[me := Start];
    s.(threads := threads, active := s.active - 1, finished := s.finished + 1)
  }

  lemma FinishSection(s: State, me: nat)
    requires me < |s.threads| && s.threads[me] == Done && s.holder == None
    ensures s.active == 1 ==> Exec(s, [CountDown(me), Lock(me), NotifyAll(me)]) == Some(Finished(s, me))
    ensures s.active != 1 ==> Step(s, CountDown(me)) == Some(Finished(s, me))
  {
    Exec3(s, CountDown(me), Lock(me), NotifyAll(me));
    hide Exec, ClientStep;
    if s.active == 1 {
      var s1 := Go(s, me, Announcing).(active := 0, finished := s.finished + 1);
      assert Step(s, CountDown(me)) == Some(s1);
      var s2 := Acquire(s1, me, Notifying);
      assert Step(s1, Lock(me)) == Some(s2);
      assert s2.threads[me := Start] == s.threads[me := Start];
    }
  }

  function Waited(s: State, me: nat): State
    requires me < |s.threads|
  {
    Go(s, me, if s.tasks == [] && s.active == 0 then Outside else Blocked)
  }

  lemma WaitSection(s: State, me: nat)
    requires me < |s.threads| && s.threads[me] == Arriving && s.holder == None
    ensures Exec(s, [Enter(me), Judge(me), if s.tasks == [] && s.active == 0 then Leave(me) else Block(me)]) == Some(Waited(s, me))
  {
    var last := if s.tasks == [] && s.active == 0 then Leave(me) else Block(me);
    Exec3(s, Enter(me), Judge(me), last);
    hide Exec, WorkerStep;
    var s1 := Acquire(s, me, Judging);
    assert Step(s, Enter(me)) == Some(s1);
    var pc := if s.tasks == [] && s.active == 0 then Leaving else Doubting;
    assert Step(s1, Judge(me)) == Some(Go(s1, me, pc));
    assert Step(Go(s1, me, pc), last).value.threads == Waited(s, me).threads;
  }

  // ---------- The object ----------

  /** The pool's fields; who is where, and the histories, are ghost. */
  class Pool {
    var tasks: seq<Task>
    var activeTasks: int
    ghost var threads: seq<Pc>
    ghost var holder: Option<nat>
    ghost var accepted: seq<Task>
    ghost var started: seq<Task>
    ghost var finished: nat

    ghost function View(): State
      reads this
    {
      State(threads, holder, tasks, activeTasks, accepted, started, finished)
    }

    ghost predicate At(i: nat, pc: Pc)
      reads this
    {
      i < |threads| && threads[i] == pc
    }

    constructor (ghost initial: seq<Pc>)
      requires forall k :: 0 <= k < |initial| ==> initial[k] in {Start, Outside}
      ensures View() == State(initial, None, [], 0, [], [], 0) && Initial(View())
    {
      tasks, activeTasks := [], 0;
      threads, holder, accepted, started, finished := initial, None, [], [], 0;
    }

    ghost method Become(s: State)
      modifies `threads, `holder, `accepted, `started, `finished
      ensures threads == s.threads && holder == s.holder && accepted == s.accepted
      ensures started == s.started && finished == s.finished
    {
      threads, holder, accepted, started, finished := s.threads, s.holder, s.accepted, s.started, s.finished;
    }

    /** enqueueDetached up to the notification; an empty function is refused first. */
    method EnqueueDetached(ghost me: nat, task: Option<Task>) returns (ok: bool)
      requires At(me, Outside) && holder == None
      modifies this
      ensures ok == task.Some?
      ensures !ok ==> View() == old(View())
      ensures ok ==> Exec(old(View()), [Submit(me, task.value), Push(me), CountUp(me), Unlock(me)]) == Some(View())
      ensures ok ==> tasks == old(tasks) + [task.value] && activeTasks == old(activeTasks) + 1
    {
      if task.None? { return false; }
      ghost var s := View();
      EnqueueSection(s, me, task.value);
      hide Exec;
      tasks := tasks + [task.value];
      activeTasks := activeTasks + 1;
      Become(Enqueued(s, me, task.value));
      ok := true;
    }

    /** A worker's critical section: the front task, or sleep. */
    method TakeTask(ghost me: nat) returns (task: Option<Task>)
      requires At(me, Start) && holder == None
      modifies this
      ensures task.None? <==> old(tasks) == []
      ensures task.Some? ==> old(tasks) == [task.value] + tasks
      ensures Exec(old(View()), [Lock(me), Look(me), if task.None? then Sleep(me) else Run(me)]) == Some(View())
    {
      ghost var s := View();
      TakeSection(s, me);
      hide Exec;
      Become(Took(s, me));
      if tasks == [] { return None; }
      task := Some(tasks[0]);
      tasks := tasks[1..];
    }

    /** After the task has returned; at zero the waiters are notified under the mutex. */
    method FinishTask(ghost me: nat) returns (notified: bool)
      requires At(me, Done) && holder == None
      modifies this
      ensures notified <==> old(activeTasks) == 1
      ensures activeTasks == old(activeTasks) - 1 && tasks == old(tasks)
      ensures !notified ==> Step(old(View()), CountDown(me)) == Some(View())
      ensures notified ==> Exec(old(View()), [CountDown(me), Lock(me), NotifyAll(me)]) == Some(View())
    {
      ghost var s := View();
      FinishSection(s, me);
      hide Exec, Step;
      Become(Finished(s, me));
      activeTasks := activeTasks - 1;
      notified := activeTasks == 0;
    }

    /** One evaluation of waitForAllTasks' condition. */
    method WaitForAllTasks(ghost me: nat) returns (done: bool)
      requires At(me, Arriving) && holder == None && Inv(View())
      modifies this
      ensures done <==> old(finished) == |old(accepted)|
      ensures Exec(old(View()), [Enter(me), Judge(me), if done then Leave(me) else Block(me)]) == Some(View())
    {
      ghost var s := View();
      WaitSection(s, me);
      AllFinished(s);
      hide Exec, Inv;
      Become(Waited(s, me));
      done := tasks == [] && activeTasks == 0;
    }
  }

  lemma AllFinished(s: State)
    requires Inv(s) && !PushPending(s)
    ensures s.tasks == [] && s.active == 0 <==> s.finished == |s.accepted|
  {}
}
