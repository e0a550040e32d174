/** The fixed-size thread pool of the `mylib` crate as an interleaving
    transition system.

    The threads, the mutex and the channel are not modelled as such: each
    thing a thread can do atomically is a `Step`, the scheduler's choice is
    the worker index carried by the step, and `Next` gives the state after
    the step.  `Inv` is the invariant every reachable state keeps; the
    lemmas below prove that it is kept, that entries are delivered once and
    in order, and that shutdown cannot hang.  The class `ThreadPool` at the
    end performs the same steps in place on its fields. */
module Mylib {
  import opened Sums

  datatype Option<T> = None | Some(value: T)

  /** A job is opaque to the pool; the model knows it by an identifier. */
  type JobId = nat

  /** An entry of the channel: work to run, or the poison pill. */
  datatype Message = NewJob(job: JobId) | Terminate

  /** Why a worker's loop ended. */
  datatype ExitReason =
    | Terminated   // it took a Terminate entry
    | LockFailed   // locking the shared receiver failed
    | RecvFailed   // the channel reported that it is closed
    | Panicked     // the job it was running panicked and unwound the thread

  /** Where a worker thread is in its loop. */
  datatype Phase = Waiting | RunningJob(job: JobId) | Stopped(reason: ExitReason)

  /** A worker record: its number, whether the pool still holds its join
      handle, and the state of the thread behind it. */
  datatype Worker = Worker(id: nat, hasHandle: bool, phase: Phase)

  /** What one attempt to lock the receiver and receive gives a worker. */
  datatype RecvOutcome = Delivered | LockPoisoned | Disconnected

  /** How far the pool's `drop` has got: not started, `attempted` Terminate
      sends done, or joining worker `next` (all joined when `next` is the
      worker count). */
  datatype Lifecycle = Open | Terminating(attempted: nat) | Joining(next: nat)

  /** One entry taken off the queue, and the worker that took it. */
  datatype Delivery = Delivery(entry: Message, worker: nat)

  /** The pool, the channel's buffer, and two logs that exist only for the
      proofs: every entry the channel accepted, and every entry a worker
      took off it, both in order. */
  datatype PoolState = PoolState(
    workers: seq<Worker>,
    queue: seq<Message>,
    lifecycle: Lifecycle,
    sent: seq<Message>,
    received: seq<Delivery>)

  /** The atomic steps of the system. */
  datatype Step =
    | Submit(job: JobId)                       // ThreadPool::execute
    | Receive(worker: nat, outcome: RecvOutcome) // a worker locks, receives and dispatches
    | Finish(worker: nat, panicked: bool)      // a worker's job returns or panics
    | SendTerminate                            // one iteration of drop's send loop
    | JoinNext                                 // one iteration of drop's join loop

  // ---------------------------------------------------------------------
  // Construction

  /** `Worker::new`: the thread is spawned and its handle kept. */
  function SpawnWorker(id: nat): Worker
  {
    Worker(id, true, Waiting)
  }

  /** `ThreadPool::new(size)`; `None` stands for the failed `assert!`. */
  function Init(size: nat): (r: Option<PoolState>)
    ensures r.None? <==> size == 0
    ensures r.Some? ==> |r.value.workers| == size
    ensures r.Some? ==> forall i :: 0 <= i < size ==>
      r.value.workers[i].id == i && r.value.workers[i].hasHandle && !r.value.workers[i].phase.Stopped?
    ensures r.Some? ==> r.value.queue == [] && r.value.lifecycle == Open
  {
    if size == 0 then None
    else Some(PoolState(seq(size, i requires 0 <= i < size => SpawnWorker(i)), [], Open, [], []))
  }

  // ---------------------------------------------------------------------
  // Transitions

  /** The channel accepts sends as long as some worker thread, and so some
      clone of the shared receiver, is still alive. */
  predicate ChannelOpen(ws: seq<Worker>)
  {
    exists i | 0 <= i < |ws| :: !ws[i].phase.Stopped?
  }

  predicate AllStopped(ws: seq<Worker>)
  {
    forall i | 0 <= i < |ws| :: ws[i].phase.Stopped?
  }

  /** What a waiting worker does with the entry it took. */
  function Dispatch(m: Message): Phase
  {
    match m
    case NewJob(j) => RunningJob(j)
    case Terminate => Stopped(Terminated)
  }

  /** When a step can happen.  A worker receives only from its waiting
      point; a successful receive needs an entry; the channel reports
      closure only once its buffer is empty and its one sender, a field of
      the pool, is gone, which happens only after `drop` has returned;
      `execute` can be called only before `drop` starts; a join waits for
      the thread to have exited. */
  predicate Enabled(s: PoolState, step: Step)
  {
    match step
    case Submit(_) => s.lifecycle.Open?
    case Receive(i, o) =>
      && i < |s.workers|
      && s.workers[i].phase.Waiting?
      && (o.Delivered? ==> |s.queue| > 0)
      && (o.Disconnected? ==> |s.queue| == 0 && DropFinished(s))
    case Finish(i, _) => i < |s.workers| && s.workers[i].phase.RunningJob?
    case SendTerminate => s.lifecycle.Open? || s.lifecycle.Terminating?
    case JoinNext =>
      && s.lifecycle.Joining?
      && s.lifecycle.next < |s.workers|
      && (s.workers[s.lifecycle.next].hasHandle ==> s.workers[s.lifecycle.next].phase.Stopped?)
  }

  /** Drop's progress after one more Terminate send: the join loop starts
      once there has been one per worker. */
  function AfterSend(lc: Lifecycle, n: nat): Lifecycle
  {
    var k := if lc.Terminating? then lc.attempted + 1 else 1;
    if k < n then Terminating(k) else Joining(0)
  }

  /** The state after an enabled step. */
  function Next(s: PoolState, step: Step): PoolState
    requires Enabled(s, step)
  {
    match step
    case Submit(j) =>
      if ChannelOpen(s.workers) then
        s.(queue := s.queue + [NewJob(j)], sent := s.sent + [NewJob(j)])
      else s
    case Receive(i, o) =>
      (match o
       case Delivered =>
         var m := s.queue[0];
         s.(workers := s.workers[i := s.workers[i].(phase := Dispatch(m))],
            queue := s.queue[1..],
            received := s.received + [Delivery(m, i)])
       case LockPoisoned =>
         s.(workers := s.workers[i := s.workers[i].(phase := Stopped(LockFailed))])
       case Disconnected =>
         s.(workers := s.workers[i := s.workers[i].(phase := Stopped(RecvFailed))]))
    case Finish(i, panicked) =>
      var p := if panicked then Stopped(Panicked) else Waiting;
      s.(workers := s.workers[i := s.workers[i].(phase := p)])
    case SendTerminate =>
      var lc := AfterSend(s.lifecycle, |s.workers|);
      if ChannelOpen(s.workers) then
        s.(queue := s.queue + [Terminate], sent := s.sent + [Terminate], lifecycle := lc)
      else s.(lifecycle := lc)
    case JoinNext =>
      var j := s.lifecycle.next;
      s.(workers := s.workers[j := s.workers[j].(hasHandle := false)], lifecycle := Joining(j + 1))
  }

  /** `thread.join()` returns an error exactly when the thread panicked. */
  predicate JoinFails(w: Worker)
  {
    w.hasHandle && w.phase == Stopped(Panicked)
  }

  function JoinFailMark(w: Worker): nat { if JoinFails(w) then 1 else 0 }

  /** A sequence of steps each enabled in the state the previous left. */
  ghost predicate ValidRun(s: PoolState, steps: seq<Step>)
    decreases |steps|
  {
    |steps| == 0 || (Enabled(s, steps[0]) && ValidRun(Next(s, steps[0]), steps[1..]))
  }

  ghost function Run(s: PoolState, steps: seq<Step>): PoolState
    requires ValidRun(s, steps)
    decreases |steps|
  {
    if |steps| == 0 then s else Run(Next(s, steps[0]), steps[1..])
  }

  predicate DropFinished(s: PoolState)
  {
    s.lifecycle == Joining(|s.workers|)
  }

  // ---------------------------------------------------------------------
  // The invariant

  function TerminateMark(m: Message): nat { if m.Terminate? then 1 else 0 }
  function TerminatedMark(w: Worker): nat { if w.phase == Stopped(Terminated) then 1 else 0 }
  function LiveMark(w: Worker): nat { if w.phase.Stopped? then 0 else 1 }
  function RunningMark(w: Worker): nat { if w.phase.RunningJob? then 1 else 0 }

  /** The entries of a delivery log, in the order they were taken. */
  function Entries(d: seq<Delivery>): seq<Message>
  {
    seq(|d|, k requires 0 <= k < |d| => d[k].entry)
  }

  /** No job entry follows a Terminate entry. */
  predicate TerminatesLast(m: seq<Message>)
  {
    forall a, b :: 0 <= a < b < |m| && m[a].Terminate? ==> m[b].Terminate?
  }

  /** Terminate sends `drop` has attempted so far. */
  function Attempts(lc: Lifecycle, n: nat): nat
  {
    match lc
    case Open => 0
    case Terminating(k) => k
    case Joining(_) => n
  }

  /** Workers whose handle `drop` has already taken. */
  function Joined(lc: Lifecycle): nat
  {
    if lc.Joining? then lc.next else 0
  }

  predicate LifecycleInRange(lc: Lifecycle, n: nat)
  {
    match lc
    case Open => true
    case Terminating(k) => 0 < k < n
    case Joining(j) => j <= n
  }

  /** Worker numbers, the drop cursor, and the join handles: the join
      loop takes handles in index order, and only there, and only from
      threads that have exited. */
  ghost predicate Shape(s: PoolState)
  {
    var n := |s.workers|;
    && n > 0
    && (forall i :: 0 <= i < n ==> s.workers[i].id == i)
    && LifecycleInRange(s.lifecycle, n)
    && (forall i :: 0 <= i < n ==> (s.workers[i].hasHandle <==> Joined(s.lifecycle) <= i))
    && (forall i :: 0 <= i < n && i < Joined(s.lifecycle) ==> s.workers[i].phase.Stopped?)
  }

  /** FIFO and exactly once: the entries taken, in the order they were
      taken, followed by the entries still buffered, are exactly the
      entries sent. */
  ghost predicate Fifo(s: PoolState)
  {
    Entries(s.received) + s.queue == s.sent
  }

  /** A running job was taken off the queue by the worker running it. */
  ghost predicate RunningDelivered(s: PoolState)
  {
    forall i :: 0 <= i < |s.workers| && s.workers[i].phase.RunningJob? ==>
      Delivery(NewJob(s.workers[i].phase.job), i) in s.received
  }

  /** Every Terminate taken has stopped its own worker. */
  ghost predicate TerminatesAccounted(s: PoolState)
  {
    Sum(Entries(s.received), TerminateMark) == Sum(s.workers, TerminatedMark)
  }

  /** Drop's sends: no job entry after a Terminate, one Terminate per
      attempt, and an attempt fails only when every thread has exited. */
  ghost predicate DropOrder(s: PoolState)
  {
    var n := |s.workers|;
    && TerminatesLast(s.sent)
    && Sum(s.sent, TerminateMark) <= Attempts(s.lifecycle, n)
    && (Sum(s.sent, TerminateMark) < Attempts(s.lifecycle, n) ==> AllStopped(s.workers))
  }

  ghost predicate Inv(s: PoolState)
  {
    Shape(s) && Fifo(s) && RunningDelivered(s) && TerminatesAccounted(s) && DropOrder(s)
  }

  lemma {:induction false} InitSatisfiesInv(size: nat)
    requires size > 0
    ensures Init(size).Some? && Inv(Init(size).value)
  {
    var s := Init(size).value;
    assert Entries(s.received) == [];
    SumOfZeros(s.workers, TerminatedMark);
  }

  lemma NoTerminateCounted(m: seq<Message>)
    requires Sum(m, TerminateMark) == 0
    ensures forall k :: 0 <= k < |m| ==> m[k].NewJob?
  {
    forall k | 0 <= k < |m| ensures m[k].NewJob? {
      SumAtLeast(m, k, TerminateMark);
    }
  }

  lemma EntriesAppend(d: seq<Delivery>, x: Delivery)
    ensures Entries(d + [x]) == Entries(d) + [x.entry]
  {
  }

  // ---------------------------------------------------------------------
  // Each step keeps the invariant

  /** A live worker changing to a phase other than "running a job" or
      "stopped by a Terminate", with nothing else changing, keeps the
      invariant: the shape of Receive's failure outcomes and of Finish. */
  lemma PhaseChangePreservesInv(s: PoolState, i: nat, p: Phase)
    requires Inv(s) && i < |s.workers| && !s.workers[i].phase.Stopped?
    requires !p.RunningJob? && p != Stopped(Terminated)
    ensures Inv(s.(workers := s.workers[i := s.workers[i].(phase := p)]))
  {
    var r := s.(workers := s.workers[i := s.workers[i].(phase := p)]);
    assert Shape(r);
    assert Fifo(r);
    assert RunningDelivered(r);
    SumUpdate(s.workers, i, r.workers[i], TerminatedMark);
    assert TerminatesAccounted(r);
    assert !AllStopped(s.workers);
    assert DropOrder(r);
  }

  /** Before drop, the channel has carried only job entries. */
  lemma SendJobKeepsOrder(sent: seq<Message>, j: JobId)
    requires Sum(sent, TerminateMark) == 0
    ensures TerminatesLast(sent + [NewJob(j)])
    ensures Sum(sent + [NewJob(j)], TerminateMark) == 0
  {
    SumConcat(sent, [NewJob(j)], TerminateMark);
    NoTerminateCounted(sent);
  }

  lemma SubmitPreservesInv(s: PoolState, j: JobId)
    requires Inv(s) && Enabled(s, Submit(j))
    ensures Inv(Next(s, Submit(j)))
  {
    if ChannelOpen(s.workers) {
      var r := Next(s, Submit(j));
      assert r == s.(queue := s.queue + [NewJob(j)], sent := s.sent + [NewJob(j)]);
      assert Shape(r);
      SendKeepsFifo(s.received, s.queue, s.sent, NewJob(j));
      assert Fifo(r);
      assert RunningDelivered(r);
      assert TerminatesAccounted(r);
      SendJobKeepsOrder(s.sent, j);
      assert DropOrder(r);
    }
  }

  lemma TakeHeadKeepsFifo(received: seq<Delivery>, queue: seq<Message>, sent: seq<Message>, i: nat)
    requires |queue| > 0 && Entries(received) + queue == sent
    ensures Entries(received + [Delivery(queue[0], i)]) + queue[1..] == sent
  {
    EntriesAppend(received, Delivery(queue[0], i));
    assert queue == [queue[0]] + queue[1..];
  }

  lemma TakeKeepsAccounting(received: seq<Delivery>, ws: seq<Worker>, i: nat, m: Message)
    requires i < |ws| && ws[i].phase.Waiting?
    requires Sum(Entries(received), TerminateMark) == Sum(ws, TerminatedMark)
    ensures Sum(Entries(received + [Delivery(m, i)]), TerminateMark)
         == Sum(ws[i := ws[i].(phase := Dispatch(m))], TerminatedMark)
  {
    EntriesAppend(received, Delivery(m, i));
    SumUpdate(ws, i, ws[i].(phase := Dispatch(m)), TerminatedMark);
    SumConcat(Entries(received), [m], TerminateMark);
  }

  lemma DeliveryPreservesInv(s: PoolState, i: nat)
    requires Inv(s) && Enabled(s, Receive(i, Delivered))
    ensures Inv(Next(s, Receive(i, Delivered)))
  {
    var m := s.queue[0];
    var r := Next(s, Receive(i, Delivered));
    assert r == s.(workers := s.workers[i := s.workers[i].(phase := Dispatch(m))],
                   queue := s.queue[1..],
                   received := s.received + [Delivery(m, i)]);
    assert Shape(r);
    TakeHeadKeepsFifo(s.received, s.queue, s.sent, i);
    assert Fifo(r);
    assert RunningDelivered(r);
    TakeKeepsAccounting(s.received, s.workers, i, m);
    assert TerminatesAccounted(r);
    assert !AllStopped(s.workers);
    assert DropOrder(r);
  }

  lemma ReceivePreservesInv(s: PoolState, i: nat, o: RecvOutcome)
    requires Inv(s) && Enabled(s, Receive(i, o))
    ensures Inv(Next(s, Receive(i, o)))
  {
    if o.Delivered? {
      DeliveryPreservesInv(s, i);
    } else {
      PhaseChangePreservesInv(s, i, Stopped(if o.LockPoisoned? then LockFailed else RecvFailed));
    }
  }

  /** The error branch of `recv` is dead: the channel's sender outlives
      every join, so no worker still waiting ever sees it closed. */
  lemma NoDisconnectWhileWaiting(s: PoolState, i: nat)
    requires Inv(s)
    ensures !Enabled(s, Receive(i, Disconnected))
  {
    if i < |s.workers| && DropFinished(s) {
      assert Joined(s.lifecycle) == |s.workers|;
    }
  }

  lemma FinishPreservesInv(s: PoolState, i: nat, panicked: bool)
    requires Inv(s) && Enabled(s, Finish(i, panicked))
    ensures Inv(Next(s, Finish(i, panicked)))
  {
    PhaseChangePreservesInv(s, i, if panicked then Stopped(Panicked) else Waiting);
  }

  lemma SendKeepsFifo(received: seq<Delivery>, queue: seq<Message>, sent: seq<Message>, x: Message)
    requires Entries(received) + queue == sent
    ensures Entries(received) + (queue + [x]) == sent + [x]
  {
    assert Entries(received) + (queue + [x]) == (Entries(received) + queue) + [x];
  }

  lemma SendTerminateKeepsOrder(sent: seq<Message>)
    requires TerminatesLast(sent)
    ensures TerminatesLast(sent + [Terminate])
    ensures Sum(sent + [Terminate], TerminateMark) == Sum(sent, TerminateMark) + 1
  {
    SumConcat(sent, [Terminate], TerminateMark);
  }

  lemma SendTerminatePreservesInv(s: PoolState)
    requires Inv(s) && Enabled(s, SendTerminate)
    ensures Inv(Next(s, SendTerminate))
  {
    var r := Next(s, SendTerminate);
    var n := |s.workers|;
    assert Joined(s.lifecycle) == 0 && Joined(r.lifecycle) == 0;
    assert r.workers == s.workers && r.received == s.received;
    assert Attempts(r.lifecycle, n) == Attempts(s.lifecycle, n) + 1;
    assert Shape(r);
    assert RunningDelivered(r);
    assert TerminatesAccounted(r);
    if ChannelOpen(s.workers) {
      assert r.sent == s.sent + [Terminate] && r.queue == s.queue + [Terminate];
      SendKeepsFifo(s.received, s.queue, s.sent, Terminate);
      SendTerminateKeepsOrder(s.sent);
    } else {
      assert r.sent == s.sent && r.queue == s.queue;
    }
    assert Fifo(r);
    assert DropOrder(r);
  }

  lemma JoinNextPreservesInv(s: PoolState)
    requires Inv(s) && Enabled(s, JoinNext)
    ensures Inv(Next(s, JoinNext))
  {
    var j := s.lifecycle.next;
    var r := Next(s, JoinNext);
    assert r == s.(workers := s.workers[j := s.workers[j].(hasHandle := false)], lifecycle := Joining(j + 1));
    assert Shape(r);
    assert Fifo(r);
    assert RunningDelivered(r);
    SumUpdate(s.workers, j, r.workers[j], TerminatedMark);
    assert TerminatesAccounted(r);
    assert DropOrder(r);
  }

  lemma NextPreservesInv(s: PoolState, step: Step)
    requires Inv(s) && Enabled(s, step)
    ensures Inv(Next(s, step))
  {
    match step
    case Submit(j) => SubmitPreservesInv(s, j);
    case Receive(i, o) => ReceivePreservesInv(s, i, o);
    case Finish(i, p) => FinishPreservesInv(s, i, p);
    case SendTerminate => SendTerminatePreservesInv(s);
    case JoinNext => JoinNextPreservesInv(s);
  }

  lemma {:induction false} RunPreservesInv(s: PoolState, steps: seq<Step>)
    requires Inv(s) && ValidRun(s, steps)
    ensures Inv(Run(s, steps))
    decreases |steps|
  {
    if |steps| > 0 {
      NextPreservesInv(s, steps[0]);
      RunPreservesInv(Next(s, steps[0]), steps[1..]);
    }
  }

  // ---------------------------------------------------------------------
  // Properties of runs

  /** The pool never gains or loses a worker, and worker numbers never change. */
  lemma {:induction false} RunKeepsPoolSize(s: PoolState, steps: seq<Step>)
    requires ValidRun(s, steps)
    ensures |Run(s, steps).workers| == |s.workers|
    ensures forall i :: 0 <= i < |s.workers| ==> Run(s, steps).workers[i].id == s.workers[i].id
    decreases |steps|
  {
    if |steps| > 0 {
      RunKeepsPoolSize(Next(s, steps[0]), steps[1..]);
    }
  }

  /** A stopped worker stays stopped for the same reason and never takes
      another entry off the queue. */
  lemma {:induction false} RunKeepsStoppedWorkers(s: PoolState, steps: seq<Step>, i: nat)
    requires ValidRun(s, steps)
    requires i < |s.workers| && s.workers[i].phase.Stopped?
    ensures |Run(s, steps).workers| == |s.workers|
    ensures Run(s, steps).workers[i].phase == s.workers[i].phase
    ensures s.received <= Run(s, steps).received
    ensures forall k :: |s.received| <= k < |Run(s, steps).received| ==>
      Run(s, steps).received[k].worker != i
    decreases |steps|
  {
    if |steps| > 0 {
      var t := Next(s, steps[0]);
      RunKeepsStoppedWorkers(t, steps[1..], i);
    }
  }

  /** Exactly once, in order: the `k`th entry sent is either the `k`th
      entry taken or, if fewer have been taken, still buffered at the
      matching place in the queue. */
  lemma SentEntryAccountedOnce(s: PoolState, k: nat)
    requires Inv(s) && k < |s.sent|
    ensures |s.sent| == |s.received| + |s.queue|
    ensures k < |s.received| ==> s.received[k].entry == s.sent[k]
    ensures |s.received| <= k ==> s.queue[k - |s.received|] == s.sent[k]
  {
    assert Fifo(s);
    assert s.sent[k] == (Entries(s.received) + s.queue)[k];
  }

  /** A worker only ever runs a job that `execute` handed to the channel. */
  lemma RunningJobWasSubmitted(s: PoolState, i: nat)
    requires Inv(s) && i < |s.workers| && s.workers[i].phase.RunningJob?
    ensures NewJob(s.workers[i].phase.job) in s.sent
  {
    var d := Delivery(NewJob(s.workers[i].phase.job), i);
    assert RunningDelivered(s);
    var k :| 0 <= k < |s.received| && s.received[k] == d;
    assert Fifo(s);
    assert s.sent[k] == (Entries(s.received) + s.queue)[k];
  }

  /** Admission control: a worker runs its job inline, so in any state no
      more jobs are in progress than there are workers. */
  lemma RunningAtMostWorkers(ws: seq<Worker>)
    ensures Sum(ws, RunningMark) <= |ws|
  {
    var none := (w: Worker) => 0;
    SumPairBound(ws, RunningMark, none);
    SumOfZeros(ws, none);
  }

  /** In every state a pool of `size` workers can reach, at most `size`
      jobs are in progress at once. */
  lemma RunningJobsBounded(size: nat, steps: seq<Step>)
    requires size > 0 && ValidRun(Init(size).value, steps)
    ensures Sum(Run(Init(size).value, steps).workers, RunningMark) <= size
  {
    RunKeepsPoolSize(Init(size).value, steps);
    RunningAtMostWorkers(Run(Init(size).value, steps).workers);
  }

  /** Jobs queued before `drop` run first: no worker takes a Terminate
      while a job entry sent earlier is still waiting; each such job was
      taken, and taken earlier. */
  lemma JobsTakenBeforeAnyTerminate(s: PoolState, t: nat, k: nat)
    requires Inv(s)
    requires t < |s.received| && s.received[t].entry.Terminate?
    requires k < |s.sent| && s.sent[k].NewJob?
    ensures k < t && s.received[k].entry == s.sent[k]
  {
    assert Fifo(s);
    assert s.sent[t] == (Entries(s.received) + s.queue)[t] == s.received[t].entry;
    assert s.sent[k] == (Entries(s.received) + s.queue)[k];
  }

  /** Once the drop's send loop is over, the queue holds a Terminate for
      every worker still alive: the Terminates `drop` sent, less those
      already taken, each of which stopped a distinct worker. */
  lemma TerminatesCoverLiveWorkers(s: PoolState)
    requires Inv(s) && s.lifecycle.Joining?
    ensures Sum(s.workers, LiveMark) <= Sum(s.queue, TerminateMark)
  {
    if AllStopped(s.workers) {
      SumOfZeros(s.workers, LiveMark);
    } else {
      SumConcat(Entries(s.received), s.queue, TerminateMark);
      SumPairBound(s.workers, TerminatedMark, LiveMark);
    }
  }

  /** Work that remains: queue entries count twice (a job entry becomes a
      running job when taken), then running jobs, live threads, held
      handles, and the iterations of drop's two loops still to come. */
  function PhaseRank(lc: Lifecycle, n: nat): nat
  {
    match lc
    case Open => 4 * n + 1
    case Terminating(k) => if k <= n then 3 * (n - k) + n else n
    case Joining(j) => if j <= n then n - j else 0
  }

  function Weight(w: Worker): nat
  {
    RunningMark(w) + LiveMark(w) + (if w.hasHandle then 1 else 0)
  }

  function Measure(s: PoolState): nat
  {
    2 * |s.queue| + Sum(s.workers, Weight) + PhaseRank(s.lifecycle, |s.workers|)
  }

  /** A worker step lowers that worker's weight, or takes an entry off the
      queue while raising the weight by at most one. */
  lemma WorkerStepDecreasesMeasure(s: PoolState, step: Step)
    requires Enabled(s, step) && (step.Receive? || step.Finish?)
    ensures Measure(Next(s, step)) < Measure(s)
  {
    var r := Next(s, step);
    var i := step.worker;
    assert r.lifecycle == s.lifecycle && |r.workers| == |s.workers|;
    SumUpdate(s.workers, i, r.workers[i], Weight);
  }

  lemma DropStepDecreasesMeasure(s: PoolState, step: Step)
    requires LifecycleInRange(s.lifecycle, |s.workers|)
    requires Enabled(s, step) && (step.SendTerminate? || step.JoinNext?)
    ensures Measure(Next(s, step)) < Measure(s)
  {
    var r := Next(s, step);
    if step.JoinNext? {
      var j := s.lifecycle.next;
      SumUpdate(s.workers, j, r.workers[j], Weight);
    }
  }

  /** Every step other than a submission strictly decreases the measure. */
  lemma StepDecreasesMeasure(s: PoolState, step: Step)
    requires Inv(s) && Enabled(s, step) && !step.Submit?
    ensures Measure(Next(s, step)) < Measure(s)
  {
    if step.Receive? || step.Finish? {
      WorkerStepDecreasesMeasure(s, step);
    } else {
      DropStepDecreasesMeasure(s, step);
    }
  }

  /** Deadlock freedom of shutdown: whenever `drop` has started and not
      finished, some step other than a submission can happen, and it brings
      the measure down. */
  function DropProgress(s: PoolState): (step: Step)
    requires Inv(s) && !s.lifecycle.Open? && !DropFinished(s)
    ensures Enabled(s, step) && !step.Submit?
    ensures Measure(Next(s, step)) < Measure(s)
  {
    if s.lifecycle.Terminating? then
      StepDecreasesMeasure(s, SendTerminate);
      SendTerminate
    else
      var j := s.lifecycle.next;
      var w := s.workers[j];
      if !w.hasHandle || w.phase.Stopped? then
        StepDecreasesMeasure(s, JoinNext);
        JoinNext
      else if w.phase.RunningJob? then
        StepDecreasesMeasure(s, Finish(j, false));
        Finish(j, false)
      else
        TerminatesCoverLiveWorkers(s);
        SumAtLeast(s.workers, j, LiveMark);
        StepDecreasesMeasure(s, Receive(j, Delivered));
        Receive(j, Delivered)
  }

  /** Shutdown terminates under every scheduler: once `drop` has started, no
      run of the system is longer than the measure of its first state. */
  lemma {:induction false} DropRunBounded(s: PoolState, steps: seq<Step>)
    requires Inv(s) && !s.lifecycle.Open? && ValidRun(s, steps)
    ensures |steps| <= Measure(s)
    decreases |steps|
  {
    if |steps| > 0 {
      StepDecreasesMeasure(s, steps[0]);
      NextPreservesInv(s, steps[0]);
      DropRunBounded(Next(s, steps[0]), steps[1..]);
    }
  }

  /** When the join loop is over, every thread has exited and every handle
      has been taken. */
  lemma DropFinishedAllJoined(s: PoolState)
    requires Inv(s) && DropFinished(s)
    ensures forall i :: 0 <= i < |s.workers| ==> !s.workers[i].hasHandle && s.workers[i].phase.Stopped?
  {
  }

  // ---------------------------------------------------------------------
  // The pool object

  /** `Terminate` repeated `k` times. */
  function Terminates(k: nat): (m: seq<Message>)
    ensures |m| == k && forall e :: e in m ==> e == Terminate
  {
    seq(k, _ => Terminate)
  }

  /** Drop's progress after `k` of its `n` Terminate sends. */
  function SendProgress(k: nat, n: nat): Lifecycle
  {
    if k == 0 then Open else if k < n then Terminating(k) else Joining(0)
  }

  /** The pool after the first `k` iterations of drop's send loop, started
      from `s` with no worker step in between: `k` Terminates behind the
      queue and the sent log, or none once every thread has exited. */
  function AfterSends(s: PoolState, k: nat): PoolState
  {
    var added := if ChannelOpen(s.workers) then Terminates(k) else [];
    s.(queue := s.queue + added, sent := s.sent + added, lifecycle := SendProgress(k, |s.workers|))
  }

  /** One more iteration of the send loop is enabled and is exactly the
      next `Next` step. */
  lemma AfterSendsStep(s: PoolState, k: nat)
    requires s.lifecycle.Open? && k < |s.workers|
    ensures Enabled(AfterSends(s, k), SendTerminate)
    ensures Next(AfterSends(s, k), SendTerminate) == AfterSends(s, k + 1)
  {
    assert Terminates(k + 1) == Terminates(k) + [Terminate];
  }

  /** `k` Terminates count `k`. */
  lemma {:induction false} TerminatesCounted(k: nat)
    ensures Sum(Terminates(k), TerminateMark) == k
  {
    if k > 0 {
      TerminatesCounted(k - 1);
      assert Terminates(k)[..k - 1] == Terminates(k - 1);
    }
  }

  /** Terminates appended after a log with no job after a Terminate keep it so. */
  lemma TerminatesAppended(m: seq<Message>, k: nat)
    requires TerminatesLast(m)
    ensures TerminatesLast(m + Terminates(k))
  {
  }

  /** Drop's send loop run from an open pool keeps the invariant: its
      Terminates go behind everything sent, one per attempt, and attempts
      fail only once every thread has exited. */
  lemma AfterSendsInv(s: PoolState, k: nat)
    requires Inv(s) && s.lifecycle.Open? && k <= |s.workers|
    ensures Inv(AfterSends(s, k))
  {
    var r := AfterSends(s, k);
    var added := if ChannelOpen(s.workers) then Terminates(k) else [];
    assert r.workers == s.workers && r.received == s.received;
    assert r.queue == s.queue + added && r.sent == s.sent + added;
    assert Shape(r);
    assert Entries(s.received) + (s.queue + added) == (Entries(s.received) + s.queue) + added;
    assert Fifo(r);
    assert RunningDelivered(r);
    assert TerminatesAccounted(r);
    TerminatesCounted(k);
    SumConcat(s.sent, added, TerminateMark);
    if ChannelOpen(s.workers) {
      TerminatesAppended(s.sent, k);
    } else {
      assert s.sent + added == s.sent;
    }
    assert DropOrder(r);
  }

  /** The workers with the handles of `0 .. j-1` taken. */
  function HandlesTaken(ws: seq<Worker>, j: nat): (r: seq<Worker>)
    ensures |r| == |ws|
    ensures forall i :: 0 <= i < |ws| ==> r[i] == if i < j then ws[i].(hasHandle := false) else ws[i]
  {
    seq(|ws|, i requires 0 <= i < |ws| => if i < j then ws[i].(hasHandle := false) else ws[i])
  }

  /** The pool after drop's join loop has reached worker `j`, started from
      `s` with no worker step in between. */
  function AfterJoins(s: PoolState, j: nat): PoolState
  {
    s.(workers := HandlesTaken(s.workers, j), lifecycle := Joining(j))
  }

  lemma HandlesTakenStep(ws: seq<Worker>, j: nat)
    requires j < |ws|
    ensures HandlesTaken(ws, j)[j := ws[j].(hasHandle := false)] == HandlesTaken(ws, j + 1)
  {
  }

  /** With every thread exited, one more iteration of the join loop is
      enabled and is exactly the next `Next` step. */
  lemma AfterJoinsStep(s: PoolState, j: nat)
    requires s.lifecycle.Joining? && s.lifecycle.next <= j < |s.workers| && AllStopped(s.workers)
    ensures Enabled(AfterJoins(s, j), JoinNext)
    ensures Next(AfterJoins(s, j), JoinNext) == AfterJoins(s, j + 1)
  {
    HandlesTakenStep(s.workers, j);
  }

  /** Drop's join loop over exited threads keeps the invariant. */
  lemma AfterJoinsInv(s: PoolState, j: nat)
    requires Inv(s) && s.lifecycle.Joining? && s.lifecycle.next <= j <= |s.workers| && AllStopped(s.workers)
    ensures Inv(AfterJoins(s, j))
  {
    var r := AfterJoins(s, j);
    assert Shape(r);
    assert Fifo(r);
    assert RunningDelivered(r);
    SumPointwise(s.workers, r.workers, TerminatedMark);
    assert TerminatesAccounted(r);
    assert DropOrder(r);
  }

  class ThreadPool {
    var workers: seq<Worker>
    var queue: seq<Message>
    var lifecycle: Lifecycle
    ghost var sent: seq<Message>
    ghost var received: seq<Delivery>

    ghost function State(): PoolState
      reads this
    {
      PoolState(workers, queue, lifecycle, sent, received)
    }

    ghost predicate Valid()
      reads this
    {
      Inv(State())
    }

    /** `ThreadPool::new`; the precondition is its `assert!(size > 0)`. */
    constructor (size: nat)
      requires size > 0
      ensures Valid()
      ensures State() == Init(size).value
    {
      var ws: seq<Worker> := [];
      var id := 0;
      while id < size
        invariant id <= size
        invariant |ws| == id
        invariant forall k :: 0 <= k < id ==> ws[k] == SpawnWorker(k)
      {
        ws := ws + [SpawnWorker(id)];
        id := id + 1;
      }
      workers, queue, lifecycle := ws, [], Open;
      sent, received := [], [];
      InitSatisfiesInv(size);
      assert ws == Init(size).value.workers;
    }

    /** `execute`: one job entry at the tail of the queue; if the channel
        has closed, the send fails and nothing changes. */
    method Execute(job: JobId) returns (accepted: bool)
      requires Valid() && lifecycle.Open?
      modifies this
      ensures Valid()
      ensures accepted <==> ChannelOpen(old(workers))
      ensures queue == if accepted then old(queue) + [NewJob(job)] else old(queue)
      ensures sent == if accepted then old(sent) + [NewJob(job)] else old(sent)
      ensures workers == old(workers) && lifecycle == old(lifecycle) && received == old(received)
    {
      ghost var s := State();
      accepted := ChannelOpen(workers);
      if accepted {
        queue := queue + [NewJob(job)];
        sent := sent + [NewJob(job)];
      }
      SubmitPreservesInv(s, job);
    }

    /** Worker `i` locks the receiver, receives, and acts on the result:
        a job entry sets it running, a Terminate or a failure stops it. */
    method WorkerReceive(i: nat, outcome: RecvOutcome)
      requires Valid() && Enabled(State(), Receive(i, outcome))
      modifies this
      ensures Valid() && State() == Next(old(State()), Receive(i, outcome))
      ensures |workers| == |old(workers)|
      ensures forall k :: 0 <= k < |workers| && k != i ==> workers[k] == old(workers[k])
      ensures outcome.Delivered? ==>
        && queue == old(queue)[1..]
        && received == old(received) + [Delivery(old(queue)[0], i)]
        && workers[i].phase == (if old(queue)[0].NewJob? then RunningJob(old(queue)[0].job) else Stopped(Terminated))
      ensures !outcome.Delivered? ==> queue == old(queue) && workers[i].phase.Stopped?
      ensures lifecycle == old(lifecycle)
    {
      ghost var s := State();
      if outcome.Delivered? {
        var m := queue[0];
        queue := queue[1..];
        received := received + [Delivery(m, i)];
        workers := workers[i := workers[i].(phase := Dispatch(m))];
      } else {
        var reason := if outcome.LockPoisoned? then LockFailed else RecvFailed;
        workers := workers[i := workers[i].(phase := Stopped(reason))];
      }
      ReceivePreservesInv(s, i, outcome);
    }

    /** Worker `i`'s job returns (back to the loop) or panics (the thread
        unwinds and exits). */
    method WorkerFinish(i: nat, panicked: bool)
      requires Valid() && Enabled(State(), Finish(i, panicked))
      modifies this
      ensures Valid() && State() == Next(old(State()), Finish(i, panicked))
      ensures workers == old(workers)[i := old(workers[i]).(phase := if panicked then Stopped(Panicked) else Waiting)]
      ensures queue == old(queue) && lifecycle == old(lifecycle)
    {
      ghost var s := State();
      var p := if panicked then Stopped(Panicked) else Waiting;
      workers := workers[i := workers[i].(phase := p)];
      FinishPreservesInv(s, i, panicked);
    }

    /** One iteration of drop's first loop: send one Terminate. */
    method SendTerminate() returns (accepted: bool)
      requires Valid() && (lifecycle.Open? || lifecycle.Terminating?)
      modifies this
      ensures Valid() && State() == Next(old(State()), Step.SendTerminate)
      ensures accepted <==> ChannelOpen(old(workers))
      ensures queue == if accepted then old(queue) + [Terminate] else old(queue)
      ensures received == old(received) && workers == old(workers)
      ensures lifecycle == AfterSend(old(lifecycle), |workers|)
    {
      ghost var s := State();
      SendTerminatePreservesInv(s);
      ghost var r := Next(s, Step.SendTerminate);
      accepted := ChannelOpen(workers);
      if accepted {
        queue := queue + [Terminate];
        sent := sent + [Terminate];
      }
      lifecycle := AfterSend(lifecycle, |workers|);
      assert State() == r;
    }

    /** One iteration of drop's second loop: take the next handle and join
        it; a failed join is reported and the loop moves on regardless. */
    method JoinNext() returns (joinFailed: bool)
      requires Valid() && Enabled(State(), Step.JoinNext)
      modifies this
      ensures Valid() && State() == Next(old(State()), Step.JoinNext)
      ensures joinFailed <==> JoinFails(old(workers)[old(lifecycle.next)])
      ensures lifecycle == Joining(old(lifecycle.next) + 1)
      ensures workers == old(workers)[old(lifecycle.next) := old(workers[lifecycle.next]).(hasHandle := false)]
      ensures queue == old(queue) && sent == old(sent) && received == old(received)
    {
      ghost var s := State();
      var j := lifecycle.next;
      var w := workers[j];
      joinFailed := false;
      if w.hasHandle {
        workers := workers[j := w.(hasHandle := false)];
        joinFailed := w.phase == Stopped(Panicked);
      }
      lifecycle := Joining(j + 1);
      JoinNextPreservesInv(s);
    }

    /** Drop's first loop run without interruption: exactly one Terminate
        per worker, after everything already queued.  Each iteration is the
        `SendTerminate` step of the model (`AfterSendsStep`). */
    method SendTerminates()
      requires Valid() && lifecycle.Open?
      modifies this
      ensures Valid() && lifecycle == Joining(0) && workers == old(workers)
      ensures queue == if ChannelOpen(workers) then old(queue) + Terminates(|workers|) else old(queue)
      ensures sent == if ChannelOpen(workers) then old(sent) + Terminates(|workers|) else old(sent)
      ensures received == old(received)
    {
      var n := |workers|;
      ghost var s0 := State();
      var k := 0;
      assert AfterSends(s0, 0) == s0;
      while k < n
        invariant k <= n && State() == AfterSends(s0, k)
      {
        AfterSendsStep(s0, k);
        if ChannelOpen(workers) {
          queue := queue + [Terminate];
          sent := sent + [Terminate];
        }
        lifecycle := AfterSend(lifecycle, n);
        k := k + 1;
      }
      AfterSendsInv(s0, n);
    }

    /** Drop's second loop run straight through, once every thread has
        exited: every handle is taken exactly once and the number of joins
        that failed is reported.  The loop takes the handles in a local
        copy of the workers, stored back when it ends; each iteration is the
        `JoinNext` step of the model (`AfterJoinsStep`). */
    method JoinAll() returns (failures: nat)
      requires Valid() && lifecycle.Joining? && AllStopped(workers)
      modifies this
      ensures Valid() && DropFinished(State()) && queue == old(queue)
      ensures sent == old(sent) && received == old(received)
      ensures |workers| == |old(workers)|
      ensures forall i :: 0 <= i < |workers| ==> !workers[i].hasHandle && workers[i].phase == old(workers[i].phase)
      ensures failures == Sum(old(workers), JoinFailMark)
    {
      ghost var s0 := State();
      var ws := workers;
      var n := |ws|;
      var j := lifecycle.next;
      failures := 0;
      assert HandlesTaken(s0.workers, j) == ws;
      while j < n
        invariant s0.lifecycle.next <= j <= n
        invariant ws == HandlesTaken(s0.workers, j)
        invariant failures + Sum(ws, JoinFailMark) == Sum(s0.workers, JoinFailMark)
        modifies {}
      {
        HandlesTakenStep(s0.workers, j);
        var w := ws[j];
        ghost var before := ws;
        ws := ws[j := w.(hasHandle := false)];
        SumUpdate(before, j, ws[j], JoinFailMark);
        if w.hasHandle && w.phase == Stopped(Panicked) {
          failures := failures + 1;
        }
        j := j + 1;
      }
      workers, lifecycle := ws, Joining(n);
      assert State() == AfterJoins(s0, n);
      AfterJoinsInv(s0, n);
      SumOfZeros(workers, JoinFailMark);
    }
  }
}
