/** What holds over whole runs of the kernel, and exactly when. */
module KernelTheorems {
  import opened Seqs
  import opened Constants
  import opened Timers
  import opened Payloads
  import opened KernelModel
  import opened KernelRun
  import opened KernelInv
  import opened KernelSched
  import opened KernelIpc
  import opened KernelCore
  import opened KernelFamily
  import opened KernelQueues
  import opened KernelWakeups
  import opened KernelFair
  import opened KernelRegistry
  import opened KernelCounts

  ghost predicate Inv(s: State) {
    CoreInv(s) && Kin(s) && QueuesOk(s) && NoLostWakeup(s, Reader) && Balanced(s)
  }

  lemma BootInv()
    ensures Inv(BOOT)
  {
    BootCore();
  }

  lemma StepKeepsInv(s: State, step: Step)
    requires Inv(s) && Enabled(s, step)
    ensures Inv(Apply(s, step))
  {
    StepKeepsCore(s, step);
    StepKeepsKin(s, step);
    StepKeepsQueues(s, step);
    StepKeepsWakeups(s, step, Reader);
    StepKeepsBalance(s, step);
  }

  /** Every state of every run satisfies the invariant. */
  lemma {:induction false} RunInv(states: seq<State>, steps: seq<Step>, i: nat)
    requires Run(states, steps) && i < |states|
    ensures Inv(states[i])
  {
    if i == 0 {
      BootInv();
    } else {
      RunInv(states, steps, i - 1);
      RunStep(states, steps, i - 1);
      StepKeepsInv(states[i - 1], steps[i - 1]);
    }
  }

  /** The same when there are moments at which nothing happens. */
  lemma {:induction false} MovesInv(states: seq<State>, i: nat)
    requires i < |states| && states[0] == BOOT
    requires forall k :: 0 < k < |states| ==> Moves(states[k - 1], states[k])
    ensures Inv(states[i])
  {
    if i == 0 {
      BootInv();
    } else {
      MovesInv(states, i - 1);
      MoveKeepsInv(states[i - 1], states[i]);
    }
  }

  lemma MoveKeepsInv(s: State, t: State)
    requires Inv(s) && Moves(s, t)
    ensures Inv(t)
  {
    if t != s {
      var step :| Enabled(s, step) && t == Apply(s, step);
      StepKeepsInv(s, step);
    }
  }

  lemma ReachableInv(s: State)
    requires Reachable(s)
    ensures Inv(s)
  {
    var states, steps :| Run(states, steps) && states[|steps|] == s;
    RunInv(states, steps, |steps|);
  }

  // Where processes are, and what they wait for.

  function Places(s: State, p: Pid): nat {
    (if s.running == Some(p) then 1 else 0) + (if p in s.ready then 1 else 0)
    + (if p in s.waiting then 1 else 0) + (if p in s.zombie then 1 else 0)
  }

  /** In every reachable state every process is in exactly one place, except that the
      running process is also in the waiting list when it has just blocked on a queue. */
  lemma OnePlaceEach(states: seq<State>, steps: seq<Step>, i: nat, p: Pid)
    requires Run(states, steps) && i < |states| && p in states[i].procs
    ensures Places(states[i], p) == if JustBlocked(states[i], p) then 2 else 1
  {
    RunInv(states, steps, i);
  }

  predicate JustBlocked(s: State, p: Pid) {
    s.running == Some(p) && OnQueue(s, p)
  }

  /** How many things a process waits for. */
  function Causes(s: State, p: Pid): nat {
    (if p in Pids(s.timers) then 1 else 0) + (if AwaitsChild(s, p) then 1 else 0) + (if OnQueue(s, p) then 1 else 0)
  }

  /** A waiting process waits for exactly one of a timer, a child and a queue, and a queue
      entry is marked waiting exactly for the processes that wait for a queue. */
  lemma OneCauseEach(states: seq<State>, steps: seq<Step>, i: nat)
    requires Run(states, steps) && i < |states|
    ensures var s := states[i];
            && (forall p :: p in s.waiting ==> Causes(s, p) == 1)
            && (forall b :: b in s.users && s.users[b].status != Running ==>
                OnQueue(s, s.users[b].pid) && CallEntry(s, s.users[b].pid) == b)
  {
    RunInv(states, steps, i);
    var s := states[i];
    forall b | b in s.users && s.users[b].status != Running
      ensures OnQueue(s, s.users[b].pid) && CallEntry(s, s.users[b].pid) == b
    {
      assert Blocked(s, b);
      BlockedEntryIsCallEntry(s, b);
    }
    forall p | p in s.waiting ensures Causes(s, p) == 1 {
      if p in Pids(s.timers) { assert Asleep(s, p); }
    }
  }

  // Wake-ups.

  /** A queue that holds a message while a reader waits has a wake-up in flight: a sender
      that has not made its wake-up call yet, or a reader that was woken and has not
      retried; and there are at least as many of them as messages. */
  lemma NoStrandedReader(states: seq<State>, steps: seq<Step>, i: nat, q: Qid)
    requires Run(states, steps) && i < |states| && q in states[i].queues
    requires SomeoneWaits(states[i], q, Reader)
    ensures |states[i].queues[q].messages| <= |Wakers(states[i], q, Reader)| + |Retriers(states[i], q, Reader)|
  {
    RunInv(states, steps, i);
    assert Covered(states[i], q, Reader);
    PendingIsSum(states[i], q, Reader);
  }

  /** The same for writers and free places, on runs in which no change of the limit makes
      more room than there are wake-ups in flight. */
  lemma NoStrandedWriter(states: seq<State>, steps: seq<Step>, i: nat, q: Qid)
    requires Run(states, steps) && i < |states| && q in states[i].queues
    requires RaisesOk(states, steps, i)
    requires SomeoneWaits(states[i], q, Writer)
    ensures states[i].queues[q].maxMessages - |states[i].queues[q].messages| <=
            |Wakers(states[i], q, Writer)| + |Retriers(states[i], q, Writer)|
  {
    WritersCoveredIff(states, steps, i);
    assert Covered(states[i], q, Writer);
    PendingIsSum(states[i], q, Writer);
  }

  /** A change of the limit is refused, or no writer waits, or the new limit leaves no more
      room than there are wake-ups in flight. */
  predicate RaiseOk(s: State, step: Step) {
    step.MaxStep? && Alive(s) && OwnsQueue(s, step.fd) ==>
      var q := Self(s).fds[step.fd].queue;
      || step.newVal > MAX_NUM_MESSAGES_PER_QUEUE
      || !SomeoneWaits(s, q, Writer)
      || step.newVal - |s.queues[q].messages| <= |Pending(s, q, Writer)|
  }

  /** Up to state `i` no wake-up of a writer was lost. */
  ghost predicate NeverStranded(states: seq<State>, i: nat)
    requires i < |states|
  {
    forall j :: 0 <= j <= i ==> NoLostWakeup(states[j], Writer)
  }

  ghost predicate RaisesOk(states: seq<State>, steps: seq<Step>, i: nat)
    requires i <= |steps| && |states| == |steps| + 1
  {
    forall j :: 0 <= j < i ==> RaiseOk(states[j], steps[j])
  }

  /** Over every run: no wake-up of a writer was ever lost exactly when every change of a
      limit was of that kind. */
  lemma {:induction false} WritersCoveredIff(states: seq<State>, steps: seq<Step>, i: nat)
    requires Run(states, steps) && i < |states|
    ensures NeverStranded(states, i) <==> RaisesOk(states, steps, i)
  {
    if i > 0 {
      WritersCoveredIff(states, steps, i - 1);
      CoveredNext(states, steps, i);
      StrandedNext(states, i);
      RaisesNext(states, steps, i);
    } else {
      BootCovered();
    }
  }

  lemma StrandedNext(states: seq<State>, i: nat)
    requires 0 < i < |states|
    ensures NeverStranded(states, i) <==> NeverStranded(states, i - 1) && NoLostWakeup(states[i], Writer)
    ensures NeverStranded(states, i - 1) ==> NoLostWakeup(states[i - 1], Writer)
  {
  }

  lemma RaisesNext(states: seq<State>, steps: seq<Step>, i: nat)
    requires 0 < i <= |steps| && |states| == |steps| + 1
    ensures RaisesOk(states, steps, i) <==> RaisesOk(states, steps, i - 1) && RaiseOk(states[i - 1], steps[i - 1])
  {
  }

  lemma BootCovered()
    ensures NoLostWakeup(BOOT, Writer)
  {
  }

  lemma CoveredNext(states: seq<State>, steps: seq<Step>, i: nat)
    requires Run(states, steps) && 0 < i < |states|
    ensures NoLostWakeup(states[i - 1], Writer) ==>
            (NoLostWakeup(states[i], Writer) <==> RaiseOk(states[i - 1], steps[i - 1]))
  {
    RunInv(states, steps, i - 1);
    RunStep(states, steps, i - 1);
    if NoLostWakeup(states[i - 1], Writer) {
      StepCoversWritersIff(states[i - 1], steps[i - 1]);
    }
  }

  lemma StepCoversWritersIff(s: State, step: Step)
    requires Inv(s) && NoLostWakeup(s, Writer) && Enabled(s, step)
    ensures NoLostWakeup(Apply(s, step), Writer) <==> RaiseOk(s, step)
  {
    if step.MaxStep? {
      RaisingTheLimit(s, step.fd, step.newVal);
    } else {
      StepKeepsWakeups(s, step, Writer);
    }
  }

  lemma RaisingTheLimit(s: State, fd: Fd, newVal: int)
    requires NoLostWakeup(s, Writer) && Enabled(s, MaxStep(fd, newVal))
    ensures NoLostWakeup(Apply(s, MaxStep(fd, newVal)), Writer) <==> RaiseOk(s, MaxStep(fd, newVal))
  {
    var q := Self(s).fds[fd].queue;
    var t := Apply(s, MaxStep(fd, newVal));
    forall r | r in s.queues
      ensures r in t.queues && Pending(t, r, Writer) == Pending(s, r, Writer)
      ensures SomeoneWaits(t, r, Writer) <==> SomeoneWaits(s, r, Writer)
    {
      LimitEffect(s, q, newVal, r);
    }
    assert Covered(s, q, Writer);
    assert RaiseOk(s, MaxStep(fd, newVal)) <==> Covered(t, q, Writer);
    forall r | r in t.queues && r != q ensures Covered(t, r, Writer) { assert Covered(s, r, Writer); }
  }

  lemma LimitEffect(s: State, q: Qid, newVal: int, r: Qid)
    requires q in s.queues && r in s.queues
    ensures var t := SetMax(s, q, newVal).0;
            && r in t.queues
            && (SomeoneWaits(t, r, Writer) <==> SomeoneWaits(s, r, Writer))
            && Pending(t, r, Writer) == Pending(s, r, Writer)
  {
    var t := SetMax(s, q, newVal).0;
    assert Users(t.queues[r], Writer) == Users(s.queues[r], Writer);
  }

  /** A wake-up in flight belongs to a process that runs or is ready. */
  lemma PendingCanRun(s: State, q: Qid, role: Role, p: Pid)
    requires CoreInv(s) && p in Pending(s, q, role)
    ensures s.running == Some(p) || p in s.ready
  {
    if p in s.waiting { WaitsOutside(s, p); }
  }

  /** Who waits for a timer or a child is not inside a call. */
  lemma WaitsOutside(s: State, p: Pid)
    requires TimersOk(s) && CausesOk(s) && p in s.waiting
    ensures OnQueue(s, p) || (p in s.procs && s.procs[p].pc.User?)
  {
    assert p in Pids(s.timers) ==> Asleep(s, p);
  }

  /** A wake-up in flight is on the processor within a bounded number of scheduling steps. */
  predicate ComesSoon(states: seq<State>, steps: seq<Step>, i: nat, p: Pid)
    requires i < |states| && i <= |steps|
  {
    || states[i].running == Some(p)
    || (p in states[i].ready
        && (Schedules(steps[i..]) > Ahead(states[i].ready, p) + |states[i].timers| ==>
              exists j :: i < j < |states| && states[j].running == Some(p)))
  }

  lemma InFlightComesSoon(states: seq<State>, steps: seq<Step>, i: nat, q: Qid, role: Role, p: Pid)
    requires Run(states, steps) && i < |states| && p in Pending(states[i], q, role)
    ensures ComesSoon(states, steps, i, p)
  {
    RunInv(states, steps, i);
    PendingCanRun(states[i], q, role, p);
    if p in states[i].ready && Schedules(steps[i..]) > Ahead(states[i].ready, p) + |states[i].timers| {
      ReadyProcessRuns(states, steps, i, p);
    }
  }

  /** Whenever a reader waits on a queue that holds a message, some process is on its way to
      take a message or to wake a reader, and it runs within a bounded number of scheduling
      steps. */
  lemma ReaderIsServed(states: seq<State>, steps: seq<Step>, i: nat, q: Qid) returns (p: Pid)
    requires Run(states, steps) && i < |states| && q in states[i].queues
    requires SomeoneWaits(states[i], q, Reader) && states[i].queues[q].messages != []
    ensures p in Pending(states[i], q, Reader) && ComesSoon(states, steps, i, p)
  {
    RunInv(states, steps, i);
    assert Covered(states[i], q, Reader);
    p :| p in Pending(states[i], q, Reader);
    InFlightComesSoon(states, steps, i, q, Reader, p);
  }

  /** The same for a writer that waits beside a free place. */
  lemma WriterIsServed(states: seq<State>, steps: seq<Step>, i: nat, q: Qid) returns (p: Pid)
    requires Run(states, steps) && i < |states| && q in states[i].queues
    requires RaisesOk(states, steps, i)
    requires SomeoneWaits(states[i], q, Writer) && |states[i].queues[q].messages| < states[i].queues[q].maxMessages
    ensures p in Pending(states[i], q, Writer) && ComesSoon(states, steps, i, p)
  {
    WritersCoveredIff(states, steps, i);
    assert Covered(states[i], q, Writer);
    p :| p in Pending(states[i], q, Writer);
    InFlightComesSoon(states, steps, i, q, Writer, p);
  }

  // Waiting for the processor, for a time, for a child.

  /** From any point of any run, a ready process runs within (processes ahead of it) +
      (pending timers) + 1 scheduling steps. */
  lemma ReadyProcessRuns(states: seq<State>, steps: seq<Step>, i: nat, p: Pid)
    requires Run(states, steps) && i < |states| && p in states[i].ready
    requires Schedules(steps[i..]) > Ahead(states[i].ready, p) + |states[i].timers|
    ensures exists j :: i < j < |states| && states[j].running == Some(p)
  {
    RunInv(states, steps, i);
    PathDrop(states, steps, i);
    RunsWithinDistance(states[i..], steps[i..], p);
    RunsInTail(states, i, p);
  }

  /** A scheduling step wakes exactly the sleepers whose time has come, in timer order and
      ahead of the old ready list. */
  lemma ScheduleWakesExactly(s: State)
    requires TimersOk(s)
    ensures var w := WakeDue(s);
            && (forall t :: t in w.timers <==> t in s.timers && t.at > s.time)
            && w.ready == Due(s.timers, s.time) + s.ready
            && (forall p :: p in Due(s.timers, s.time) <==> Overdue(s.timers, s.time, p))
            && (forall p :: p in Due(s.timers, s.time) ==> p in s.waiting && p !in w.waiting)
  {
    DueIsExact(s.timers, s.time);
    forall p ensures p in Due(s.timers, s.time) <==> Overdue(s.timers, s.time, p) {
      DueIffOverdue(s.timers, s.time, p);
    }
    WokenWereAsleep(s);
  }

  lemma WokenWereAsleep(s: State)
    requires TimersOk(s)
    ensures forall p :: p in Due(s.timers, s.time) ==> p in s.waiting && p !in WakeDue(s).waiting
  {
    DueAreAsleep(s);
  }

  /** Every exit value is reported at most once, unchanged, and nobody who is gone is
      still owed to a parent. */
  lemma ReportedOnce(states: seq<State>, steps: seq<Step>, i: nat)
    requires Run(states, steps) && i < |states|
    ensures var s := states[i];
            && (forall a, b :: 0 <= a < b < |s.reports| ==> s.reports[a].child != s.reports[b].child)
            && (forall a :: 0 <= a < |s.reports| ==>
                s.reports[a].child in s.exits && s.reports[a].value == s.exits[s.reports[a].child])
            && (forall p :: p in s.exits ==> (p in s.zombie <==> !Reported(s, p)))
  {
    RunInv(states, steps, i);
    var s := states[i];
    forall p | p in s.exits && p in s.zombie ensures !Reported(s, p) {
      assert p in s.procs;
      forall a | 0 <= a < |s.reports| ensures s.reports[a].child != p { assert s.reports[a].child !in s.procs; }
    }
  }

  /** No reachable state has a process parked in wait beside a zombie child it waits for. */
  lemma NoMissedChild(states: seq<State>, steps: seq<Step>, i: nat, p: Pid, c: Pid)
    requires Run(states, steps) && i < |states| && AwaitsChild(states[i], p)
    requires c in states[i].procs[p].children && c in states[i].procs && states[i].procs[c].status == Zombie
    ensures states[i].procs[p].call.pid != 0 && states[i].procs[p].call.pid != c
  {
    RunInv(states, steps, i);
    assert StillWaiting(states[i], p);
    assert StatusOf(states[i], c) == Some(Zombie);
  }

  // Messages.

  /** On every queue, what was delivered followed by what is queued is what was sent; it
      never holds more than 128 messages, all of the current message size. */
  lemma FifoExactlyOnce(states: seq<State>, steps: seq<Step>, i: nat, q: Qid)
    requires Run(states, steps) && i < |states| && q in states[i].queues
    ensures var queue := states[i].queues[q];
            && queue.delivered + Contents(queue.messages) == queue.sent
            && queue.delivered <= queue.sent
            && |queue.messages| <= 128
            && (forall m :: 0 <= m < |queue.messages| ==> queue.messages[m].len == queue.msgSize)
  {
    RunInv(states, steps, i);
    assert QueueOk(states[i].queues[q]);
  }

  // Resources.

  /** In no reachable state does sleep fail for want of a timer: there are never more than
      1024 processes, and fewer sleepers than processes. */
  lemma TimerPoolSuffices(states: seq<State>, steps: seq<Step>, i: nat)
    requires Run(states, steps) && i < |states| && Alive(states[i]) && Self(states[i]).pc.User?
    ensures |states[i].procs| <= MAX_NUM_PROCESSES && |states[i].timers| < MAX_NUM_PROCESSES
  {
    RunInv(states, steps, i);
    SleepersAreFew(states[i]);
  }

  lemma SleepersAreFew(s: State)
    requires Inv(s) && Alive(s) && Self(s).pc.User?
    ensures |s.procs| <= MAX_NUM_PROCESSES && |s.timers| < MAX_NUM_PROCESSES
  {
    UserIsUnparked(s);
    forall p | p in Pids(s.timers) ensures p in s.procs.Keys - {s.running.value} { assert Asleep(s, p); }
    NoDupBound(Pids(s.timers), s.procs.Keys - {s.running.value});
    assert |s.procs.Keys| == |s.procs|;
  }

  /** Over every run, what exit has left behind is one entry for each exit that found its parent
      waiting. */
  lemma {:induction false} LeftIsHandOvers(states: seq<State>, steps: seq<Step>, i: nat)
    requires Run(states, steps) && i < |states|
    ensures LeftBehind(states[i].reports) == HandOvers(states, steps, i)
  {
    if i > 0 {
      LeftIsHandOvers(states, steps, i - 1);
      LeftNext(states, steps, i - 1);
    }
  }

  lemma LeftNext(states: seq<State>, steps: seq<Step>, k: nat)
    requires Run(states, steps) && k < |steps|
    ensures LeftBehind(states[k + 1].reports) ==
              LeftBehind(states[k].reports) + if IsHandOver(states[k], steps[k]) then 1 else 0
  {
    RunInv(states, steps, k);
    RunStep(states, steps, k);
    StepLeaves(states[k], steps[k]);
  }

  /** In every reachable state the blocks for entries of children that are out are the entries
      of the live processes other than init, and one for each exit that found its parent
      waiting. */
  lemma PointersAccounted(states: seq<State>, steps: seq<Step>, i: nat)
    requires Run(states, steps) && i < |states|
    ensures PointersOut(states[i]) == |states[i].procs| - 1 + HandOvers(states, steps, i)
  {
    RunInv(states, steps, i);
    LeftIsHandOvers(states, steps, i);
  }

  /** After 1024 such exits no later state of the run can spawn. */
  lemma LeakEndsSpawning(states: seq<State>, steps: seq<Step>, i: nat, j: nat)
    requires Run(states, steps) && i <= j < |states|
    requires HandOvers(states, steps, i) >= MAX_NUM_PROCESSES
    ensures !Enabled(states[j], SpawnChild)
  {
    HandOversGrow(states, steps, i, j);
    LeftIsHandOvers(states, steps, j);
    RunInv(states, steps, j);
    NoPointerLeft(states[j]);
  }

  /** On runs in which processes close their queues before they exit, the QueueUser blocks
      that are out are exactly the entries in the lists of the live queues, and each is
      named by the descriptor slot it was allocated for. */
  lemma {:induction false} RegistryOnTidyRuns(states: seq<State>, steps: seq<Step>, i: nat)
    requires Run(states, steps) && i < |states|
    requires forall j :: 0 <= j < i ==> Enabled(states[j], steps[j]) && Tidy(states[j], steps[j])
    ensures RegistryExact(states[i])
    ensures forall b :: b in states[i].users <==>
            exists q, role :: q in states[i].queues && b in Users(states[i].queues[q], role)
  {
    if i > 0 {
      RegistryOnTidyRuns(states, steps, i - 1);
      RunInv(states, steps, i - 1);
      RunStep(states, steps, i - 1);
      StepKeepsRegistry(states[i - 1], steps[i - 1]);
    }
    RunInv(states, steps, i);
    OutstandingBlocks(states[i]);
  }

  // Exactly when the link guard is enough.

  /** Rescheduling keeps every process in one place exactly when `SafeSchedule` holds: a
      process that has just blocked must not be the only one left in the waiting list
      while another process is ready. */
  lemma ScheduleSafeIff(s: State)
    requires CoreInv(s) && Alive(s)
    ensures Placed(Schedule(s)) <==> SafeSchedule(s)
  {
    if SafeSchedule(s) {
      ScheduleKeeps(s);
    } else {
      WakeDueKeeps(s);
      var w, r := WakeDue(s), s.running.value;
      var t := Schedule(s);
      var popped := w.(ready := w.ready[1..]);
      HeadFacts(w.ready);
      assert r !in popped.ready && r !in w.zombie;
      assert !Linked(popped, r);
      assert r in t.ready && r in t.waiting;
    }
  }

  /** Blocking once more is harmless exactly when the process is not alone in the list. */
  lemma BlockSafeIff(s: State, ret: int)
    requires CoreInv(s) && Alive(s) && InCall(s, s.running.value)
    ensures Placed(BlockOn(s, ret)) <==> SafeBlock(s)
  {
    if SafeBlock(s) {
      BlockPlaced(s, ret);
    } else {
      var t, r := BlockOn(s, ret), s.running.value;
      assert !Linked(s, r);
      assert t.waiting == s.waiting + [r];
      var k :| 0 <= k < |s.waiting| && s.waiting[k] == r;
      assert t.waiting[k] == t.waiting[|s.waiting|];
    }
  }

  /** A parked process that is neither running nor asleep makes both safe. */
  lemma SteadyWaiterSuffices(s: State, w: Pid)
    requires CoreInv(s) && Alive(s)
    requires w in s.waiting && w != s.running.value && w !in Pids(s.timers)
    ensures SafeSchedule(s) && SafeBlock(s)
  {
    var r := s.running.value;
    DueAreAsleep(s);
    var t := WakeDue(s);
    assert w in t.waiting;
    if r in t.waiting { TwoMembers(t.waiting, r, w); }
    if r in s.waiting { TwoMembers(s.waiting, r, w); }
  }

  lemma TwoMembers(xs: seq<Pid>, a: Pid, b: Pid)
    requires a in xs && b in xs && a != b
    ensures |xs| >= 2
  {
    var i :| 0 <= i < |xs| && xs[i] == a;
    var j :| 0 <= j < |xs| && xs[j] == b;
  }
}
