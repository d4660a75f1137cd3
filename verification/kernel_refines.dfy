/** The kernel on the heap takes the steps of the state machine: whenever a step is enabled
    in a state of the invariant, the heap can take it, and it ends up where the step does. For
    the steps that move processes or timers, up to `WakeOpposite`, linked lists refine sequences;
    the steps from `StartOpen` on change only what both sides represent in the same way. */
module KernelRefines {
  import opened Seqs
  import opened Constants
  import opened LinkedList
  import opened Timers
  import opened Payloads
  import opened KernelModel
  import opened KernelRun
  import opened KernelInv
  import opened KernelSched
  import opened KernelIpc
  import opened KernelCore
  import opened KernelQueues
  import opened KernelSizes
  import opened KernelTheorems
  import opened KernelHeap

  /** A running process that is not parked is in no list. */
  lemma RunnerIsFree(k: Kernel)
    requires k.Valid() && Placed(k.Abs()) && CausesOk(k.Abs()) && Alive(k.Abs())
    requires Self(k.Abs()).pc.Calling? ==> Self(k.Abs()).pc.phase == First || Self(k.Abs()).pc.phase == Wake
    ensures k.lists.Nowhere(k.running.value) && k.Guarded(k.running.value)
  {
    UserIsUnparked(k.Abs());
  }

  /** disastrOS_syscall: the call is noted in the caller's control block. */
  method Enter(k: Kernel, call: Call)
    requires k.Valid() && Alive(k.Abs())
    modifies k`procs
    ensures k.Valid() && k.Abs() == Trap(old(k.Abs()), call)
  {
    k.WriteSelf(k.procs[k.running.value].(call := call));
  }

  /** The timer interrupt. */
  method Tick(k: Kernel)
    requires k.Valid() && CoreInv(k.Abs()) && Enabled(k.Abs(), Step.Tick)
    modifies k`time, k`running, k`procs, k.lists`home, k.lists.ready, k.lists.waiting, k.lists.items.Values
    modifies k.timers.head, k.timers.head.Nodes()
    ensures k.Valid() && k.Abs() == Apply(old(k.Abs()), Step.Tick)
  {
    LaterKeeps(k.Abs());
    k.Later();
    k.Reschedule();
  }

  method Sleep(k: Kernel, cycles: int)
    requires k.Valid() && CoreInv(k.Abs()) && Enabled(k.Abs(), Step.Sleep(cycles))
    modifies k`running, k`procs, k.lists`home, k.lists.ready, k.lists.waiting, k.lists.items.Values
    modifies k.timers, k.timers.head, k.timers.head.Nodes()
    ensures k.Valid() && k.Abs() == Apply(old(k.Abs()), Step.Sleep(cycles))
  {
    RunnerIsFree(k);
    Enter(k, OtherCall);
    k.Sleep(cycles);
  }

  method WaitPid(k: Kernel, pid: int)
    requires k.Valid() && CoreInv(k.Abs()) && Enabled(k.Abs(), Step.WaitPid(pid))
    modifies k`running, k`procs, k`reports, k`orphans
    modifies k.lists`home, k.lists`items, k.lists.ready, k.lists.waiting, k.lists.zombie, k.lists.items.Values
    ensures k.Valid() && k.Abs() == Apply(old(k.Abs()), Step.WaitPid(pid))
  {
    RunnerIsFree(k);
    TrapKeeps(k.Abs(), Wait(pid));
    EnterAndWait(k, pid);
  }

  method EnterAndWait(k: Kernel, pid: int)
    requires k.Valid() && Alive(k.Abs()) && k.Guarded(k.running.value) && StatusOk(Trap(k.Abs(), Wait(pid)))
    requires Self(k.Abs()).status != Zombie
    modifies k`running, k`procs, k`reports, k`orphans
    modifies k.lists`home, k.lists`items, k.lists.ready, k.lists.waiting, k.lists.zombie, k.lists.items.Values
    ensures k.Valid() && k.Abs() == WaitFor(Trap(old(k.Abs()), Wait(pid)), pid)
  {
    Enter(k, Wait(pid));
    k.WaitChild(pid);
  }

  /** The call of disastrOS_preempt, up to the schedule. */
  method EnterAndGoOn(k: Kernel)
    requires k.Valid() && Alive(k.Abs())
    modifies k`procs
    ensures k.Valid() && k.Abs() == Resume(Trap(old(k.Abs()), OtherCall))
  {
    Enter(k, OtherCall);
    k.GoOn();
  }

  /** What the schedule of a preemption finds. */
  lemma PreemptedFacts(s: State)
    requires CoreInv(s) && Enabled(s, Step.Preempt)
    ensures Alive(Trap(s, OtherCall))
    ensures Schedulable(Resume(Trap(s, OtherCall)))
  {
    TrapKeeps(s, OtherCall);
    ResumeKeeps(Trap(s, OtherCall));
  }

  /** disastrOS_preempt, from user code or from the retry loop of a blocked call. */
  method Preempt(k: Kernel)
    requires k.Valid() && CoreInv(k.Abs()) && Enabled(k.Abs(), Step.Preempt)
    modifies k`running, k`procs, k.lists`home, k.lists.ready, k.lists.waiting, k.lists.items.Values
    modifies k.timers.head, k.timers.head.Nodes()
    ensures k.Valid() && k.Abs() == Apply(old(k.Abs()), Step.Preempt)
  {
    PreemptedFacts(k.Abs());
    GoOnAndReschedule(k);
  }

  method GoOnAndReschedule(k: Kernel)
    requires k.Valid() && Alive(k.Abs()) && Schedulable(Resume(Trap(k.Abs(), OtherCall)))
    modifies k`running, k`procs, k.lists`home, k.lists.ready, k.lists.waiting, k.lists.items.Values
    modifies k.timers.head, k.timers.head.Nodes()
    ensures k.Valid() && k.Abs() == Schedule(Resume(Trap(old(k.Abs()), OtherCall)))
  {
    EnterAndGoOn(k);
    k.Reschedule();
  }

  predicate Schedulable(t: State) {
    Alive(t) && Placed(t) && TimersOk(t) && SafeSchedule(t)
  }

  method ExitWith(k: Kernel, value: int)
    requires k.Valid() && CoreInv(k.Abs()) && Enabled(k.Abs(), Step.ExitWith(value))
    modifies k`running, k`procs, k`queues, k`reports, k`orphans, k`exits
    modifies k.lists`home, k.lists`items, k.lists.ready, k.lists.waiting, k.lists.zombie, k.lists.items.Values
    modifies k.timers.head, k.timers.head.Nodes()
    ensures k.Valid() && k.Abs() == Apply(old(k.Abs()), Step.ExitWith(value))
  {
    RunnerIsFree(k);
    TrapKeeps(k.Abs(), OtherCall);
    EnterAndExit(k, value);
  }

  method EnterAndExit(k: Kernel, value: int)
    requires k.Valid() && Alive(k.Abs()) && k.lists.Nowhere(k.running.value) && StatusOk(Trap(k.Abs(), OtherCall))
    requires Self(k.Abs()).parent.Some? && Self(k.Abs()).children == []
    modifies k`running, k`procs, k`queues, k`reports, k`orphans, k`exits
    modifies k.lists`home, k.lists`items, k.lists.ready, k.lists.waiting, k.lists.zombie, k.lists.items.Values
    modifies k.timers.head, k.timers.head.Nodes()
    ensures k.Valid() && k.Abs() == Exit(Trap(old(k.Abs()), OtherCall), value)
  {
    Enter(k, OtherCall);
    k.ExitProcess(value);
  }

  method SpawnChild(k: Kernel)
    requires k.Valid() && CoreInv(k.Abs()) && Enabled(k.Abs(), Step.SpawnChild)
    modifies k`procs, k`lastPid, k.lists`home, k.lists`items, k.lists.ready, k.lists.items.Values
    ensures k.Valid() && k.Abs() == Apply(old(k.Abs()), Step.SpawnChild)
  {
    PidIsFresh(k.Abs());
    Enter(k, OtherCall);
    k.SpawnProcess();
  }

  lemma PidIsFresh(s: State)
    requires Placed(s)
    ensures s.lastPid !in s.procs
  {
  }

  /** A blocked process that tries again is not alone in the waiting list. */
  lemma CallerIsGuarded(k: Kernel)
    requires k.Valid() && Placed(k.Abs()) && Alive(k.Abs()) && SafeBlock(k.Abs())
    ensures k.Guarded(k.running.value)
  {
  }

  /** What a transfer needs from the queue. */
  lemma TransferFacts(s: State)
    requires CoreInv(s) && QueuesOk(s) && Alive(s) && InCall(s, s.running.value)
    ensures var q := s.queues[CallQueue(s, s.running.value)];
            && q.msgSize <= MAX_MESSAGE_SIZE
            && (q.messages != [] ==>
                q.messages[0].len <= |q.messages[0].block| && q.messages[0].len <= MAX_MESSAGE_SIZE)
    ensures Self(s).pc.role == Writer ==> |Self(s).pc.msg| == MAX_MESSAGE_SIZE
    ensures Self(s).pc.role == Reader ==> Self(s).pc.msg == []
  {
    assert QueueOk(s.queues[CallQueue(s, s.running.value)]);
    assert PcOk(s, s.running.value);
  }

  method EnterAndSend(k: Kernel, grant: Grant)
    requires k.Valid() && Alive(k.Abs()) && InCall(k.Abs(), k.running.value) && k.Guarded(k.running.value)
    requires Self(k.Abs()).pc.role == Writer && |Self(k.Abs()).pc.msg| == MAX_MESSAGE_SIZE && UsableGrant(grant)
    requires k.queues[CallQueue(k.Abs(), k.running.value)].msgSize <= MAX_MESSAGE_SIZE
    modifies k`procs, k`users, k`queues, k.lists`home, k.lists.waiting, k.lists.items.Values
    ensures k.Valid() && InCall(Trap(old(k.Abs()), OtherCall), old(k.running.value))
    ensures |Payload(old(Self(k.Abs())).pc.msg,
            old(k.queues)[CallQueue(old(k.Abs()), old(k.running.value))].msgSize)| <= MAX_MESSAGE_SIZE
    ensures k.Abs() == Transfer(Trap(old(k.Abs()), OtherCall), grant)
  {
    Enter(k, OtherCall);
    k.Send(grant);
  }

  method SendMessage(k: Kernel, grant: Grant)
    requires k.Valid() && CoreInv(k.Abs()) && QueuesOk(k.Abs()) && Enabled(k.Abs(), TransferStep(grant))
    requires Self(k.Abs()).pc.role == Writer
    modifies k`procs, k`users, k`queues, k.lists`home, k.lists.waiting, k.lists.items.Values
    ensures k.Valid() && k.Abs() == Apply(old(k.Abs()), TransferStep(grant))
  {
    CallerIsGuarded(k);
    TransferFacts(k.Abs());
    EnterAndSend(k, grant);
  }

  /** A receive does not ask for a block. */
  lemma ReaderNeedsNoGrant(s: State, grant: Grant)
    requires Alive(s) && InCall(s, s.running.value) && Self(s).pc.role == Reader && UsableGrant(grant)
    requires |Payload(Self(s).pc.msg, s.queues[CallQueue(s, s.running.value)].msgSize)| <= MAX_MESSAGE_SIZE
    ensures Transfer(s, grant) == Transfer(s, None)
  {
  }

  /** The buffer is as large as its owner said, and that was enough so far; or it holds any
      message. */
  predicate Suffices(s: State, length: int) {
    Alive(s) && (length >= MAX_MESSAGE_SIZE || (Self(s).pc.Calling? && length >= Self(s).pc.size && AllFit(s)))
  }

  /** What the copy of a receive needs. */
  lemma BufferFacts(s: State, length: int)
    requires CoreInv(s) && QueuesOk(s) && Suffices(s, length) && InCall(s, s.running.value) && Reading(Self(s))
    ensures Self(s).pc.msg == []
    ensures var q := s.queues[CallQueue(s, s.running.value)];
            q.messages != [] ==> q.messages[0].len <= |q.messages[0].block| && q.messages[0].len <= length
  {
    TransferFacts(s);
    if AllFit(s) { CopyFits(s); }
  }

  method EnterAndReceive(k: Kernel, buffer: array<Byte>)
    requires k.Valid() && Alive(k.Abs()) && InCall(k.Abs(), k.running.value) && k.Guarded(k.running.value)
    requires Self(k.Abs()).pc.role == Reader && Self(k.Abs()).pc.msg == []
    requires var q := k.queues[CallQueue(k.Abs(), k.running.value)];
             q.messages != [] ==> q.messages[0].len <= |q.messages[0].block| && q.messages[0].len <= buffer.Length
    modifies k`procs, k`users, k`queues, k.lists`home, k.lists.waiting, k.lists.items.Values, buffer
    ensures k.Valid() && InCall(Trap(old(k.Abs()), OtherCall), old(k.running.value))
    ensures k.Abs() == Transfer(Trap(old(k.Abs()), OtherCall), None)
  {
    Enter(k, OtherCall);
    k.Receive(buffer);
  }

  method ReceiveMessage(k: Kernel, buffer: array<Byte>, ghost grant: Grant)
    requires k.Valid() && CoreInv(k.Abs()) && QueuesOk(k.Abs()) && Enabled(k.Abs(), TransferStep(grant))
    requires Self(k.Abs()).pc.role == Reader && Suffices(k.Abs(), buffer.Length)
    modifies k`procs, k`users, k`queues, k.lists`home, k.lists.waiting, k.lists.items.Values, buffer
    ensures k.Valid() && k.Abs() == Apply(old(k.Abs()), TransferStep(grant))
  {
    CallerIsGuarded(k);
    BufferFacts(k.Abs(), buffer.Length);
    ReaderNeedsNoGrant(Trap(k.Abs(), OtherCall), grant);
    EnterAndReceive(k, buffer);
  }

  method WakeOpposite(k: Kernel)
    requires k.Valid() && CoreInv(k.Abs()) && Enabled(k.Abs(), WakeStep)
    modifies k`procs, k`users, k.lists`home, k.lists.ready, k.lists.waiting, k.lists.items.Values
    ensures k.Valid() && k.Abs() == Apply(old(k.Abs()), WakeStep)
  {
    Enter(k, OtherCall);
    k.WakeUp();
  }

  /** The first half of dmq_open. */
  method StartOpen(k: Kernel, q: Qid, roles: set<Role>)
    requires k.Valid() && Enabled(k.Abs(), OpenStart(q, roles))
    modifies k`procs
    ensures k.Valid() && k.Abs() == Apply(old(k.Abs()), OpenStart(q, roles))
  {
    Enter(k, OtherCall);
    k.AddDescriptor(q, roles);
  }

  /** The second half, with the blocks that the pool grants. */
  method FinishOpen(k: Kernel, got: map<Role, Block>)
    requires k.Valid() && Enabled(k.Abs(), OpenFinish(got))
    modifies k`procs, k`users, k`queues
    ensures k.Valid() && k.Abs() == Apply(old(k.Abs()), OpenFinish(got))
  {
    Enter(k, OtherCall);
    k.OpenQueueCall(got);
  }

  method StartClose(k: Kernel, fd: Fd)
    requires k.Valid() && Enabled(k.Abs(), CloseStart(fd))
    modifies k`procs
    ensures k.Valid() && k.Abs() == Apply(old(k.Abs()), CloseStart(fd))
  {
    k.MoveTo(Closing(fd, 0));
  }

  method ContinueClose(k: Kernel)
    requires k.Valid() && Enabled(k.Abs(), CloseContinue)
    modifies k`procs, k`users, k`queues
    ensures k.Valid() && k.Abs() == Apply(old(k.Abs()), CloseContinue)
  {
    k.CloseNext();
  }

  /** The checks at the start of a send or receive, and the step into the call. */
  method StartCall(k: Kernel, role: Role, fd: Fd, msg: Bytes, size: int)
    requires k.Valid() && Enabled(k.Abs(), CallStart(role, fd, msg, size))
    modifies k`procs
    ensures k.Valid() && k.Abs() == Apply(old(k.Abs()), CallStart(role, fd, msg, size))
  {
    var code := k.Admit(role, fd, size);
    if code == 0 {
      k.MoveTo(Calling(role, fd, First, msg, size));
    }
  }

  method ChangeMax(k: Kernel, fd: Fd, newVal: int) returns (ret: int)
    requires k.Valid() && Enabled(k.Abs(), MaxStep(fd, newVal))
    modifies k`queues
    ensures k.Valid() && k.Abs() == Apply(old(k.Abs()), MaxStep(fd, newVal))
  {
    ret := k.SetMaxMessages(k.procs[k.running.value].fds[fd].queue, newVal);
  }

  method ChangeSize(k: Kernel, fd: Fd, newVal: int) returns (ret: int)
    requires k.Valid() && Enabled(k.Abs(), SizeStep(fd, newVal))
    modifies k`queues
    ensures k.Valid() && k.Abs() == Apply(old(k.Abs()), SizeStep(fd, newVal))
  {
    ret := k.SetMessageSize(k.procs[k.running.value].fds[fd].queue, newVal);
  }

  method DestroyQueue(k: Kernel, q: Qid)
    requires k.Valid() && Enabled(k.Abs(), UnlinkStep(q))
    modifies k`procs, k`users, k`queues, k`unlinked
    ensures k.Valid() && k.Abs() == Apply(old(k.Abs()), UnlinkStep(q))
  {
    Enter(k, OtherCall);
    k.UnlinkQueue(q);
  }
}
