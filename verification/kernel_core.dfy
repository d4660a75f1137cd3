/** Every step keeps the core invariant. */
module KernelCore {
  import opened Seqs
  import opened Constants
  import opened Timers
  import opened Payloads
  import opened KernelModel
  import opened KernelRun
  import opened KernelInv
  import opened KernelSched
  import opened KernelIpc
  import opened KernelOpen

  lemma BootCore()
    ensures CoreInv(BOOT)
  {
  }

  lemma LaterKeeps(s: State)
    requires CoreInv(s)
    ensures CoreInv(Later(s))
  {
    LaterEntries(s);
  }

  lemma LaterEntries(s: State)
    requires EntriesOk(s)
    ensures EntriesOk(Later(s))
  {
    EntriesFrame(s, Later(s));
  }

  lemma ScheduleKeeps(s: State)
    requires CoreInv(s) && Alive(s) && SafeSchedule(s)
    ensures CoreInv(Schedule(s))
  {
    WakeDueKeeps(s);
    RotateKeeps(WakeDue(s));
  }

  /** What the schedule of a preemption finds. */
  lemma PreemptedKeeps(s: State)
    requires CoreInv(s) && Enabled(s, Preempt)
    ensures Alive(Trap(s, OtherCall)) && Alive(Resume(Trap(s, OtherCall)))
    ensures CoreInv(Resume(Trap(s, OtherCall))) && SafeSchedule(Resume(Trap(s, OtherCall)))
  {
    TrapKeeps(s, OtherCall);
    ResumeKeeps(Trap(s, OtherCall));
  }

  lemma PreemptKeeps(s: State)
    requires CoreInv(s) && Enabled(s, Preempt)
    ensures CoreInv(Apply(s, Preempt))
  {
    PreemptedKeeps(s);
    ScheduleKeeps(Resume(Trap(s, OtherCall)));
  }

  lemma TimedCallKeeps(s: State, step: Step)
    requires CoreInv(s) && Enabled(s, step)
    requires step.Tick? || step.Preempt? || step.Sleep? || step.WaitPid? || step.ExitWith? || step.SpawnChild?
    ensures CoreInv(Apply(s, step))
  {
    match step
    case Tick => LaterKeeps(s); ScheduleKeeps(Later(s));
    case Preempt => PreemptKeeps(s);
    case Sleep(cycles) => TrapKeeps(s, OtherCall); SleepKeeps(Trap(s, OtherCall), cycles);
    case WaitPid(pid) => TrapKeeps(s, Wait(pid)); WaitKeeps(Trap(s, Wait(pid)), pid);
    case ExitWith(value) => TrapKeeps(s, OtherCall); ExitKeeps(Trap(s, OtherCall), value);
    case SpawnChild => TrapKeeps(s, OtherCall); SpawnKeeps(Trap(s, OtherCall));
  }

  lemma QueueCallKeeps(s: State, step: Step)
    requires CoreInv(s) && Enabled(s, step)
    requires step.CallStart? || step.TransferStep? || step.WakeStep? || step.MaxStep? || step.SizeStep?
    ensures CoreInv(Apply(s, step))
  {
    match step
    case CallStart(role, fd, msg, size) => CallStartKeeps(s, role, fd, msg, size);
    case TransferStep(grant) => TrapKeeps(s, OtherCall); TransferKeeps(Trap(s, OtherCall), grant);
    case WakeStep => TrapKeeps(s, OtherCall); WakeUpKeeps(Trap(s, OtherCall));
    case MaxStep(fd, newVal) =>
      var q := Self(s).fds[fd].queue;
      AttributesKeep(s, q, s.queues[q].(maxMessages := newVal));
    case SizeStep(fd, newVal) =>
      var q := Self(s).fds[fd].queue;
      AttributesKeep(s, q, s.queues[q].(msgSize := newVal));
  }

  lemma OpenCallKeeps(s: State, step: Step)
    requires CoreInv(s) && Enabled(s, step)
    requires step.OpenStart? || step.OpenFinish? || step.CloseStart? || step.CloseContinue? || step.UnlinkStep?
    ensures CoreInv(Apply(s, step))
  {
    match step
    case OpenStart(q, roles) => TrapKeeps(s, OtherCall); OpenStartKeeps(Trap(s, OtherCall), q, roles);
    case OpenFinish(got) => TrapKeeps(s, OtherCall); OpenFinishKeeps(Trap(s, OtherCall), got);
    case CloseStart(fd) => CloseStartKeeps(s, fd);
    case CloseContinue => CloseStepKeeps(s);
    case UnlinkStep(q) => TrapKeeps(s, OtherCall); UnlinkKeeps(Trap(s, OtherCall), q);
  }

  lemma StepKeepsCore(s: State, step: Step)
    requires CoreInv(s) && Enabled(s, step)
    ensures CoreInv(Apply(s, step))
  {
    if step.Tick? || step.Preempt? || step.Sleep? || step.WaitPid? || step.ExitWith? || step.SpawnChild? {
      TimedCallKeeps(s, step);
    } else if step.CallStart? || step.TransferStep? || step.WakeStep? || step.MaxStep? || step.SizeStep? {
      QueueCallKeeps(s, step);
    } else {
      OpenCallKeeps(s, step);
    }
  }
}
