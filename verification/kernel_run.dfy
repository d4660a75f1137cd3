/** Runs of the kernel: which step can follow in which state. */
module KernelRun {
  import opened Seqs
  import opened Constants
  import opened Timers
  import opened Payloads
  import opened KernelModel

  datatype Step =
    | Tick
    | Preempt
    | Sleep(cycles: int)
    | WaitPid(pid: int)
    | ExitWith(value: int)
    | SpawnChild
    | OpenStart(queue: Qid, roles: set<Role>)
    | OpenFinish(got: map<Role, Block>)
    | CloseStart(fd: Fd)
    | CloseContinue
    | CallStart(role: Role, fd: Fd, msg: Bytes, size: int)
    | TransferStep(grant: Grant)
    | WakeStep
    | MaxStep(fd: Fd, newVal: int)
    | SizeStep(fd: Fd, newVal: int)
    | UnlinkStep(queue: Qid)

  /** disastrOS_syscall notes the call in the caller's control block. */
  function Trap(s: State, call: Call): State
    requires Alive(s)
  {
    SetSelf(s, Self(s).(call := call))
  }

  function Later(s: State): State {
    s.(time := s.time + 1)
  }

  /** Back from the preemption that follows a call without a transfer. */
  function Resume(s: State): State
    requires Alive(s)
  {
    if Self(s).pc.Calling? then SetPhase(s, Again) else s
  }

  /** The resource of a queue is listed: the queue is there, or it is about to be opened. */
  predicate Known(s: State, q: Qid) {
    q in s.queues || Referenced(s, q)
  }

  predicate OwnsQueue(s: State, fd: Fd)
    requires Alive(s)
  {
    fd in Self(s).fds && Self(s).fds[fd].queue in s.queues
  }

  /** What the QueueUser pool may answer: free blocks, all different, and no refusal before
      every block is out. */
  predicate PoolGrants(s: State, roles: set<Role>, got: map<Role, Block>) {
    && got.Keys <= roles
    && (forall role :: role in got ==> got[role] !in s.users && got[role] < MAX_NUM_PROCESSES)
    && (forall a, b :: a in got && b in got && a != b ==> got[a] != got[b])
    && (got.Keys != roles ==> |s.users| + |got| >= MAX_NUM_PROCESSES)
  }

  /** The link guard does its work: a process that has just blocked on a queue and is
      preempted is not alone in the waiting list. */
  predicate SafeSchedule(s: State)
    requires s.running.Some?
  {
    var w := WakeDue(s);
    s.running.value in w.waiting ==> w.ready == [] || |w.waiting| >= 2
  }

  predicate SafeBlock(s: State)
    requires s.running.Some?
  {
    s.running.value in s.waiting ==> |s.waiting| >= 2
  }

  /** The order in which a process can do things, and the hypotheses under which runs are
      considered: safe scheduling and blocking; exit without children and not by init; a free
      block of both process pools for spawn; message sizes that fit the string block; no new
      queue id once a queue was unlinked. */
  predicate Enabled(s: State, step: Step) {
    && Alive(s)
    && match step
       case Tick => SafeSchedule(Later(s))
       case Preempt =>
         && (Self(s).pc.User? || (Self(s).pc.Calling? && Self(s).pc.phase == Yield))
         && SafeSchedule(Resume(Trap(s, OtherCall)))
       case Sleep(_) => Self(s).pc.User?
       case WaitPid(_) => Self(s).pc.User?
       case ExitWith(_) => Self(s).pc.User? && Self(s).parent.Some? && Self(s).children == []
       case SpawnChild =>
         Self(s).pc.User? && |s.procs| < MAX_NUM_PROCESSES && PointersOut(s) < MAX_NUM_PROCESSES
       case OpenStart(q, _) => Self(s).pc.User? && (Known(s, q) || s.unlinked == {})
       case OpenFinish(got) =>
         && Self(s).pc.Opening? && Self(s).pc.fd in Self(s).fds
         && PoolGrants(s, Self(s).pc.roles, got)
       case CloseStart(fd) => Self(s).pc.User? && OwnsQueue(s, fd)
       case CloseContinue => Self(s).pc.Closing? && Self(s).pc.fd in Self(s).fds
       case CallStart(role, fd, msg, size) =>
         && Self(s).pc.User? && role != NonBlock
         && Admission(s, role, fd, size) == 0
         && (role == Writer ==> |msg| == MAX_MESSAGE_SIZE)
         && (role == Reader ==> msg == [])
       case TransferStep(grant) =>
         && InCall(s, s.running.value)
         && (Self(s).pc.phase == First || Self(s).pc.phase == Again)
         && |Payload(Self(s).pc.msg, s.queues[CallQueue(s, s.running.value)].msgSize)| <= MAX_MESSAGE_SIZE
         && UsableGrant(grant)
         && SafeBlock(s)
       case WakeStep => InCall(s, s.running.value) && Self(s).pc.phase == Wake
       case MaxStep(fd, _) => Self(s).pc.User? && OwnsQueue(s, fd)
       case SizeStep(fd, newVal) => Self(s).pc.User? && OwnsQueue(s, fd) && newVal <= MAX_MESSAGE_SIZE
       case UnlinkStep(q) => Self(s).pc.User? && q in s.queues
  }

  function Apply(s: State, step: Step): State
    requires Enabled(s, step)
  {
    match step
    case Tick => Schedule(Later(s))
    case Preempt => Schedule(Resume(Trap(s, OtherCall)))
    case Sleep(cycles) => SleepFor(Trap(s, OtherCall), cycles)
    case WaitPid(pid) => WaitFor(Trap(s, Wait(pid)), pid)
    case ExitWith(value) => Exit(Trap(s, OtherCall), value)
    case SpawnChild => Spawn(Trap(s, OtherCall))
    case OpenStart(q, roles) => OpenResource(Trap(s, OtherCall), q, roles)
    case OpenFinish(got) => OpenQueue(Trap(s, OtherCall), got)
    case CloseStart(fd) => SetSelf(s, Self(s).(pc := Closing(fd, 0)))
    case CloseContinue => CloseStep(s)
    case CallStart(role, fd, msg, size) => SetSelf(s, Self(s).(pc := Calling(role, fd, First, msg, size)))
    case TransferStep(grant) => Transfer(Trap(s, OtherCall), grant)
    case WakeStep => WakeUpQueue(Trap(s, OtherCall))
    case MaxStep(fd, newVal) => SetMax(s, Self(s).fds[fd].queue, newVal).0
    case SizeStep(fd, newVal) => SetMsgSize(s, Self(s).fds[fd].queue, newVal).0
    case UnlinkStep(q) => Unlink(Trap(s, OtherCall), q)
  }

  /** `states` is what the kernel goes through when it takes `steps` one after the other. */
  ghost predicate Path(states: seq<State>, steps: seq<Step>) {
    && |states| == |steps| + 1
    && forall i :: 0 <= i < |steps| ==> Enabled(states[i], steps[i]) && states[i + 1] == Apply(states[i], steps[i])
  }

  /** A path from the boot state. */
  ghost predicate Run(states: seq<State>, steps: seq<Step>) {
    Path(states, steps) && states[0] == BOOT
  }

  lemma RunStep(states: seq<State>, steps: seq<Step>, k: nat)
    requires Path(states, steps) && k < |steps|
    ensures Enabled(states[k], steps[k]) && states[k + 1] == Apply(states[k], steps[k])
  {
  }

  /** Nothing happens, or one step does. */
  ghost predicate Moves(s: State, t: State) {
    t == s || exists step {:trigger Enabled(s, step)} :: Enabled(s, step) && t == Apply(s, step)
  }

  lemma OneStep(s: State, step: Step)
    requires Enabled(s, step)
    ensures Moves(s, Apply(s, step))
  {
  }

  ghost predicate Reachable(s: State) {
    exists states, steps {:trigger Run(states, steps)} :: Run(states, steps) && states[|steps|] == s
  }

  lemma BootReachable()
    ensures Reachable(BOOT)
  {
    assert Run([BOOT], []);
  }

  lemma Extend(s: State, step: Step, t: State)
    requires Reachable(s) && Enabled(s, step) && Apply(s, step) == t
    ensures Reachable(t)
  {
    var a, x :| Run(a, x) && a[|x|] == s;
    PathAppend(a, x, step, t);
    RunEnds(a + [t], x + [step], t);
  }

  lemma RunEnds(a: seq<State>, x: seq<Step>, t: State)
    requires Path(a, x) && a[0] == BOOT && a[|x|] == t
    ensures Reachable(t)
  {
    assert Run(a, x);
  }

  lemma PathDrop(a: seq<State>, x: seq<Step>, i: nat)
    requires Path(a, x) && i <= |x|
    ensures Path(a[i..], x[i..])
  {
    forall k | 0 <= k < |x[i..]|
      ensures Enabled(a[i..][k], x[i..][k]) && a[i..][k + 1] == Apply(a[i..][k], x[i..][k])
    {
      RunStep(a, x, i + k);
    }
  }

  lemma PathAppend(a: seq<State>, x: seq<Step>, step: Step, t: State)
    requires Path(a, x) && Enabled(a[|x|], step) && Apply(a[|x|], step) == t
    ensures Path(a + [t], x + [step])
  {
    var states, steps := a + [t], x + [step];
    forall i | 0 <= i < |steps| ensures Enabled(states[i], steps[i]) && states[i + 1] == Apply(states[i], steps[i]) {
      if i < |x| {
        assert Enabled(a[i], x[i]) && a[i + 1] == Apply(a[i], x[i]);
      }
    }
  }
}
