/** dmq_receive compares the message size with the caller's buffer once, on entry. When the
    message that is copied later fits the buffer, and exactly when it can be too long. */
module KernelSizes {
  import opened Seqs
  import opened Constants
  import opened Timers
  import opened Payloads
  import opened KernelModel
  import opened KernelRun
  import opened KernelInv
  import opened KernelSched
  import opened KernelIpc
  import opened KernelOpen
  import opened KernelCore
  import opened KernelQueues
  import opened KernelTheorems

  /** The process is inside dmq_receive and has not got its message yet. */
  predicate Reading(pr: Proc) {
    pr.pc.Calling? && pr.pc.role == Reader && pr.pc.phase != Wake
  }

  /** The messages of the queue are no longer than the buffer. */
  predicate Fits(s: State, pr: Proc) {
    Reading(pr) && pr.pc.fd in pr.fds && pr.fds[pr.pc.fd].queue in s.queues ==>
      s.queues[pr.fds[pr.pc.fd].queue].msgSize <= pr.pc.size
  }

  predicate AllFit(s: State) {
    forall p {:trigger s.procs[p]} :: p in s.procs ==> Fits(s, s.procs[p])
  }

  /** A change of the message size is refused, or no buffer that waits for a message of the queue
      is smaller than the new size. */
  predicate SizeOk(s: State, step: Step) {
    step.SizeStep? && Alive(s) && OwnsQueue(s, step.fd) ==>
      var q := Self(s).fds[step.fd].queue;
      || |s.queues[q].messages| > 0
      || forall p {:trigger s.procs[p]} :: p in s.procs ==> Holds(s.procs[p], q, step.newVal)
  }

  predicate Holds(pr: Proc, q: Qid, size: int) {
    Reading(pr) && pr.pc.fd in pr.fds && pr.fds[pr.pc.fd].queue == q ==> size <= pr.pc.size
  }

  /** Who is in a call was in it before, with the same arguments and the same descriptors, and the
      message sizes are those of before. */
  ghost predicate Tame(s: State, t: State) {
    && (forall q {:trigger t.queues[q]} :: q in t.queues && q in s.queues ==>
          t.queues[q].msgSize == s.queues[q].msgSize)
    && forall p {:trigger t.procs[p]} :: p in t.procs && t.procs[p].pc.Calling? ==>
         p in s.procs && SameCall(s.procs[p], t.procs[p])
  }

  /** Only the phase of the call may be another, and both wait for a transfer or neither does. */
  predicate SameCall(a: Proc, b: Proc) {
    && a.pc.Calling? && b.pc.Calling? && b.pc == a.pc.(phase := b.pc.phase) && a.fds == b.fds
    && (a.pc.phase == Wake <==> b.pc.phase == Wake)
  }

  lemma TameTrans(s: State, t: State, u: State)
    requires Tame(s, t) && Tame(t, u) && s.queues.Keys == t.queues.Keys
    ensures Tame(s, u)
  {
  }

  /** A reader has its queue, so that a queue that comes does not matter. */
  lemma TameFits(s: State, t: State)
    requires EntriesOk(s) && PcsOk(s) && AllFit(s) && Tame(s, t)
    ensures AllFit(t)
  {
    forall p | p in t.procs ensures Fits(t, t.procs[p]) {
      if Reading(t.procs[p]) {
        assert PcOk(s, p);
        var pr := s.procs[p];
        assert SlotOk(s, p, pr.pc.fd, pr.pc.role);
        assert Fits(s, pr);
      }
    }
  }

  // The steps.

  lemma StatusTame(s: State, t: State)
    requires OnlyStatus(s.procs, t.procs) && t.queues == s.queues
    ensures Tame(s, t)
  {
  }

  lemma WakeDueTame(s: State)
    ensures Tame(s, WakeDue(s))
  {
  }

  lemma ScheduleTame(s: State)
    requires s.running.Some?
    ensures Tame(s, Schedule(s))
  {
    WakeDueTame(s);
    RotateOnlyStatus(WakeDue(s));
    StatusTame(WakeDue(s), Schedule(s));
    TameTrans(s, WakeDue(s), Schedule(s));
  }

  /** The running process changes something else than its call. */
  lemma SelfTame(s: State, pr: Proc)
    requires Alive(s) && (pr.pc.Calling? ==> SameCall(Self(s), pr))
    ensures Tame(s, SetSelf(s, pr))
  {
  }

  lemma TrapTame(s: State, call: Call)
    requires Alive(s)
    ensures Tame(s, Trap(s, call)) && Trap(s, call).queues == s.queues
  {
    SelfTame(s, Self(s).(call := call));
  }

  lemma ResumeTame(s: State)
    requires Alive(s) && (Self(s).pc.Calling? ==> Self(s).pc.phase == Yield)
    ensures Tame(s, Resume(s)) && Resume(s).queues == s.queues
  {
    if Self(s).pc.Calling? { SelfTame(s, Self(s).(pc := Self(s).pc.(phase := Again))); }
  }

  lemma TickTame(s: State)
    requires Enabled(s, Tick)
    ensures Tame(s, Apply(s, Tick))
  {
    ScheduleTame(Later(s));
  }

  lemma PreemptTame(s: State)
    requires Enabled(s, Preempt)
    ensures Tame(s, Apply(s, Preempt))
  {
    var r := Trap(s, OtherCall);
    TrapTame(s, OtherCall);
    ResumeTame(r);
    TameTrans(s, r, Resume(r));
    ScheduleTame(Resume(r));
    TameTrans(s, Resume(r), Schedule(Resume(r)));
  }

  lemma ParkNextTame(s: State, timers: seq<Timer>)
    requires Alive(s)
    ensures Tame(s, ParkNext(s, timers))
  {
    SetStatusOnly(s.procs, s.running.value, Waiting);
    StatusTame(s, ParkNext(s, timers));
  }

  lemma SleepTame(s: State, cycles: int)
    requires Alive(s)
    ensures Tame(s, SleepFor(s, cycles))
  {
    if |s.timers| >= MAX_NUM_PROCESSES {
      SelfTame(s, Self(s).(ret := DSOS_ESLEEP));
    } else {
      ParkNextTame(s, AddTimer(s.timers, Timer(s.time + cycles, s.running.value)));
    }
  }

  lemma ReapTame(s: State, c: Pid)
    requires Alive(s) && c in s.procs
    ensures Tame(s, Reap(s, c))
  {
  }

  lemma WaitTame(s: State, pid: int)
    requires Alive(s)
    ensures Tame(s, WaitFor(s, pid))
  {
    if Self(s).children == [] {
      SelfTame(s, Self(s).(ret := DSOS_EWAIT));
    } else {
      var c := Awaited(s, Self(s).children, pid);
      if StatusOf(s, c) == Some(Zombie) { ReapTame(s, c); } else { ParkNextTame(s, s.timers); }
    }
  }

  lemma ZombieTame(s: State, value: int)
    requires Alive(s)
    ensures Tame(s, BecomeZombie(s, value))
  {
  }

  lemma HandOverTame(s: State, parent: Pid)
    requires Alive(s) && parent in s.procs
    ensures Tame(s, HandOver(s, parent))
  {
  }

  lemma ExitTame(s: State, value: int)
    requires Alive(s) && Self(s).parent.Some?
    ensures Tame(s, Exit(s, value))
  {
    var z := BecomeZombie(s, value);
    ZombieTame(s, value);
    if ParentWaits(z, Self(s).parent.value, s.running.value) {
      HandOverTame(z, Self(s).parent.value);
    } else {
      DispatchOnlyStatus(z);
      StatusTame(z, DispatchHead(z));
    }
    TameTrans(s, z, Exit(s, value));
  }

  lemma SpawnTame(s: State)
    requires Alive(s)
    ensures Tame(s, Spawn(s))
  {
  }

  lemma WakeTame(s: State)
    requires Alive(s) && InCall(s, s.running.value)
    ensures Tame(s, WakeUpQueue(s))
  {
  }

  lemma RegisterTame(s: State, fd: Fd, role: Role, b: Block)
    requires Alive(s) && !Self(s).pc.Calling? && fd in Self(s).fds && Self(s).fds[fd].queue in s.queues
    ensures Tame(s, Register(s, fd, role, b)) && Register(s, fd, role, b).queues.Keys == s.queues.Keys
  {
  }

  lemma {:induction false} RegisterAllTame(s: State, fd: Fd, order: seq<Role>, roles: set<Role>, got: map<Role, Block>)
    requires Alive(s) && !Self(s).pc.Calling? && fd in Self(s).fds && Self(s).fds[fd].queue in s.queues
    ensures Tame(s, RegisterAll(s, fd, order, roles, got))
    decreases order
  {
    if order == [] {
      SelfTame(s, Self(s).(ret := fd));
    } else if order[0] !in roles {
      RegisterAllTame(s, fd, order[1..], roles, got);
    } else if order[0] !in got {
      SelfTame(s, Self(s).(ret := LIST_INSERTION_ERROR));
    } else {
      var t := Register(s, fd, order[0], got[order[0]]);
      RegisterTame(s, fd, order[0], got[order[0]]);
      RegisterAllTame(t, fd, order[1..], roles, got);
      TameTrans(s, t, RegisterAll(s, fd, order, roles, got));
    }
  }

  lemma CloseTame(s: State)
    requires Enabled(s, CloseContinue)
    ensures Tame(s, CloseStep(s))
  {
  }

  lemma UnlinkTame(s: State, q: Qid)
    requires Alive(s) && q in s.queues
    ensures Tame(s, Unlink(s, q))
  {
  }

  lemma ReadyTame(s: State, q: Qid)
    requires Alive(s) && !Self(s).pc.Calling?
    ensures var done := SetSelf(s, Self(s).(pc := User));
            Tame(s, if q in s.queues then done else done.(queues := done.queues[q := NEW_QUEUE]))
  {
  }

  lemma OpenTame(s: State, got: map<Role, Block>)
    requires Alive(s) && Self(s).pc.Opening? && Self(s).pc.fd in Self(s).fds
    ensures Tame(s, OpenQueue(s, got))
  {
    var fd := Self(s).pc.fd;
    var q := Self(s).fds[fd].queue;
    if q in s.queues || |s.queues| < MAX_NUM_QUEUES {
      var done := SetSelf(s, Self(s).(pc := User));
      var s1 := if q in s.queues then done else done.(queues := done.queues[q := NEW_QUEUE]);
      ReadyTame(s, q);
      RegisterAllTame(s1, fd, ALL_ROLES, Self(s).pc.roles, got);
      assert s.queues.Keys <= s1.queues.Keys;
      TameGrows(s, s1, OpenQueue(s, got));
    } else {
      OpenFailsForm(s, got);
    }
  }

  lemma TameGrows(s: State, t: State, u: State)
    requires Tame(s, t) && Tame(t, u) && s.queues.Keys <= t.queues.Keys
    ensures Tame(s, u)
  {
  }

  /** The calls of the running process, from inside the kernel on. */
  lemma CallTame(s: State, step: Step)
    requires Enabled(s, step)
    requires step.Sleep? || step.ExitWith? || step.SpawnChild? || step.OpenFinish? || step.WakeStep?
             || step.UnlinkStep?
    ensures Tame(s, Apply(s, step))
  {
    var r := Trap(s, OtherCall);
    TrapTame(s, OtherCall);
    match step {
      case Sleep(cycles) => SleepTame(r, cycles);
      case ExitWith(value) => ExitTame(r, value);
      case SpawnChild => SpawnTame(r);
      case OpenFinish(got) => OpenTame(r, got);
      case WakeStep => WakeTame(r);
      case UnlinkStep(q) => UnlinkTame(r, q);
    }
    TameTrans(s, r, Apply(s, step));
  }

  lemma WaitStepTame(s: State, pid: int)
    requires Enabled(s, WaitPid(pid))
    ensures Tame(s, Apply(s, WaitPid(pid)))
  {
    TrapTame(s, Wait(pid));
    WaitTame(Trap(s, Wait(pid)), pid);
    TameTrans(s, Trap(s, Wait(pid)), Apply(s, WaitPid(pid)));
  }

  lemma StepTame(s: State, step: Step)
    requires Enabled(s, step) && !step.CallStart? && !step.SizeStep? && !step.TransferStep?
    ensures Tame(s, Apply(s, step))
  {
    match step
    case Tick => TickTame(s);
    case Preempt => PreemptTame(s);
    case WaitPid(pid) => WaitStepTame(s, pid);
    case OpenStart(q, roles) =>
    case CloseStart(fd) =>
    case CloseContinue => CloseTame(s);
    case MaxStep(fd, newVal) =>
    case _ => CallTame(s, step);
  }

  /** A process that is in a call before and after a step other than a transfer is in the same one. */
  lemma StepKeepsCall(s: State, step: Step, p: Pid)
    requires Enabled(s, step) && !step.TransferStep? && p in s.procs && p in Apply(s, step).procs
    requires s.procs[p].pc.Calling? && Apply(s, step).procs[p].pc.Calling?
    ensures SameCall(s.procs[p], Apply(s, step).procs[p])
  {
    if !step.CallStart? && !step.SizeStep? { StepTame(s, step); }
  }

  /** A transfer. */
  lemma TransferFits(s: State, grant: Grant)
    requires AllFit(s) && Enabled(s, TransferStep(grant))
    ensures AllFit(Apply(s, TransferStep(grant)))
  {
    var t := Apply(s, TransferStep(grant));
    forall p | p in t.procs ensures Fits(t, t.procs[p]) { assert Fits(s, s.procs[p]); }
  }

  /** The check on entry. */
  lemma EntryFits(s: State, role: Role, fd: Fd, msg: Bytes, size: int)
    requires AllFit(s) && Enabled(s, CallStart(role, fd, msg, size))
    ensures AllFit(Apply(s, CallStart(role, fd, msg, size)))
  {
    var t := Apply(s, CallStart(role, fd, msg, size));
    forall p | p in t.procs ensures Fits(t, t.procs[p]) {
      if p != s.running.value { assert Fits(s, s.procs[p]); }
    }
  }

  lemma ChangeFitsIff(s: State, fd: Fd, newVal: int)
    requires AllFit(s) && Enabled(s, SizeStep(fd, newVal))
    ensures AllFit(Apply(s, SizeStep(fd, newVal))) <==> SizeOk(s, SizeStep(fd, newVal))
  {
    var t, q := Apply(s, SizeStep(fd, newVal)), Self(s).fds[fd].queue;
    if |s.queues[q].messages| == 0 {
      forall p | p in s.procs ensures Fits(t, t.procs[p]) <==> Holds(s.procs[p], q, newVal) {
        assert Fits(s, s.procs[p]);
      }
    }
  }

  lemma StepFitsIff(s: State, step: Step)
    requires EntriesOk(s) && PcsOk(s) && AllFit(s) && Enabled(s, step)
    ensures AllFit(Apply(s, step)) <==> SizeOk(s, step)
  {
    if step.SizeStep? {
      ChangeFitsIff(s, step.fd, step.newVal);
    } else if step.CallStart? {
      EntryFits(s, step.role, step.fd, step.msg, step.size);
    } else if step.TransferStep? {
      TransferFits(s, step.grant);
    } else {
      StepTame(s, step);
      TameFits(s, Apply(s, step));
    }
  }

  // Over runs.

  ghost predicate AlwaysFit(states: seq<State>, i: nat)
    requires i < |states|
  {
    forall j :: 0 <= j <= i ==> AllFit(states[j])
  }

  ghost predicate SizesOk(states: seq<State>, steps: seq<Step>, i: nat)
    requires i <= |steps| && |states| == |steps| + 1
  {
    forall j :: 0 <= j < i ==> SizeOk(states[j], steps[j])
  }

  lemma FitNext(states: seq<State>, i: nat)
    requires 0 < i < |states|
    ensures AlwaysFit(states, i) <==> AlwaysFit(states, i - 1) && AllFit(states[i])
    ensures AlwaysFit(states, i - 1) ==> AllFit(states[i - 1])
  {
  }

  lemma SizesNext(states: seq<State>, steps: seq<Step>, i: nat)
    requires 0 < i <= |steps| && |states| == |steps| + 1
    ensures SizesOk(states, steps, i) <==> SizesOk(states, steps, i - 1) && SizeOk(states[i - 1], steps[i - 1])
  {
  }

  lemma FitsIffAt(states: seq<State>, steps: seq<Step>, k: nat)
    requires Run(states, steps) && k < |steps| && AllFit(states[k])
    ensures AllFit(states[k + 1]) <==> SizeOk(states[k], steps[k])
  {
    RunInv(states, steps, k);
    RunStep(states, steps, k);
    StepFitsIff(states[k], steps[k]);
  }

  /** Over every run: the messages that a reader may get were always short enough for the buffer
      it was admitted with, exactly when no change of a message size exceeded the buffer of a
      process inside dmq_receive on that queue. */
  lemma {:induction false} BuffersFitIff(states: seq<State>, steps: seq<Step>, i: nat)
    requires Run(states, steps) && i < |states|
    ensures AlwaysFit(states, i) <==> SizesOk(states, steps, i)
  {
    if i > 0 {
      BuffersFitIff(states, steps, i - 1);
      FitNext(states, i);
      SizesNext(states, steps, i);
      if AlwaysFit(states, i - 1) { FitsIffAt(states, steps, i - 1); }
    } else {
      assert AllFit(BOOT);
    }
  }

  /** What that means for the copy: every message of the queue, and so the one that is delivered,
      is no longer than the buffer. */
  lemma CopyFits(s: State)
    requires CoreInv(s) && QueuesOk(s) && AllFit(s) && Alive(s) && InCall(s, s.running.value) && Reading(Self(s))
    ensures forall m {:trigger s.queues[CallQueue(s, s.running.value)].messages[m]} ::
              0 <= m < |s.queues[CallQueue(s, s.running.value)].messages| ==>
                s.queues[CallQueue(s, s.running.value)].messages[m].len <= Self(s).pc.size
  {
    assert Fits(s, Self(s));
    assert QueueOk(s.queues[CallQueue(s, s.running.value)]);
  }
}
