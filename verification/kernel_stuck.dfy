/** A wait for a pid that is not a child of the caller never ends. */
module KernelStuck {
  import opened Seqs
  import opened Constants
  import opened Timers
  import opened Payloads
  import opened KernelModel
  import opened KernelRun
  import opened KernelInv
  import opened KernelSched
  import opened KernelIpc
  import opened KernelOpen
  import opened KernelCore
  import opened KernelFamily
  import opened KernelTheorems

  /** The process is parked in a wait for a pid that names none of its children. */
  predicate Stuck(s: State, p: Pid) {
    && AwaitsChild(s, p) && s.procs[p].call.pid != 0
    && !(0 <= s.procs[p].call.pid && s.procs[p].call.pid in s.procs[p].children)
  }

  /** Nothing happens to the process. */
  predicate Spared(s: State, t: State, p: Pid) {
    p in s.procs && p in t.procs && t.procs[p] == s.procs[p] && p in t.waiting && t.running != Some(p)
  }

  lemma SparedStaysStuck(s: State, t: State, p: Pid)
    requires Stuck(s, p) && Spared(s, t, p)
    ensures Stuck(t, p)
  {
  }

  lemma SparedTrans(s: State, t: State, u: State, p: Pid)
    requires Spared(s, t, p) && Spared(t, u, p)
    ensures Spared(s, u, p)
  {
  }

  lemma TrapSpares(s: State, call: Call, p: Pid)
    requires Alive(s) && AwaitsChild(s, p)
    ensures Spared(s, Trap(s, call), p)
  {
  }

  lemma WakeDueSpares(s: State, p: Pid)
    requires TimersOk(s) && AwaitsChild(s, p)
    ensures Spared(s, WakeDue(s), p)
  {
    DueAreAsleep(s);
  }

  lemma ScheduleSpares(s: State, p: Pid)
    requires Placed(s) && StatusOk(s) && TimersOk(s) && s.running.Some? && AwaitsChild(s, p)
    ensures Spared(s, Schedule(s), p)
  {
    WakeDueSpares(s, p);
    DueAreAsleep(s);
    RotateAfterWake(s, p);
    SparedTrans(s, WakeDue(s), Schedule(s), p);
  }

  lemma RotateAfterWake(s: State, p: Pid)
    requires Placed(s) && TimersOk(s) && s.running.Some? && AwaitsChild(s, p) && Spared(s, WakeDue(s), p)
    requires p !in Due(s.timers, s.time)
    ensures Spared(WakeDue(s), Schedule(s), p)
  {
    var w := WakeDue(s);
    if w.ready != [] { assert w.ready[0] in w.ready; }
  }

  lemma TickSpares(s: State, p: Pid)
    requires CoreInv(s) && Enabled(s, Tick) && AwaitsChild(s, p)
    ensures Spared(s, Apply(s, Tick), p)
  {
    LaterKeeps(s);
    assert AwaitsChild(Later(s), p);
    ScheduleSpares(Later(s), p);
  }

  lemma PreemptSpares(s: State, p: Pid)
    requires CoreInv(s) && Enabled(s, Preempt) && AwaitsChild(s, p)
    ensures Spared(s, Apply(s, Preempt), p)
  {
    var r := Resume(Trap(s, OtherCall));
    PreemptedKeeps(s);
    assert Spared(s, r, p);
    ScheduleSpares(r, p);
    SparedTrans(s, r, Schedule(r), p);
  }

  lemma ParkNextSpares(s: State, timers: seq<Timer>, p: Pid)
    requires Placed(s) && Alive(s) && AwaitsChild(s, p)
    ensures Spared(s, ParkNext(s, timers), p)
  {
    if s.ready != [] { assert s.ready[0] in s.ready; }
  }

  lemma SleepSpares(s: State, cycles: int, p: Pid)
    requires Placed(s) && Alive(s) && AwaitsChild(s, p)
    ensures Spared(s, SleepFor(s, cycles), p)
  {
    if |s.timers| < MAX_NUM_PROCESSES {
      ParkNextSpares(s, AddTimer(s.timers, Timer(s.time + cycles, s.running.value)), p);
    }
  }

  lemma WaitSpares(s: State, pid: int, p: Pid)
    requires Placed(s) && StatusOk(s) && Alive(s) && AwaitsChild(s, p)
    ensures Spared(s, WaitFor(s, pid), p)
  {
    if Self(s).children != [] {
      var c := Awaited(s, Self(s).children, pid);
      if StatusOf(s, c) != Some(Zombie) { ParkNextSpares(s, s.timers, p); }
    }
  }

  /** No exit reports to a process that waits for a pid which is not its child. */
  lemma ExitSpares(s: State, value: int, p: Pid)
    requires Placed(s) && StatusOk(s) && FamilyOk(s) && Alive(s) && Self(s).parent.Some? && Self(s).children == []
    requires Stuck(s, p)
    ensures Spared(s, Exit(s, value), p)
  {
    var r := s.running.value;
    var parent := Self(s).parent.value;
    assert s.procs[r].parent.Some? && r in s.procs[parent].children;
    var z := BecomeZombie(s, value);
    assert z.procs[p] == s.procs[p];
    assert ParentWaits(z, parent, r) ==> parent != p;
    if s.ready != [] { assert s.ready[0] in s.ready; }
  }

  lemma TransferSpares(s: State, grant: Grant, p: Pid)
    requires Alive(s) && InCall(s, s.running.value) && UsableGrant(grant)
    requires |Payload(Self(s).pc.msg, s.queues[CallQueue(s, s.running.value)].msgSize)| <= MAX_MESSAGE_SIZE
    requires AwaitsChild(s, p)
    ensures Spared(s, Transfer(s, grant), p)
  {
  }

  /** The wake-up call wakes a process that is blocked on a queue. */
  lemma WakeSpares(s: State, p: Pid)
    requires BlockedOk(s) && Alive(s) && InCall(s, s.running.value) && AwaitsChild(s, p)
    ensures Spared(s, WakeUpQueue(s), p)
  {
    var role := Self(s).pc.role;
    var q := s.queues[CallQueue(s, s.running.value)];
    var waiter := FirstWaiter(s, Users(q, Opposite(role)));
    if waiter.Some? { assert Blocked(s, waiter.value); }
  }

  lemma SelfStepSpares(s: State, step: Step, p: Pid)
    requires Enabled(s, step) && AwaitsChild(s, p)
    requires step.OpenStart? || step.CloseStart? || step.CallStart? || step.MaxStep? || step.SizeStep?
    ensures Spared(s, Apply(s, step), p)
  {
  }

  lemma EndStepSpares(s: State, step: Step, p: Pid)
    requires Enabled(s, step) && AwaitsChild(s, p) && (step.CloseContinue? || step.UnlinkStep?)
    ensures Spared(s, Apply(s, step), p)
  {
  }

  lemma {:induction false} RegisterAllSpares(s: State, fd: Fd, order: seq<Role>, roles: set<Role>,
      got: map<Role, Block>, p: Pid)
    requires Alive(s) && fd in Self(s).fds && Self(s).fds[fd].queue in s.queues && AwaitsChild(s, p)
    ensures Spared(s, RegisterAll(s, fd, order, roles, got), p)
    decreases order
  {
    if order == [] {
    } else if order[0] !in roles {
      RegisterAllSpares(s, fd, order[1..], roles, got, p);
    } else if order[0] in got {
      RegisterAllSpares(Register(s, fd, order[0], got[order[0]]), fd, order[1..], roles, got, p);
    }
  }

  lemma OpenFinishSpares(s: State, got: map<Role, Block>, p: Pid)
    requires Alive(s) && Self(s).pc.Opening? && Self(s).pc.fd in Self(s).fds && AwaitsChild(s, p)
    ensures Spared(s, OpenQueue(s, got), p)
  {
    var fd := Self(s).pc.fd;
    var q := Self(s).fds[fd].queue;
    if q in s.queues || |s.queues| < MAX_NUM_QUEUES {
      var done := SetSelf(s, Self(s).(pc := User));
      var s1 := if q in s.queues then done else done.(queues := done.queues[q := NEW_QUEUE]);
      RegisterAllSpares(s1, fd, ALL_ROLES, Self(s).pc.roles, got, p);
    } else {
      OpenFailsForm(s, got);
    }
  }

  lemma TrappedStuck(s: State, call: Call, p: Pid)
    requires Alive(s) && Stuck(s, p)
    ensures Spared(s, Trap(s, call), p) && Stuck(Trap(s, call), p)
  {
    TrapSpares(s, call, p);
  }

  lemma WaitStepSpares(s: State, pid: int, p: Pid)
    requires CoreInv(s) && Enabled(s, WaitPid(pid)) && Stuck(s, p)
    ensures Spared(s, Apply(s, WaitPid(pid)), p)
  {
    var r := Trap(s, Wait(pid));
    TrappedStuck(s, Wait(pid), p);
    TrapKeeps(s, Wait(pid));
    WaitSpares(r, pid, p);
    SparedTrans(s, r, WaitFor(r, pid), p);
  }

  lemma ExitStepSpares(s: State, value: int, p: Pid)
    requires CoreInv(s) && FamilyOk(s) && Enabled(s, ExitWith(value)) && Stuck(s, p)
    ensures Spared(s, Apply(s, ExitWith(value)), p)
  {
    var r := Trap(s, OtherCall);
    TrappedStuck(s, OtherCall, p);
    TrappedOk(s, OtherCall);
    ExitSpares(r, value, p);
    SparedTrans(s, r, Exit(r, value), p);
  }

  lemma TrappedOk(s: State, call: Call)
    requires CoreInv(s) && FamilyOk(s) && Alive(s)
    ensures var r := Trap(s, call); Placed(r) && StatusOk(r) && FamilyOk(r)
  {
    TrapKeeps(s, call);
    FamilyFrame(s, Trap(s, call));
  }

  lemma SpawnSpares(s: State, p: Pid)
    requires Placed(s) && Enabled(s, SpawnChild) && AwaitsChild(s, p)
    ensures Spared(s, Apply(s, SpawnChild), p)
  {
  }

  lemma CallSpares(s: State, step: Step, p: Pid)
    requires CoreInv(s) && Enabled(s, step) && Stuck(s, p)
    requires step.Sleep? || step.OpenFinish? || step.TransferStep? || step.WakeStep?
    ensures Spared(s, Apply(s, step), p)
  {
    var r := Trap(s, OtherCall);
    TrappedStuck(s, OtherCall, p);
    TrapKeeps(s, OtherCall);
    match step {
      case Sleep(cycles) => SleepSpares(r, cycles, p);
      case OpenFinish(got) => OpenFinishSpares(r, got, p);
      case TransferStep(grant) => TransferSpares(r, grant, p);
      case WakeStep => WakeSpares(r, p);
    }
    SparedTrans(s, r, Apply(s, step), p);
  }

  lemma StepSpares(s: State, step: Step, p: Pid)
    requires CoreInv(s) && FamilyOk(s) && Enabled(s, step) && Stuck(s, p)
    ensures Stuck(Apply(s, step), p)
  {
    match step {
      case Tick => TickSpares(s, p);
      case Preempt => PreemptSpares(s, p);
      case WaitPid(pid) => WaitStepSpares(s, pid, p);
      case ExitWith(value) => ExitStepSpares(s, value, p);
      case SpawnChild => SpawnSpares(s, p);
      case Sleep(_) => CallSpares(s, step, p);
      case OpenFinish(_) => CallSpares(s, step, p);
      case TransferStep(_) => CallSpares(s, step, p);
      case WakeStep => CallSpares(s, step, p);
      case CloseContinue => EndStepSpares(s, step, p);
      case UnlinkStep(_) => EndStepSpares(s, step, p);
      case _ => SelfStepSpares(s, step, p);
    }
    SparedStaysStuck(s, Apply(s, step), p);
  }

  /** Over every run: nobody ever wakes such a process, and so it stays in the waiting list. */
  lemma {:induction false} NeverWoken(states: seq<State>, steps: seq<Step>, i: nat, j: nat, p: Pid)
    requires Run(states, steps) && i <= j < |states| && Stuck(states[i], p)
    ensures Stuck(states[j], p)
    decreases j
  {
    if i < j {
      NeverWoken(states, steps, i, j - 1, p);
      StuckNext(states, steps, j - 1, p);
    }
  }

  lemma StuckNext(states: seq<State>, steps: seq<Step>, k: nat, p: Pid)
    requires Run(states, steps) && k < |steps| && Stuck(states[k], p)
    ensures Stuck(states[k + 1], p)
  {
    RunInv(states, steps, k);
    RunStep(states, steps, k);
    StepSpares(states[k], steps[k], p);
  }

  /** A call of wait for a pid that is not a child, by a process that has children. */
  predicate AsksStranger(s: State, step: Step) {
    && Enabled(s, step) && step.WaitPid? && step.pid != 0 && Self(s).children != []
    && !(0 <= step.pid && step.pid in Self(s).children)
  }

  function LastChild(s: State): Pid
    requires Alive(s) && Self(s).children != []
  {
    Self(s).children[|Self(s).children| - 1]
  }

  /** It reaps the last child, when that is a zombie, and parks the caller for ever otherwise. */
  lemma StrangerOutcome(s: State, step: Step)
    requires CoreInv(s) && FamilyOk(s) && AsksStranger(s, step)
    ensures var p, t := s.running.value, Apply(s, step);
            && (StatusOf(s, LastChild(s)) == Some(Zombie) ==> t.running == Some(p) && LastChild(s) !in t.procs)
            && (StatusOf(s, LastChild(s)) != Some(Zombie) ==> Stuck(t, p))
  {
    var r := Trap(s, Wait(step.pid));
    UserIsUnparked(s);
    StrangerTrap(s, step.pid);
    StrangerWaits(r, step.pid);
  }

  lemma StrangerTrap(s: State, pid: int)
    requires CoreInv(s) && FamilyOk(s) && Alive(s) && Self(s).children != []
    ensures var r := Trap(s, Wait(pid));
            && Placed(r) && FamilyOk(r) && Self(r) == Self(s).(call := Wait(pid)) && LastChild(r) == LastChild(s)
            && StatusOf(r, LastChild(s)) == StatusOf(s, LastChild(s)) && r.waiting == s.waiting
  {
    TrappedOk(s, Wait(pid));
    LastIsOther(s);
    TrapOthers(s, Wait(pid), LastChild(s));
  }

  lemma TrapOthers(s: State, call: Call, c: Pid)
    requires Alive(s) && c != s.running.value
    ensures StatusOf(Trap(s, call), c) == StatusOf(s, c) && Self(Trap(s, call)) == Self(s).(call := call)
    ensures Trap(s, call).waiting == s.waiting
  {
  }

  lemma StrangerWaits(s: State, pid: int)
    requires Placed(s) && FamilyOk(s) && Alive(s) && Self(s).pc.User? && s.running.value !in s.waiting
    requires Self(s).call == Wait(pid) && Self(s).children != [] && pid != 0
    requires !(0 <= pid && pid in Self(s).children)
    ensures var p, t := s.running.value, WaitFor(s, pid);
            && (StatusOf(s, LastChild(s)) == Some(Zombie) ==> t.running == Some(p) && LastChild(s) !in t.procs)
            && (StatusOf(s, LastChild(s)) != Some(Zombie) ==> Stuck(t, p))
  {
    StrangerCases(s, pid);
    LastIsOther(s);
    if StatusOf(s, LastChild(s)) != Some(Zombie) { ParkedWithStranger(s); }
  }

  lemma StrangerCases(s: State, pid: int)
    requires Alive(s) && Self(s).children != [] && pid != 0 && !(0 <= pid && pid in Self(s).children)
    ensures WaitFor(s, pid) ==
              if StatusOf(s, LastChild(s)) == Some(Zombie) then Reap(s, LastChild(s)) else TakeNext(Park(s))
  {
    AwaitedMeaning(s, Self(s).children, pid);
  }

  lemma LastIsOther(s: State)
    requires FamilyOk(s) && Alive(s) && Self(s).children != []
    ensures LastChild(s) != s.running.value
  {
    assert LastChild(s) in s.procs[s.running.value].children;
  }

  lemma ParkedWithStranger(s: State)
    requires Placed(s) && Alive(s) && Self(s).pc.User? && s.running.value !in s.waiting && Self(s).call.Wait?
    requires Self(s).call.pid != 0 && !(0 <= Self(s).call.pid && Self(s).call.pid in Self(s).children)
    ensures Stuck(TakeNext(Park(s)), s.running.value)
  {
    if s.ready != [] { assert s.ready[0] in s.ready; }
  }

  lemma WaitForStranger(states: seq<State>, steps: seq<Step>, i: nat, j: nat)
    requires Run(states, steps) && i < j < |states| && AsksStranger(states[i], steps[i])
    requires StatusOf(states[i], LastChild(states[i])) != Some(Zombie)
    ensures Stuck(states[j], states[i].running.value)
  {
    RunInv(states, steps, i);
    RunStep(states, steps, i);
    StrangerOutcome(states[i], steps[i]);
    NeverWoken(states, steps, i + 1, j, states[i].running.value);
  }
}
