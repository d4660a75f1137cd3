/** Time, and how long a sleep lasts. */
module KernelTime {
  import opened Seqs
  import opened Constants
  import opened Timers
  import opened Payloads
  import opened KernelModel
  import opened KernelRun
  import opened KernelInv
  import opened KernelSched
  import opened KernelIpc
  import opened KernelOpen
  import opened KernelCore
  import opened KernelFair
  import opened KernelTheorems

  /** How many of the first `i` steps were timer interrupts. */
  function Ticks(steps: seq<Step>, i: nat): (n: nat)
    requires i <= |steps|
    ensures n <= i
  {
    if i == 0 then 0 else Ticks(steps, i - 1) + if steps[i - 1].Tick? then 1 else 0
  }

  lemma {:induction false} TicksGrow(steps: seq<Step>, i: nat, j: nat)
    requires i <= j <= |steps|
    ensures Ticks(steps, i) <= Ticks(steps, j)
    decreases j
  {
    if i < j { TicksGrow(steps, i, j - 1); }
  }

  // Time.

  lemma ScheduleTime(s: State)
    requires s.running.Some?
    ensures Schedule(s).time == s.time
  {
  }

  lemma RegisterTime(s: State, fd: Fd, order: seq<Role>, roles: set<Role>, got: map<Role, Block>)
    requires Alive(s) && fd in Self(s).fds && Self(s).fds[fd].queue in s.queues
    ensures RegisterAll(s, fd, order, roles, got).time == s.time
    ensures RegisterAll(s, fd, order, roles, got).timers == s.timers
    decreases order
  {
    if order != [] && order[0] !in roles {
      RegisterTime(s, fd, order[1..], roles, got);
    } else if order != [] && order[0] in got {
      RegisterTime(Register(s, fd, order[0], got[order[0]]), fd, order[1..], roles, got);
    }
  }

  lemma OpenTime(s: State, got: map<Role, Block>)
    requires Alive(s) && Self(s).pc.Opening? && Self(s).pc.fd in Self(s).fds
    ensures OpenQueue(s, got).time == s.time && OpenQueue(s, got).timers == s.timers
  {
    var fd := Self(s).pc.fd;
    var q := Self(s).fds[fd].queue;
    if q in s.queues || |s.queues| < MAX_NUM_QUEUES {
      var done := SetSelf(s, Self(s).(pc := User));
      var s1 := if q in s.queues then done else done.(queues := done.queues[q := NEW_QUEUE]);
      RegisterTime(s1, fd, ALL_ROLES, Self(s).pc.roles, got);
    }
  }

  lemma WaitTime(s: State, pid: int)
    requires Alive(s)
    ensures WaitFor(s, pid).time == s.time && WaitFor(s, pid).timers == s.timers
  {
  }

  lemma ExitTime(s: State, value: int)
    requires Alive(s) && Self(s).parent.Some?
    ensures Exit(s, value).time == s.time
    ensures Exit(s, value).timers == s.timers || Exit(s, value).timers == DropTimers(s.timers, s.running.value)
  {
  }

  lemma TransferTime(s: State, grant: Grant)
    requires Alive(s) && InCall(s, s.running.value) && UsableGrant(grant)
    requires |Payload(Self(s).pc.msg, s.queues[CallQueue(s, s.running.value)].msgSize)| <= MAX_MESSAGE_SIZE
    ensures Transfer(s, grant).time == s.time && Transfer(s, grant).timers == s.timers
  {
  }

  /** The steps other than those that schedule, sleep or exit touch neither time nor timers. */
  lemma QuietTime(s: State, step: Step)
    requires Enabled(s, step) && !IsSchedule(step) && !step.Sleep? && !step.ExitWith?
    ensures Apply(s, step).time == s.time && Apply(s, step).timers == s.timers
  {
    match step
    case WaitPid(pid) => WaitTime(Trap(s, Wait(pid)), pid);
    case OpenFinish(got) => OpenTime(Trap(s, OtherCall), got);
    case TransferStep(grant) => TransferTime(Trap(s, OtherCall), grant);
    case _ =>
  }

  /** Only the timer interrupt moves the time, by one. */
  lemma StepTime(s: State, step: Step)
    requires Enabled(s, step)
    ensures Apply(s, step).time == s.time + if step.Tick? then 1 else 0
  {
    match step
    case Tick => ScheduleTime(Later(s));
    case Preempt => ScheduleTime(Resume(Trap(s, OtherCall)));
    case Sleep(_) =>
    case ExitWith(value) => ExitTime(Trap(s, OtherCall), value);
    case _ => QuietTime(s, step);
  }

  /** In every state of every run the time is the number of timer interrupts so far. */
  lemma {:induction false} TimeIsTicks(states: seq<State>, steps: seq<Step>, i: nat)
    requires Run(states, steps) && i < |states|
    ensures states[i].time == Ticks(steps, i)
  {
    if i > 0 {
      TimeIsTicks(states, steps, i - 1);
      TimeNext(states, steps, i - 1);
    }
  }

  lemma TimeNext(states: seq<State>, steps: seq<Step>, k: nat)
    requires Run(states, steps) && k < |steps|
    ensures states[k + 1].time == states[k].time + if steps[k].Tick? then 1 else 0
  {
    RunStep(states, steps, k);
    StepTime(states[k], steps[k]);
  }

  // Sleep.

  /** What a schedule does to the timers, and to the waiting list. */
  lemma ScheduleTimers(s: State)
    requires s.running.Some? && TimersOk(s)
    ensures forall t {:trigger t in s.timers} :: t in s.timers ==> (t in Schedule(s).timers <==> t.at > s.time)
    ensures forall t {:trigger t in s.timers} :: t in s.timers && t.at <= s.time ==> t.pid !in Schedule(s).waiting
  {
    DueIsExact(s.timers, s.time);
    forall t {:trigger t in s.timers} | t in s.timers && t.at <= s.time ensures t.pid !in Schedule(s).waiting {
      DueIffOverdue(s.timers, s.time, t.pid);
      assert Overdue(s.timers, s.time, t.pid);
    }
  }

  /** A scheduling step ends exactly the sleeps whose deadline the time has reached by then. */
  lemma SchedulingStep(s: State, step: Step, t: Timer)
    requires CoreInv(s) && Enabled(s, step) && IsSchedule(step) && t in s.timers
    ensures t in Apply(s, step).timers <==> t.at > Apply(s, step).time
    ensures t.at <= Apply(s, step).time ==> t.pid !in Apply(s, step).waiting
  {
    match step
    case Tick =>
      LaterKeeps(s);
      ScheduleTime(Later(s));
      ScheduleTimers(Later(s));
    case Preempt =>
      PreemptedKeeps(s);
      ScheduleTime(Resume(Trap(s, OtherCall)));
      ScheduleTimers(Resume(Trap(s, OtherCall)));
  }

  lemma ExitTimers(s: State, value: int)
    requires CoreInv(s) && Enabled(s, ExitWith(value))
    ensures Apply(s, ExitWith(value)).timers == s.timers
  {
    ExitTime(Trap(s, OtherCall), value);
    NobodyRunsAsleep(s);
    DropTimersNone(s.timers, s.running.value);
  }

  lemma NobodyRunsAsleep(s: State)
    requires TimersOk(s) && Alive(s)
    ensures s.running.value !in Pids(s.timers)
  {
    assert s.running.value in Pids(s.timers) ==> Asleep(s, s.running.value);
  }

  lemma SleepTimers(s: State, cycles: int)
    requires Alive(s)
    ensures forall t {:trigger t in s.timers} :: t in s.timers ==> t in SleepFor(s, cycles).timers
    ensures |s.timers| < MAX_NUM_PROCESSES ==> Timer(s.time + cycles, s.running.value) in SleepFor(s, cycles).timers
  {
    var mine := Timer(s.time + cycles, s.running.value);
    var k := AddPosition(s.timers, mine);
    assert AddTimer(s.timers, mine)[k] == mine;
    forall t {:trigger t in s.timers} | t in s.timers ensures t in AddTimer(s.timers, mine) {
      var i :| 0 <= i < |s.timers| && s.timers[i] == t;
      assert AddTimer(s.timers, mine)[if i < k then i else i + 1] == t;
    }
  }

  /** Between scheduling steps no sleep ends. */
  lemma OtherStepTimers(s: State, step: Step, t: Timer)
    requires CoreInv(s) && Enabled(s, step) && !IsSchedule(step) && t in s.timers
    ensures t in Apply(s, step).timers
  {
    match step
    case Sleep(cycles) => SleepTimers(Trap(s, OtherCall), cycles);
    case ExitWith(value) => ExitTimers(s, value);
    case _ => QuietTime(s, step);
  }

  /** The process that has gone to sleep is parked with its deadline. */
  lemma SleepStarts(states: seq<State>, steps: seq<Step>, i: nat, cycles: int)
    requires Run(states, steps) && i < |steps| && steps[i] == Sleep(cycles)
    ensures states[i].running.Some?
    ensures Timer(states[i].time + cycles, states[i].running.value) in states[i + 1].timers
  {
    RunStep(states, steps, i);
    TimerPoolSuffices(states, steps, i);
    SleepTimers(Trap(states[i], OtherCall), cycles);
  }

  /** Step `k` is no scheduling step, or fewer than `cycles` timer interrupts have passed since
      step `i`. */
  predicate TooEarly(steps: seq<Step>, i: nat, k: nat, cycles: int)
    requires i <= k < |steps|
  {
    IsSchedule(steps[k]) ==> Ticks(steps, k + 1) - Ticks(steps, i) < cycles
  }

  /** No step between `i` and `j` is one that ends the sleep. */
  ghost predicate AllTooEarly(steps: seq<Step>, i: nat, j: nat, cycles: int)
    requires i <= j <= |steps|
  {
    forall k :: i < k < j ==> TooEarly(steps, i, k, cycles)
  }

  lemma FewTicks(steps: seq<Step>, i: nat, j: nat, cycles: int)
    requires i <= j <= |steps| && Ticks(steps, j) - Ticks(steps, i) < cycles
    ensures AllTooEarly(steps, i, j, cycles)
  {
    forall k | i < k < j ensures TooEarly(steps, i, k, cycles) { TicksGrow(steps, k + 1, j); }
  }

  lemma DeadlineStep(states: seq<State>, steps: seq<Step>, k: nat, t: Timer)
    requires Run(states, steps) && k < |steps| && t in states[k].timers
    ensures if IsSchedule(steps[k]) && t.at <= states[k + 1].time then t.pid !in states[k + 1].waiting
            else t in states[k + 1].timers
  {
    RunInv(states, steps, k);
    RunStep(states, steps, k);
    if IsSchedule(steps[k]) {
      SchedulingStep(states[k], steps[k], t);
    } else {
      OtherStepTimers(states[k], steps[k], t);
    }
  }

  lemma EarlyIff(states: seq<State>, steps: seq<Step>, i: nat, k: nat, cycles: int)
    requires Run(states, steps) && i <= k < |steps|
    ensures TooEarly(steps, i, k, cycles) <==>
              !(IsSchedule(steps[k]) && states[i].time + cycles <= states[k + 1].time)
  {
    TimeBetween(states, steps, i, k + 1);
  }

  lemma TimeBetween(states: seq<State>, steps: seq<Step>, i: nat, j: nat)
    requires Run(states, steps) && i <= j < |states|
    ensures states[j].time - states[i].time == Ticks(steps, j) - Ticks(steps, i)
  {
    TimeIsTicks(states, steps, i);
    TimeIsTicks(states, steps, j);
  }

  lemma {:induction false} DeadlineStays(states: seq<State>, steps: seq<Step>, i: nat, j: nat, cycles: int)
    requires Run(states, steps) && i < j < |states| && steps[i] == Sleep(cycles)
    requires AllTooEarly(steps, i, j, cycles)
    ensures states[i].running.Some?
    ensures Timer(states[i].time + cycles, states[i].running.value) in states[j].timers
    decreases j
  {
    SleepStarts(states, steps, i, cycles);
    if i + 1 < j {
      DeadlineStays(states, steps, i, j - 1, cycles);
      EarlyIff(states, steps, i, j - 1, cycles);
      DeadlineStep(states, steps, j - 1, Timer(states[i].time + cycles, states[i].running.value));
    }
  }

  lemma SleeperIsParked(s: State, t: Timer)
    requires TimersOk(s) && t in s.timers
    ensures t.pid in s.waiting && s.running != Some(t.pid)
  {
    var i :| 0 <= i < |s.timers| && s.timers[i] == t;
    assert Pids(s.timers)[i] in Pids(s.timers);
  }

  /** A process that calls sleep stays parked until a scheduling step finds that as many timer
      interrupts have passed as it asked for. */
  lemma SleepLasts(states: seq<State>, steps: seq<Step>, i: nat, j: nat, cycles: int)
    requires Run(states, steps) && i < j < |states| && steps[i] == Sleep(cycles)
    requires AllTooEarly(steps, i, j, cycles)
    ensures states[i].running.Some?
    ensures states[i].running.value in states[j].waiting && states[j].running != states[i].running
  {
    DeadlineStays(states, steps, i, j, cycles);
    RunInv(states, steps, j);
    SleeperIsParked(states[j], Timer(states[i].time + cycles, states[i].running.value));
  }

  /** In particular it is parked as long as fewer have passed. */
  lemma SleepsLongEnough(states: seq<State>, steps: seq<Step>, i: nat, j: nat, cycles: int)
    requires Run(states, steps) && i < j < |states| && steps[i] == Sleep(cycles)
    requires Ticks(steps, j) - Ticks(steps, i) < cycles
    ensures states[i].running.Some? && states[i].running.value in states[j].waiting
  {
    FewTicks(steps, i, j, cycles);
    SleepLasts(states, steps, i, j, cycles);
  }

  /** And the first such scheduling step takes it out of the waiting list. */
  lemma SleepEnds(states: seq<State>, steps: seq<Step>, i: nat, j: nat, cycles: int)
    requires Run(states, steps) && i < j < |steps| && steps[i] == Sleep(cycles)
    requires AllTooEarly(steps, i, j, cycles)
    requires IsSchedule(steps[j]) && Ticks(steps, j + 1) - Ticks(steps, i) >= cycles
    ensures states[i].running.Some?
    ensures var p, t := states[i].running.value, states[j + 1];
            p !in t.waiting && (p in t.ready || t.running == Some(p))
  {
    var p := states[i].running.value;
    DeadlineStays(states, steps, i, j, cycles);
    EarlyIff(states, steps, i, j, cycles);
    DeadlineStep(states, steps, j, Timer(states[i].time + cycles, p));
    AwakeAfter(states, steps, j, p, Timer(states[i].time + cycles, p));
  }

  lemma AwakeAfter(states: seq<State>, steps: seq<Step>, j: nat, p: Pid, t: Timer)
    requires Run(states, steps) && j < |steps| && IsSchedule(steps[j])
    requires t in states[j].timers && t.pid == p && p !in states[j + 1].waiting
    ensures p in states[j + 1].ready || states[j + 1].running == Some(p)
  {
    RunInv(states, steps, j);
    RunInv(states, steps, j + 1);
    RunStep(states, steps, j);
    SleeperIsParked(states[j], t);
    ScheduledStays(states[j], steps[j], p);
  }

  /** A scheduling step neither buries nor frees a process. */
  lemma ScheduledStays(s: State, step: Step, p: Pid)
    requires CoreInv(s) && Enabled(s, step) && IsSchedule(step) && p in s.procs && p !in s.zombie
    ensures p in Apply(s, step).procs && p !in Apply(s, step).zombie
  {
    var r := if step.Tick? then Later(s) else Resume(Trap(s, OtherCall));
    assert Apply(s, step).procs.Keys == r.procs.Keys && Apply(s, step).zombie == r.zombie by {
      RotateOnlyStatus(WakeDue(r));
    }
  }
}
