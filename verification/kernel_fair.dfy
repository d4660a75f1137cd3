/** Waiting in the ready list is bounded, although woken sleepers go to its front. */
module KernelFair {
  import opened Seqs
  import opened Constants
  import opened Timers
  import opened Payloads
  import opened KernelModel
  import opened KernelRun
  import opened KernelInv
  import opened KernelSched
  import opened KernelIpc
  import opened KernelCore

  /** How many processes stand in front of `p`. */
  function Ahead(ready: seq<Pid>, p: Pid): (k: nat)
    requires p in ready
    ensures k < |ready| && ready[k] == p
  {
    if ready[0] == p then 0 else 1 + Ahead(ready[1..], p)
  }

  lemma {:induction false} AheadAppend(ready: seq<Pid>, more: seq<Pid>, p: Pid)
    requires p in ready
    ensures Ahead(ready + more, p) == Ahead(ready, p)
  {
    if ready[0] != p {
      AheadAppend(ready[1..], more, p);
      assert (ready + more)[1..] == ready[1..] + more;
    }
  }

  lemma {:induction false} AheadPrepend(front: seq<Pid>, ready: seq<Pid>, p: Pid)
    requires p in ready && p !in front
    ensures Ahead(front + ready, p) == |front| + Ahead(ready, p)
  {
    if front == [] {
      assert front + ready == ready;
    } else {
      assert front[0] != p;
      AheadPrepend(front[1..], ready, p);
      assert (front + ready)[1..] == front[1..] + ready;
    }
  }

  /** The distance of a ready process from the processor: who stands ahead of it, and who
      may still jump the queue. */
  function Distance(s: State, p: Pid): nat
    requires p in s.ready
  {
    Ahead(s.ready, p) + |s.timers|
  }

  predicate IsSchedule(step: Step) {
    step.Tick? || step.Preempt?
  }

  /** `p` runs in `t`, or is still ready and at least `gain` closer than in `s`. */
  predicate Closer(s: State, t: State, p: Pid, gain: nat)
    requires p in s.ready
  {
    t.running == Some(p) || (p in t.ready && Distance(t, p) + gain <= Distance(s, p))
  }

  /** Sleepers that are woken move ahead by exactly the number of timers that go. */
  lemma WakeDueDistance(s: State, p: Pid)
    requires Placed(s) && TimersOk(s) && p in s.ready
    ensures p in WakeDue(s).ready && Distance(WakeDue(s), p) == Distance(s, p)
  {
    DueAreAsleep(s);
    AheadPrepend(Due(s.timers, s.time), s.ready, p);
  }

  /** Losing the head and gaining a tail brings everyone else one step closer. */
  lemma PopAndPush(ready: seq<Pid>, tail: seq<Pid>, p: Pid)
    requires p in ready && ready[0] != p
    ensures p in ready[1..] + tail && Ahead(ready[1..] + tail, p) + 1 == Ahead(ready, p)
  {
    AheadAppend(ready[1..], tail, p);
  }

  lemma ScheduleCloser(s: State, p: Pid)
    requires Placed(s) && TimersOk(s) && s.running.Some? && p in s.ready
    ensures Closer(s, Schedule(s), p, 1)
  {
    WakeDueDistance(s, p);
    var w := WakeDue(s);
    if w.ready[0] != p {
      PopAndPush(w.ready, [s.running.value], p);
      PopAndPush(w.ready, [], p);
      assert w.ready[1..] + [] == w.ready[1..];
    }
  }

  /** sleep costs one timer and dispatches one process; wait and exit only dispatch. */
  lemma TakeNextCloser(s: State, t: State, p: Pid, timers: nat)
    requires p in s.ready && TakeNext(s.(timers := t.timers)).ready == t.ready && t.running == TakeNext(s).running
    requires |t.timers| <= |s.timers| + timers && timers <= 1
    ensures Closer(s, t, p, 1 - timers)
  {
    if s.ready[0] != p {
      PopAndPush(s.ready, [], p);
      assert s.ready[1..] + [] == s.ready[1..];
    }
  }

  lemma UnchangedCloser(s: State, t: State, p: Pid, more: seq<Pid>)
    requires p in s.ready && t.ready == s.ready + more && |t.timers| <= |s.timers|
    ensures Closer(s, t, p, 0)
  {
    AheadAppend(s.ready, more, p);
  }

  lemma ExitCloser(s: State, value: int, p: Pid)
    requires Alive(s) && Self(s).parent.Some? && p in s.ready
    ensures Closer(s, Exit(s, value), p, 0)
  {
    var parent := Self(s).parent.value;
    var z := BecomeZombie(s, value);
    if ParentWaits(z, parent, s.running.value) {
      assert Exit(s, value).ready == s.ready + [];
      UnchangedCloser(s, Exit(s, value), p, []);
    } else {
      TakeNextCloser(s, Exit(s, value), p, 0);
    }
  }

  lemma {:induction false} RegisterAllReady(s: State, fd: Fd, order: seq<Role>, roles: set<Role>, got: map<Role, Block>)
    requires Alive(s) && fd in Self(s).fds && Self(s).fds[fd].queue in s.queues
    ensures var t := RegisterAll(s, fd, order, roles, got); t.ready == s.ready && t.timers == s.timers
    decreases order
  {
    if order != [] {
      if order[0] !in roles {
        RegisterAllReady(s, fd, order[1..], roles, got);
      } else if order[0] in got {
        RegisterAllReady(Register(s, fd, order[0], got[order[0]]), fd, order[1..], roles, got);
      }
    }
  }

  lemma OpenFinishReady(s: State, got: map<Role, Block>)
    requires Alive(s) && Self(s).pc.Opening? && Self(s).pc.fd in Self(s).fds
    ensures OpenQueue(s, got).ready == s.ready && OpenQueue(s, got).timers == s.timers
  {
    var fd, roles := Self(s).pc.fd, Self(s).pc.roles;
    var q := Self(s).fds[fd].queue;
    var done := SetSelf(s, Self(s).(pc := User));
    if !(q !in s.queues && |s.queues| >= MAX_NUM_QUEUES) {
      var s1 := if q in s.queues then done else done.(queues := done.queues[q := NEW_QUEUE]);
      RegisterAllReady(s1, fd, ALL_ROLES, roles, got);
    }
  }

  lemma TickCloser(s: State, p: Pid)
    requires Placed(s) && TimersOk(s) && s.running.Some? && p in s.ready
    ensures Closer(s, Schedule(Later(s)), p, 1)
  {
    ScheduleCloser(Later(s), p);
  }

  lemma PreemptCloser(s: State, p: Pid)
    requires CoreInv(s) && Enabled(s, Preempt) && p in s.ready
    ensures Closer(s, Apply(s, Preempt), p, 1)
  {
    PreemptedKeeps(s);
    ScheduleCloser(Resume(Trap(s, OtherCall)), p);
  }

  lemma SleepCloser(s: State, cycles: int, p: Pid)
    requires Alive(s) && p in s.ready
    ensures Closer(s, SleepFor(s, cycles), p, 0)
  {
    var t := SleepFor(s, cycles);
    if |s.timers| >= MAX_NUM_PROCESSES {
      assert t.ready == s.ready + [];
      UnchangedCloser(s, t, p, []);
    } else {
      TakeNextCloser(s, t, p, 1);
    }
  }

  lemma SpawnCloser(s: State, p: Pid)
    requires Alive(s) && p in s.ready
    ensures Closer(s, Spawn(s), p, 0)
  {
    UnchangedCloser(s, Spawn(s), p, [s.lastPid]);
  }

  lemma OpenFinishCloser(s: State, got: map<Role, Block>, p: Pid)
    requires Alive(s) && Self(s).pc.Opening? && Self(s).pc.fd in Self(s).fds && p in s.ready
    ensures Closer(s, OpenQueue(s, got), p, 0)
  {
    OpenFinishReady(s, got);
    assert OpenQueue(s, got).ready == s.ready + [];
    UnchangedCloser(s, OpenQueue(s, got), p, []);
  }

  /** No step takes a ready process further from the processor, and every scheduling step
      brings it closer or runs it. */
  lemma StepCloser(s: State, step: Step, p: Pid)
    requires CoreInv(s) && Enabled(s, step) && p in s.ready
    ensures Closer(s, Apply(s, step), p, if IsSchedule(step) then 1 else 0)
  {
    match step
    case Tick => TickCloser(s, p);
    case Preempt => PreemptCloser(s, p);
    case Sleep(cycles) => SleepCloser(Trap(s, OtherCall), cycles, p);
    case WaitPid(pid) => WaitCloser(s, pid, p);
    case ExitWith(value) => ExitCloser(Trap(s, OtherCall), value, p);
    case SpawnChild => SpawnCloser(Trap(s, OtherCall), p);
    case WakeStep => WakeUpCloser(s, p);
    case OpenFinish(got) => OpenFinishCloser(Trap(s, OtherCall), got, p);
    case _ => OtherCloser(s, step, p);
  }

  lemma WaitCloser(s: State, pid: int, p: Pid)
    requires Enabled(s, WaitPid(pid)) && p in s.ready
    ensures Closer(s, Apply(s, WaitPid(pid)), p, 0)
  {
    var r, t := Trap(s, Wait(pid)), Apply(s, WaitPid(pid));
    if Self(r).children == [] || StatusOf(r, Awaited(r, Self(r).children, pid)) == Some(Zombie) {
      assert t.ready == s.ready + [];
      UnchangedCloser(s, t, p, []);
    } else {
      TakeNextCloser(s, t, p, 0);
    }
  }

  lemma WakeUpCloser(s: State, p: Pid)
    requires Enabled(s, WakeStep) && p in s.ready
    ensures Closer(s, Apply(s, WakeStep), p, 0)
  {
    var t := Apply(s, WakeStep);
    if t.ready == s.ready {
      assert s.ready + [] == s.ready;
      UnchangedCloser(s, t, p, []);
    } else {
      UnchangedCloser(s, t, p, t.ready[|s.ready|..]);
    }
  }

  lemma OtherCloser(s: State, step: Step, p: Pid)
    requires Enabled(s, step) && p in s.ready
    requires step.OpenStart? || step.CloseStart? || step.CloseContinue? || step.CallStart? || step.TransferStep?
             || step.MaxStep? || step.SizeStep? || step.UnlinkStep?
    ensures Closer(s, Apply(s, step), p, 0)
  {
    assert Apply(s, step).ready == s.ready + [];
    UnchangedCloser(s, Apply(s, step), p, []);
  }

  function Schedules(steps: seq<Step>): nat {
    if steps == [] then 0
    else (if IsSchedule(steps[0]) then 1 else 0) + Schedules(steps[1..])
  }

  lemma RunsInTail(states: seq<State>, i: nat, p: Pid)
    requires i <= |states| && exists j :: 0 < j < |states[i..]| && states[i..][j].running == Some(p)
    ensures exists j :: i < j < |states| && states[j].running == Some(p)
  {
    var j :| 0 < j < |states[i..]| && states[i..][j].running == Some(p);
    assert states[i + j].running == Some(p);
  }

  /** A ready process runs within as many scheduling steps as its distance plus one. */
  lemma {:induction false} RunsWithinDistance(states: seq<State>, steps: seq<Step>, p: Pid)
    requires Path(states, steps) && CoreInv(states[0]) && p in states[0].ready
    requires Schedules(steps) > Distance(states[0], p)
    ensures exists j :: 0 < j < |states| && states[j].running == Some(p)
  {
    if steps != [] {
      RunStep(states, steps, 0);
      StepCloser(states[0], steps[0], p);
      StepKeepsCore(states[0], steps[0]);
      if states[1].running != Some(p) {
        PathDrop(states, steps, 1);
        RunsWithinDistance(states[1..], steps[1..], p);
        RunsInTail(states, 1, p);
      }
    }
  }
}
