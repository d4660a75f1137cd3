/** How many processes there are, and how many blocks the pool for the entries of children
    has lost. */
module KernelCounts {
  import opened Seqs
  import opened Constants
  import opened Timers
  import opened Payloads
  import opened KernelModel
  import opened KernelRun
  import opened KernelInv
  import opened KernelSched
  import opened KernelCore
  import opened KernelFamily

  /** Every pid that was given out belongs to a live process or was reported to a parent, init
      is alive and the pool of process control blocks was never exceeded. */
  predicate Balanced(s: State) {
    0 in s.procs && |s.procs| + |s.reports| == s.lastPid && |s.procs| <= MAX_NUM_PROCESSES
  }

  /** The entries that exit took out of a list of children without freeing them. */
  function LeftBehind(reports: seq<Report>): nat {
    |reports| - Freed(reports)
  }

  lemma FreedAppend(reports: seq<Report>, r: Report)
    ensures Freed(reports + [r]) == Freed(reports) + if r.freed then 1 else 0
  {
    assert (reports + [r])[..|reports|] == reports;
  }

  predicate SameCounts(s: State, t: State) {
    t.procs.Keys == s.procs.Keys && t.reports == s.reports && t.lastPid == s.lastPid && s.exits.Keys <= t.exits.Keys
  }

  lemma SameBalance(s: State, t: State)
    requires SameCounts(s, t) && Balanced(s)
    ensures Balanced(t)
  {
    assert |t.procs.Keys| == |t.procs| && |s.procs.Keys| == |s.procs|;
  }

  /** A process has gone, and was reported. */
  predicate OneReported(s: State, t: State) {
    && |t.reports| == |s.reports| + 1 && t.reports[..|s.reports|] == s.reports && t.lastPid == s.lastPid
    && 0 in t.procs && s.exits.Keys <= t.exits.Keys
    && exists c :: c in s.procs && t.procs.Keys == s.procs.Keys - {c}
  }

  lemma ReportedBalance(s: State, t: State)
    requires OneReported(s, t) && Balanced(s)
    ensures Balanced(t)
  {
    var c :| c in s.procs && t.procs.Keys == s.procs.Keys - {c};
    assert |t.procs.Keys| == |t.procs| && |s.procs.Keys| == |s.procs|;
  }

  lemma ReportedLeaves(s: State, t: State)
    requires OneReported(s, t)
    ensures LeftBehind(s.reports) <= LeftBehind(t.reports)
  {
    assert t.reports == s.reports + [t.reports[|s.reports|]];
    FreedAppend(s.reports, t.reports[|s.reports|]);
  }

  lemma SpawnBalance(s: State)
    requires Balanced(s) && Alive(s) && |s.procs| < MAX_NUM_PROCESSES && s.lastPid !in s.procs
    ensures Balanced(Spawn(s))
  {
    assert Spawn(s).procs.Keys == s.procs.Keys + {s.lastPid};
    assert |Spawn(s).procs.Keys| == |Spawn(s).procs| && |s.procs.Keys| == |s.procs|;
  }

  lemma WaitCounts(s: State, pid: int)
    requires Alive(s) && FamilyOk(s) && 0 in s.procs
    ensures SameCounts(s, WaitFor(s, pid)) || OneReported(s, WaitFor(s, pid))
  {
    if Self(s).children != [] {
      var c := Awaited(s, Self(s).children, pid);
      AwaitedMeaning(s, Self(s).children, pid);
      assert c in s.procs[s.running.value].children && s.procs[c].parent.Some?;
      if StatusOf(s, c) == Some(Zombie) {
        assert WaitFor(s, pid).procs.Keys == s.procs.Keys - {c};
      }
    }
  }

  lemma ExitCounts(s: State, value: int)
    requires Alive(s) && FamilyOk(s) && 0 in s.procs && Self(s).parent.Some?
    ensures SameCounts(s, Exit(s, value)) || OneReported(s, Exit(s, value))
  {
    var p := s.running.value;
    assert s.procs[p].parent.Some?;
    var z := BecomeZombie(s, value);
    if ParentWaits(z, Self(s).parent.value, p) {
      assert Exit(s, value).procs.Keys == s.procs.Keys - {p};
    }
  }

  lemma ScheduleCounts(s: State)
    requires CoreInv(s) && Alive(s)
    ensures SameCounts(s, Schedule(s))
  {
    WakeDueQuiet(s);
    WakeDueKeeps(s);
    RotateQuiet(WakeDue(s));
  }

  lemma TickCounts(s: State)
    requires CoreInv(s) && Alive(s)
    ensures SameCounts(s, Schedule(Later(s)))
  {
    LaterKeeps(s);
    ScheduleCounts(Later(s));
  }

  lemma PreemptCounts(s: State)
    requires CoreInv(s) && Enabled(s, Preempt)
    ensures SameCounts(s, Apply(s, Preempt))
  {
    PreemptedKeeps(s);
    var r := Resume(Trap(s, OtherCall));
    ResumedCounts(s);
    ScheduleCounts(r);
    SameCountsTrans(s, r, Schedule(r));
  }

  lemma ResumedCounts(s: State)
    requires Alive(s)
    ensures Alive(Trap(s, OtherCall)) && SameCounts(s, Resume(Trap(s, OtherCall)))
  {
  }

  lemma SameCountsTrans(s: State, t: State, u: State)
    requires SameCounts(s, t) && SameCounts(t, u)
    ensures SameCounts(s, u)
  {
  }

  lemma SleepCounts(s: State, cycles: int)
    requires CoreInv(s) && Enabled(s, Sleep(cycles))
    ensures SameCounts(s, Apply(s, Sleep(cycles)))
  {
    TrapKeeps(s, OtherCall);
    SleepQuiet(Trap(s, OtherCall), cycles);
  }

  lemma WaitStepCounts(s: State, pid: int)
    requires FamilyOk(s) && 0 in s.procs && Enabled(s, WaitPid(pid))
    ensures SameCounts(s, Apply(s, WaitPid(pid))) || OneReported(s, Apply(s, WaitPid(pid)))
  {
    FamilyFrame(s, Trap(s, Wait(pid)));
    WaitCounts(Trap(s, Wait(pid)), pid);
  }

  lemma ExitStepCounts(s: State, value: int)
    requires FamilyOk(s) && 0 in s.procs && Enabled(s, ExitWith(value))
    ensures SameCounts(s, Apply(s, ExitWith(value))) || OneReported(s, Apply(s, ExitWith(value)))
  {
    FamilyFrame(s, Trap(s, OtherCall));
    ExitCounts(Trap(s, OtherCall), value);
  }

  lemma QueueCounts(s: State, step: Step)
    requires CoreInv(s) && Enabled(s, step) && (step.OpenFinish? || step.TransferStep? || step.WakeStep?)
    ensures SameCounts(s, Apply(s, step))
  {
    match step
    case OpenFinish(got) => OpenFinishQuiet(Trap(s, OtherCall), got);
    case TransferStep(grant) => TransferQuiet(s, grant);
    case WakeStep => WakeUpQuiet(s);
  }

  /** The calls other than wait, exit and spawn neither add nor remove a process. */
  lemma OtherCounts(s: State, step: Step)
    requires CoreInv(s) && Enabled(s, step) && !step.WaitPid? && !step.ExitWith? && !step.SpawnChild?
    ensures SameCounts(s, Apply(s, step))
  {
    match step
    case Tick => TickCounts(s);
    case Preempt => PreemptCounts(s);
    case Sleep(cycles) => SleepCounts(s, cycles);
    case OpenFinish(got) => QueueCounts(s, step);
    case TransferStep(grant) => QueueCounts(s, step);
    case WakeStep => QueueCounts(s, step);
    case _ => QuietSteps(s, step);
  }

  lemma StepCounts(s: State, step: Step)
    requires CoreInv(s) && FamilyOk(s) && 0 in s.procs && Enabled(s, step) && !step.SpawnChild?
    ensures SameCounts(s, Apply(s, step)) || OneReported(s, Apply(s, step))
  {
    if step.WaitPid? {
      WaitStepCounts(s, step.pid);
    } else if step.ExitWith? {
      ExitStepCounts(s, step.value);
    } else {
      OtherCounts(s, step);
    }
  }

  /** Every step keeps the balance, and what was left behind stays behind. */
  lemma StepKeepsBalance(s: State, step: Step)
    requires CoreInv(s) && FamilyOk(s) && Balanced(s) && Enabled(s, step)
    ensures Balanced(Apply(s, step)) && LeftBehind(s.reports) <= LeftBehind(Apply(s, step).reports)
  {
    var t := Apply(s, step);
    if step.SpawnChild? {
      SameBalance(s, Trap(s, OtherCall));
      SpawnBalance(Trap(s, OtherCall));
    } else {
      StepCounts(s, step);
      if SameCounts(s, t) {
        SameBalance(s, t);
      } else {
        ReportedBalance(s, t);
        ReportedLeaves(s, t);
      }
    }
  }

  /** The exit finds its parent waiting for it. */
  predicate HandsOver(s: State, value: int)
    requires Enabled(s, ExitWith(value))
  {
    ParentWaits(BecomeZombie(Trap(s, OtherCall), value), Self(s).parent.value, s.running.value)
  }

  lemma ExitReports(s: State, value: int)
    requires Enabled(s, ExitWith(value))
    ensures Apply(s, ExitWith(value)).reports ==
              if HandsOver(s, value)
              then s.reports + [Report(Self(s).parent.value, s.running.value, value, false)] else s.reports
  {
    assert Self(Trap(s, OtherCall)).parent == Self(s).parent;
  }

  lemma WaitReports(s: State, pid: int)
    requires FamilyOk(s) && Enabled(s, WaitPid(pid))
    ensures var t := Apply(s, WaitPid(pid));
            || t.reports == s.reports
            || (|t.reports| == |s.reports| + 1 && t.reports == s.reports + [t.reports[|s.reports|]]
                && t.reports[|s.reports|].freed)
  {
    var r := Trap(s, Wait(pid));
    if Self(r).children != [] { AwaitedMeaning(r, Self(r).children, pid); }
  }

  /** The step is an exit that finds the parent waiting. */
  predicate IsHandOver(s: State, step: Step) {
    Enabled(s, step) && step.ExitWith? && HandsOver(s, step.value)
  }

  /** A step loses an entry exactly when it is an exit that finds the parent waiting. */
  lemma StepLeaves(s: State, step: Step)
    requires CoreInv(s) && FamilyOk(s) && Enabled(s, step)
    ensures LeftBehind(Apply(s, step).reports) ==
              LeftBehind(s.reports) + if IsHandOver(s, step) then 1 else 0
  {
    var t := Apply(s, step);
    if step.ExitWith? {
      ExitReports(s, step.value);
      FreedAppend(s.reports, Report(Self(s).parent.value, s.running.value, step.value, false));
    } else if step.WaitPid? {
      WaitReports(s, step.pid);
      if t.reports != s.reports { FreedAppend(s.reports, t.reports[|s.reports|]); }
    } else if !step.SpawnChild? {
      OtherCounts(s, step);
    }
  }

  /** How many of the first `i` steps were exits that found the parent waiting. */
  function HandOvers(states: seq<State>, steps: seq<Step>, i: nat): nat
    requires i <= |steps| <= |states|
  {
    if i == 0 then 0
    else HandOvers(states, steps, i - 1) + if IsHandOver(states[i - 1], steps[i - 1]) then 1 else 0
  }

  lemma {:induction false} HandOversGrow(states: seq<State>, steps: seq<Step>, i: nat, j: nat)
    requires i <= j <= |steps| <= |states|
    ensures HandOvers(states, steps, i) <= HandOvers(states, steps, j)
    decreases j
  {
    if i < j { HandOversGrow(states, steps, i, j - 1); }
  }

  lemma NoPointerLeft(s: State)
    requires Balanced(s) && LeftBehind(s.reports) >= MAX_NUM_PROCESSES
    ensures !Enabled(s, SpawnChild)
  {
    assert |s.procs| >= 1 by { assert 0 in s.procs; }
  }
}
