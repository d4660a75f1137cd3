/** What the calls answer and leave behind, in terms of the state before: exit, wait, spawn and
    sleep. */
module KernelAnswers {
  import opened Seqs
  import opened Constants
  import opened Timers
  import opened Payloads
  import opened KernelModel
  import opened KernelRun
  import opened KernelInv
  import opened KernelSched
  import opened KernelIpc
  import opened KernelOpen
  import opened KernelCore
  import opened KernelFamily
  import opened KernelQueues
  import opened KernelTheorems

  // Exit.

  /** The parent of the running process is parked in a wait for it, or for any child. */
  predicate ParentAsks(s: State)
    requires Alive(s) && Self(s).parent.Some?
  {
    var parent := Self(s).parent.value;
    AwaitsChild(s, parent) && (s.procs[parent].call.pid == 0 || s.procs[parent].call.pid == s.running.value)
  }

  lemma AsksIff(s: State, p: Pid)
    requires CoreInv(s) && p in s.procs && s.running != Some(p)
    ensures s.procs[p].status == Waiting && s.procs[p].call.Wait? <==> AwaitsChild(s, p)
  {
    if p in s.waiting {
      assert p in Pids(s.timers) ==> Asleep(s, p);
      if OnQueue(s, p) { QueuedIsNotParked(s, p); }
    }
  }

  /** The entries that the descriptors of a process name. */
  function Named(pr: Proc): set<Block> {
    set fd, role | fd in pr.fds && role in pr.fds[fd].slots :: pr.fds[fd].slots[role]
  }

  /** The user lists lose the entries in `gone` and nothing else about the queues changes. */
  ghost predicate ListsLose(s: State, t: State, gone: set<Block>) {
    && t.queues.Keys == s.queues.Keys
    && forall q {:trigger t.queues[q]} :: q in s.queues ==>
         && SameContents(s.queues[q], t.queues[q])
         && forall role :: Users(t.queues[q], role) == Without(Users(s.queues[q], role), gone)
  }

  /** Processes other than the given ones are as before. */
  ghost predicate OthersSame(s: State, t: State, ps: set<Pid>) {
    forall p {:trigger t.procs[p]} {:trigger s.procs[p]} :: p in s.procs && p !in ps ==>
      p in t.procs && t.procs[p] == s.procs[p]
  }

  /** Nobody but the listed fields of the state changes in an exit. */
  predicate ExitFrame(s: State, t: State) {
    t == s.(running := t.running, ready := t.ready, waiting := t.waiting, zombie := t.zombie, procs := t.procs,
            queues := t.queues, reports := t.reports, exits := t.exits)
  }

  /** What exit finds: the process is in no list, and its parent is somebody else. */
  lemma ExitFacts(s: State, value: int)
    requires CoreInv(s) && FamilyOk(s) && Enabled(s, ExitWith(value))
    ensures var p, parent := s.running.value, Self(s).parent.value;
            && parent != p && parent in s.procs && p !in s.waiting && p !in s.ready && p !in s.zombie
            && p !in Pids(s.timers) && !Linked(s, p)
            && (ParentAsks(s) <==> s.procs[parent].status == Waiting && s.procs[parent].call.Wait?
                                   && (s.procs[parent].call.pid == 0 || s.procs[parent].call.pid == p))
  {
    UserIsUnparked(s);
    assert s.procs[s.running.value].parent.Some?;
    AsksIff(s, Self(s).parent.value);
    assert s.running.value in Pids(s.timers) ==> Asleep(s, s.running.value);
  }

  /** Which of its two branches exit takes. */
  lemma ExitBranch(s: State, value: int)
    requires Alive(s) && Self(s).parent.Some? && Self(s).children == [] && !Linked(s, s.running.value)
    requires Self(s).parent.value in s.procs && Self(s).parent.value != s.running.value
    ensures var parent, z := s.procs[Self(s).parent.value], ZombieAlone(s, value);
            Exit(s, value) ==
              if parent.status == Waiting && parent.call.Wait?
                 && (parent.call.pid == 0 || parent.call.pid == s.running.value)
              then HandOver(z, Self(s).parent.value) else DispatchHead(z)
  {
    ChildlessZombie(s, value);
  }

  lemma LastOut(xs: seq<Pid>, p: Pid)
    requires NoDup(xs) && p !in xs
    ensures Without(xs + [p], {p}) == xs
  {
    NoDupConcatNew(xs, p);
    WithoutAt(xs + [p], |xs|);
  }

  /** The parent is told: it runs, with the pid as its result and without the child, which is gone
      and so are its entries in the user lists; its value is reported. Nothing else changes. */
  ghost predicate ToParent(s: State, t: State, value: int)
    requires Alive(s) && Self(s).parent.Some?
  {
    var p, parent := s.running.value, Self(s).parent.value;
    && ExitFrame(s, t) && t.running == Some(parent) && t.ready == s.ready && t.zombie == s.zombie
    && t.waiting == Without(s.waiting, {parent})
    && parent in s.procs && t.procs.Keys == s.procs.Keys - {p} && OthersSame(s, t, {p, parent}) && parent in t.procs
    && t.procs[parent] == s.procs[parent].(status := Running, ret := p,
                                           children := Without(s.procs[parent].children, {p}))
    && t.reports == s.reports + [Report(parent, p, value, false)] && t.exits == s.exits[p := value]
    && ListsLose(s, t, Named(Self(s)))
  }

  lemma HandOverForm(s: State, value: int)
    requires Alive(s) && Self(s).parent.Some? && Self(s).parent.value in s.procs
    requires Self(s).parent.value != s.running.value && NoDup(s.zombie)
    requires s.running.value !in s.zombie && s.running.value !in Pids(s.timers)
    ensures ToParent(s, HandOver(ZombieAlone(s, value), Self(s).parent.value), value)
  {
    LastOut(s.zombie, s.running.value);
    DropTimersNone(s.timers, s.running.value);
    HandOverLists(s, value, Self(s).parent.value);
  }

  lemma HandOverLists(s: State, value: int, parent: Pid)
    requires Alive(s) && parent in s.procs
    ensures ListsLose(s, HandOver(ZombieAlone(s, value), parent), Named(Self(s)))
  {
    assert Named(Self(ZombieAlone(s, value))) == Named(Self(s));
  }

  lemma ToParentTrap(s: State, t: State, value: int)
    requires Alive(s) && Self(s).parent.Some? && Self(s).parent.value != s.running.value
    requires ToParent(Trap(s, OtherCall), t, value)
    ensures ToParent(s, t, value)
  {
    assert Named(Self(Trap(s, OtherCall))) == Named(Self(s));
  }

  /** The process is a zombie with its value, nobody is woken, and the head of the ready list runs
      next. Nothing else changes. */
  ghost predicate ToZombie(s: State, t: State, value: int, call: Call)
    requires Alive(s)
  {
    var p := s.running.value;
    && ExitFrame(s, t) && t.waiting == s.waiting && t.zombie == s.zombie + [p] && t.queues == s.queues
    && t.reports == s.reports && t.exits == s.exits[p := value] && t.procs.Keys == s.procs.Keys
    && t.procs[p] == Self(s).(call := call, value := value, status := Zombie)
    && NextRuns(s, t, p)
  }

  /** The head of the ready list runs, and is marked so; without one the system stops. */
  ghost predicate NextRuns(s: State, t: State, p: Pid) {
    if s.ready == [] then t.running == None && t.ready == [] && OthersSame(s, t, {p})
    else
      && t.running == Some(s.ready[0]) && t.ready == s.ready[1..] && OthersSame(s, t, {p, s.ready[0]})
      && s.ready[0] in s.procs && s.ready[0] in t.procs
      && t.procs[s.ready[0]] == s.procs[s.ready[0]].(status := Running)
  }

  lemma DispatchForm(s: State, value: int)
    requires Alive(s) && s.running.value !in s.ready && (s.ready != [] ==> s.ready[0] in s.procs)
    ensures ToZombie(s, DispatchHead(ZombieAlone(s, value)), value, Self(s).call)
  {
    if s.ready != [] { assert s.ready[0] in s.ready; }
  }

  lemma ToZombieTrap(s: State, t: State, value: int)
    requires Alive(s) && s.running.value !in s.ready && ToZombie(Trap(s, OtherCall), t, value, OtherCall)
    ensures ToZombie(s, t, value, OtherCall)
  {
    if s.ready != [] { assert s.ready[0] in s.ready; }
  }

  /** Exit when the parent asks. */
  lemma ExitToParent(s: State, value: int)
    requires CoreInv(s) && FamilyOk(s) && Enabled(s, ExitWith(value)) && ParentAsks(s)
    ensures ToParent(s, Apply(s, ExitWith(value)), value) && Self(s).parent.value in s.waiting
  {
    ExitFacts(s, value);
    ExitBranch(Trap(s, OtherCall), value);
    HandOverForm(Trap(s, OtherCall), value);
    ToParentTrap(s, Apply(s, ExitWith(value)), value);
  }

  /** Exit otherwise. */
  lemma ExitToZombie(s: State, value: int)
    requires CoreInv(s) && FamilyOk(s) && Enabled(s, ExitWith(value)) && !ParentAsks(s)
    ensures ToZombie(s, Apply(s, ExitWith(value)), value, OtherCall)
  {
    ExitFacts(s, value);
    ExitBranch(Trap(s, OtherCall), value);
    if s.ready != [] { assert s.ready[0] in s.ready; }
    DispatchForm(Trap(s, OtherCall), value);
    ToZombieTrap(s, Apply(s, ExitWith(value)), value);
  }

  /** The parent of the running process is init, parked in a wait for it or for any child. */
  predicate InitAsks(s: State)
    requires Alive(s) && 0 in s.procs
  {
    && Self(s).parent == Some(0) && s.procs[0].status == Waiting && s.procs[0].call.Wait?
    && (s.procs[0].call.pid == 0 || s.procs[0].call.pid == s.running.value)
  }

  /** The children of a process that exits stand, in their order, behind those of init; if the exit
      is reported to init, the process itself goes from the list. */
  lemma AdoptionOutcome(s: State, value: int)
    requires Placed(s) && FamilyOk(s) && Alive(s) && Self(s).parent.Some? && 0 in s.procs
    ensures var t, adopted := Exit(s, value), s.procs[0].children + Self(s).children;
            0 in t.procs && t.procs[0].children == if InitAsks(s) then Without(adopted, {s.running.value}) else adopted
  {
    assert s.procs[s.running.value].parent.Some?;
    ZombieAdopts(s, value);
    if s.ready != [] { assert s.ready[0] in s.ready; }
  }

  lemma ZombieAdopts(s: State, value: int)
    requires Alive(s) && 0 in s.procs && s.running.value != 0
    ensures var z, p := BecomeZombie(s, value), s.running.value;
            && z.ready == s.ready && z.running == s.running
            && z.procs == s.procs[p := Self(s).(children := [], value := value, status := Zombie)]
                                 [0 := s.procs[0].(children := s.procs[0].children + Self(s).children)]
  {
  }

  /** The parent leaves the waiting list exactly when it asks. */
  lemma ExitWakesIff(s: State, value: int)
    requires CoreInv(s) && FamilyOk(s) && Enabled(s, ExitWith(value))
    ensures Self(s).parent.value in s.waiting && Self(s).parent.value !in Apply(s, ExitWith(value)).waiting <==>
              ParentAsks(s)
  {
    if ParentAsks(s) { ExitToParent(s, value); } else { ExitToZombie(s, value); }
  }

  // Wait.

  /** The queues that the descriptors of a process refer to. */
  predicate RefersTo(pr: Proc, q: Qid) {
    exists fd :: fd in pr.fds && pr.fds[fd].queue == q
  }

  /** The caller gets the pid of the child as its result and loses it as a child; the child is gone,
      its value is reported, and its descriptors are left behind. Nothing else changes. */
  ghost predicate Takes(s: State, t: State, c: Pid, call: Call)
    requires Alive(s)
  {
    var p := s.running.value;
    && t == s.(zombie := t.zombie, procs := t.procs, reports := t.reports, orphans := t.orphans)
    && c in s.procs && c in s.exits && t.zombie == Without(s.zombie, {c})
    && t.procs.Keys == s.procs.Keys - {c} && OthersSame(s, t, {p, c}) && p in t.procs
    && t.procs[p] == Self(s).(call := call, ret := c, children := Without(Self(s).children, {c}))
    && t.reports == s.reports + [Report(p, c, s.exits[c], true)]
    && (forall q :: q in t.orphans <==> q in s.orphans || RefersTo(s.procs[c], q))
  }

  lemma ReapForm(s: State, c: Pid)
    requires Alive(s) && c in s.procs && c != s.running.value && c in s.exits && s.exits[c] == s.procs[c].value
    ensures Takes(s, Reap(s, c), c, Self(s).call)
  {
    assert forall q :: q in QueuesOf(s.procs[c]) <==> RefersTo(s.procs[c], q);
  }

  lemma TakesTrap(s: State, t: State, c: Pid, call: Call)
    requires Alive(s) && c != s.running.value && Takes(Trap(s, call), t, c, call)
    ensures Takes(s, t, c, call)
  {
  }

  /** A child that can be reaped: it is not the caller and its value is recorded. */
  lemma ChildFacts(s: State, c: Pid)
    requires StatusOk(s) && FamilyOk(s) && ReportsOk(s) && Alive(s) && c in Self(s).children
    requires StatusOf(s, c) == Some(Zombie)
    ensures c in s.procs && c != s.running.value && c in s.exits && s.exits[c] == s.procs[c].value
  {
    assert c in s.procs[s.running.value].children && s.procs[c].parent.Some?;
    assert c in s.zombie;
  }

  /** wait with a child that it can reap. */
  lemma WaitTakes(s: State, pid: int, c: Pid)
    requires CoreInv(s) && Kin(s) && Enabled(s, WaitPid(pid)) && Reapable(s, Self(s).children, pid, c)
    ensures Takes(s, Apply(s, WaitPid(pid)), c, Wait(pid)) && c !in Apply(s, WaitPid(pid)).zombie
  {
    var r := Trap(s, Wait(pid));
    ChildFacts(s, c);
    TrapReapable(s, pid, c);
    WaitOutcome(r, pid);
    ReapForm(r, c);
    TakesTrap(s, Reap(r, c), c, Wait(pid));
  }

  lemma TrapReapable(s: State, pid: int, c: Pid)
    requires Alive(s)
    ensures Reapable(Trap(s, Wait(pid)), Self(s).children, pid, c) <==> Reapable(s, Self(s).children, pid, c)
  {
    var r := Trap(s, Wait(pid));
    assert forall d :: StatusOf(r, d) == StatusOf(s, d);
    if Reapable(s, Self(s).children, pid, c) && pid == 0 {
      var k :| 0 <= k < |Self(s).children| && Self(s).children[k] == c && forall j :: 0 <= j < k ==>
          StatusOf(s, Self(s).children[j]) != Some(Zombie);
      assert forall j :: 0 <= j < k ==> StatusOf(r, Self(s).children[j]) != Some(Zombie);
    }
    if Reapable(r, Self(s).children, pid, c) && pid == 0 {
      var k :| 0 <= k < |Self(s).children| && Self(s).children[k] == c && forall j :: 0 <= j < k ==>
          StatusOf(r, Self(s).children[j]) != Some(Zombie);
      assert forall j :: 0 <= j < k ==> StatusOf(s, Self(s).children[j]) != Some(Zombie);
    }
  }

  /** The caller is parked at the end of the waiting list, and the head of the ready list runs.
      Nothing else changes but the timers given. */
  ghost predicate Parks(s: State, t: State, timers: seq<Timer>, call: Call)
    requires Alive(s)
  {
    var p := s.running.value;
    && t == s.(running := t.running, ready := t.ready, waiting := t.waiting, timers := t.timers, procs := t.procs)
    && t.waiting == s.waiting + [p] && t.timers == timers
    && t.procs.Keys == s.procs.Keys && OthersSame(s, t, {p}) && t.procs[p] == Self(s).(call := call, status := Waiting)
    && (if s.ready == [] then t.running == None && t.ready == []
        else t.running == Some(s.ready[0]) && t.ready == s.ready[1..])
  }

  lemma ParkForm(s: State, timers: seq<Timer>)
    requires Alive(s) && !Linked(s, s.running.value)
    ensures Parks(s, ParkNext(s, timers), timers, Self(s).call)
  {
  }

  lemma ParksTrap(s: State, t: State, timers: seq<Timer>, call: Call)
    requires Alive(s) && Parks(Trap(s, call), t, timers, call)
    ensures Parks(s, t, timers, call)
  {
  }

  /** A process in its own code has no neighbours. */
  lemma Unlinked(s: State)
    requires Placed(s) && CausesOk(s) && Alive(s) && Self(s).pc.User?
    ensures !Linked(s, s.running.value)
  {
    UserIsUnparked(s);
  }

  /** wait with children of which it can reap none. */
  lemma WaitParks(s: State, pid: int)
    requires CoreInv(s) && Enabled(s, WaitPid(pid)) && Self(s).children != []
    requires forall c :: !Reapable(s, Self(s).children, pid, c)
    ensures Parks(s, Apply(s, WaitPid(pid)), s.timers, Wait(pid))
  {
    var r := Trap(s, Wait(pid));
    forall c ensures !Reapable(r, Self(r).children, pid, c) { TrapReapable(s, pid, c); }
    WaitOutcome(r, pid);
    Unlinked(s);
    ParkForm(r, r.timers);
    ParksTrap(s, WaitFor(r, pid), s.timers, Wait(pid));
  }

  /** wait without children. */
  lemma WaitFails(s: State, pid: int)
    requires Enabled(s, WaitPid(pid)) && Self(s).children == []
    ensures Apply(s, WaitPid(pid)) ==
              s.(procs := s.procs[s.running.value := Self(s).(call := Wait(pid), ret := DSOS_EWAIT)])
  {
    Overwritten(s.procs, s.running.value, Self(s).(call := Wait(pid)), Self(s).(call := Wait(pid), ret := DSOS_EWAIT));
  }

  lemma Overwritten(m: map<Pid, Proc>, p: Pid, a: Proc, b: Proc)
    ensures m[p := a][p := b] == m[p := b]
  {
  }

  // Sleep and spawn.

  lemma SleepForm(s: State, cycles: int)
    requires Alive(s) && !Linked(s, s.running.value) && |s.timers| < MAX_NUM_PROCESSES
    ensures Parks(s, SleepFor(s, cycles), AddTimer(s.timers, Timer(s.time + cycles, s.running.value)), Self(s).call)
  {
    SleepIsPark(s, cycles);
    ParkForm(s, AddTimer(s.timers, Timer(s.time + cycles, s.running.value)));
  }

  lemma SleepIsPark(s: State, cycles: int)
    requires Alive(s) && |s.timers| < MAX_NUM_PROCESSES
    ensures SleepFor(s, cycles) == ParkNext(s, AddTimer(s.timers, Timer(s.time + cycles, s.running.value)))
  {
  }

  lemma TrapUnlinked(s: State, call: Call)
    requires Alive(s) && !Linked(s, s.running.value)
    ensures !Linked(Trap(s, call), s.running.value)
  {
  }

  /** sleep in a reachable state: the caller is parked with its deadline among the timers. */
  lemma SleepParks(s: State, cycles: int)
    requires Inv(s) && Enabled(s, Sleep(cycles))
    ensures Parks(s, Apply(s, Sleep(cycles)), AddTimer(s.timers, Timer(s.time + cycles, s.running.value)), OtherCall)
  {
    SleepersAreFew(s);
    Unlinked(s);
    TrapUnlinked(s, OtherCall);
    SleepTrapped(s, cycles);
  }

  lemma SleepTrapped(s: State, cycles: int)
    requires Enabled(s, Sleep(cycles)) && |s.timers| < MAX_NUM_PROCESSES
    requires !Linked(Trap(s, OtherCall), s.running.value)
    ensures Parks(s, Apply(s, Sleep(cycles)), AddTimer(s.timers, Timer(s.time + cycles, s.running.value)), OtherCall)
  {
    var timers := AddTimer(s.timers, Timer(s.time + cycles, s.running.value));
    SleepForm(Trap(s, OtherCall), cycles);
    ParksTrap(s, Apply(s, Sleep(cycles)), timers, OtherCall);
  }

  /** Without a free timer it returns the error and changes nothing else. */
  lemma SleepFails(s: State, cycles: int)
    requires Enabled(s, Sleep(cycles)) && |s.timers| >= MAX_NUM_PROCESSES
    ensures Apply(s, Sleep(cycles)) ==
              s.(procs := s.procs[s.running.value := Self(s).(call := OtherCall, ret := DSOS_ESLEEP)])
  {
    Overwritten(s.procs, s.running.value, Self(s).(call := OtherCall), Self(s).(call := OtherCall, ret := DSOS_ESLEEP));
  }

  /** spawn: a fresh pid, which the caller gets as its result and as its last child; the new process
      is ready, at the end of the list, with the caller as its parent and nothing of its own. */
  lemma SpawnOutcome(s: State)
    requires Placed(s) && Enabled(s, SpawnChild)
    ensures var t, p, c := Apply(s, SpawnChild), s.running.value, s.lastPid;
            && c !in s.procs && t.lastPid == c + 1 && t.ready == s.ready + [c]
            && t == s.(procs := t.procs, ready := t.ready, lastPid := t.lastPid)
            && t.procs.Keys == s.procs.Keys + {c} && OthersSame(s, t, {p})
            && t.procs[p] == Self(s).(call := OtherCall, ret := c, children := Self(s).children + [c])
            && t.procs[c].status == Ready && t.procs[c].parent == Some(p) && t.procs[c].children == []
            && t.procs[c].fds == map[] && t.procs[c].lastFd == 0 && t.procs[c].pc.User?
  {
  }
}
