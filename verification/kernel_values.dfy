/** Why the kernel model may ask whether a queue is there, where internal_openQueue asks whether the
    `value` of its resource is null. The blocks of the resource pool are followed beside a run. */
module KernelValues {
  import opened Seqs
  import opened Constants
  import opened Timers
  import opened Payloads
  import opened KernelModel
  import opened KernelRun
  import opened KernelInv
  import opened KernelSched
  import opened KernelIpc
  import opened KernelOpen
  import opened KernelCore
  import opened KernelTheorems
  import G = ResourceGraph

  /** The blocks of the resources of queues: the block of each listed one, the free blocks, the
      next one first, and the blocks whose `value` is not null. Nothing ever clears a value. */
  datatype Store = Store(home: map<Qid, G.Cell>, free: seq<G.Cell>, valued: set<G.Cell>)

  const FIRST_STORE := Store(map[], G.AllCells(), {})

  /** The queue that the running process is opening. */
  function Opened(s: State): Qid
    requires Alive(s) && Self(s).pc.Opening? && Self(s).pc.fd in Self(s).fds
  {
    Self(s).fds[Self(s).pc.fd].queue
  }

  /** Destroying the resource: its block is the next one to be handed out. */
  function Forget(st: Store, q: Qid): Store
    requires q in st.home
  {
    st.(home := st.home - {q}, free := [st.home[q]] + st.free)
  }

  /** What the code does to the blocks. An open of an unknown id takes the head of the pool;
      openQueue allocates a queue when the value is null, and undoes the open when it cannot; a
      destroy that is not refused gives the block back. */
  function StoreAfter(s: State, st: Store, step: Step): Store
    requires Enabled(s, step)
  {
    match step
    case OpenStart(q, _) => TakeBlock(st, q)
    case OpenFinish(_) =>
      var q := Opened(s);
      if q !in st.home || st.home[q] in st.valued then st
      else if |s.queues| < MAX_NUM_QUEUES then st.(valued := st.valued + {st.home[q]})
      else if Referenced(DropFd(s, Self(s).pc.fd, 0), q) then st
      else Forget(st, q)
    case UnlinkStep(q) => if q in st.home && !Referenced(s, q) then Forget(st, q) else st
    case _ => st
  }

  function TakeBlock(st: Store, q: Qid): Store {
    if q in st.home || st.free == [] then st
    else st.(home := st.home[q := st.free[0]], free := st.free[1..])
  }

  /** The blocks after the first `i` steps. */
  function StoreAt(states: seq<State>, steps: seq<Step>, i: nat): Store
    requires Path(states, steps) && i <= |steps|
  {
    if i == 0 then FIRST_STORE
    else
      assert Enabled(states[i - 1], steps[i - 1]);
      StoreAfter(states[i - 1], StoreAt(states, steps, i - 1), steps[i - 1])
  }

  // A descriptor is that of a live queue, or it is just being opened.

  predicate HandleOk(s: State, p: Pid, fd: Fd)
    requires p in s.procs && fd in s.procs[p].fds
  {
    s.procs[p].fds[fd].queue in s.queues || (s.procs[p].pc.Opening? && s.procs[p].pc.fd == fd)
  }

  predicate HandlesOk(s: State) {
    && s.orphans <= s.queues.Keys
    && forall p, fd {:trigger s.procs[p].fds[fd]} :: p in s.procs && fd in s.procs[p].fds ==> HandleOk(s, p, fd)
  }

  /** No queue comes or goes, no descriptor comes, and who opens goes on opening. */
  ghost predicate Calm(s: State, t: State) {
    && t.queues.Keys == s.queues.Keys && t.unlinked == s.unlinked
    && t.orphans <= s.orphans + s.queues.Keys
    && (forall p {:trigger t.procs[p]} :: p in t.procs ==> CalmProc(s, t, p))
    && (forall p {:trigger s.procs[p]} :: p in s.procs && s.procs[p].pc.Opening? ==> p in t.procs && SameCode(s, t, p))
  }

  predicate SameCode(s: State, t: State, p: Pid)
    requires p in s.procs && p in t.procs
  {
    t.procs[p].pc == s.procs[p].pc && t.procs[p].fds == s.procs[p].fds
  }

  ghost predicate CalmProc(s: State, t: State, p: Pid)
    requires p in t.procs
  {
    && (t.procs[p].pc.Opening? ==> p in s.procs && SameCode(s, t, p))
    && forall fd {:trigger t.procs[p].fds[fd]} :: fd in t.procs[p].fds ==>
         p in s.procs && fd in s.procs[p].fds && t.procs[p].fds[fd].queue == s.procs[p].fds[fd].queue
  }

  lemma CalmTrans(s: State, t: State, u: State)
    requires Calm(s, t) && Calm(t, u)
    ensures Calm(s, u)
  {
    forall p | p in u.procs ensures CalmProc(s, u, p) {
      assert CalmProc(t, u, p);
      if p in t.procs { assert CalmProc(s, t, p); }
    }
  }

  lemma CalmHandles(s: State, t: State)
    requires Calm(s, t) && HandlesOk(s)
    ensures HandlesOk(t)
  {
    forall p, fd | p in t.procs && fd in t.procs[p].fds ensures HandleOk(t, p, fd) {
      assert CalmProc(s, t, p);
      assert HandleOk(s, p, fd);
      if s.procs[p].pc.Opening? { assert SameCode(s, t, p); }
    }
  }

  /** Some process has just got a descriptor for the id. */
  ghost predicate BeingOpened(s: State, q: Qid) {
    exists p {:trigger s.procs[p]} :: p in s.procs && Opens(s, p, q)
  }

  predicate Opens(s: State, p: Pid, q: Qid)
    requires p in s.procs
  {
    var pr := s.procs[p];
    pr.pc.Opening? && pr.pc.fd in pr.fds && pr.fds[pr.pc.fd].queue == q
  }

  /** The ids of listed resources are those of the queues, and those that are being opened. */
  lemma KnownIff(s: State, q: Qid)
    requires HandlesOk(s)
    ensures Known(s, q) <==> q in s.queues || BeingOpened(s, q)
  {
    if q !in s.queues && Known(s, q) {
      var p, fd :| p in s.procs && fd in s.procs[p].fds && s.procs[p].fds[fd].queue == q;
      assert HandleOk(s, p, fd);
      assert Opens(s, p, q);
    }
    if BeingOpened(s, q) {
      var p :| p in s.procs && Opens(s, p, q);
      assert s.procs[p].fds[s.procs[p].pc.fd].queue == q;
    }
  }

  lemma CalmKnown(s: State, t: State, q: Qid)
    requires Calm(s, t) && HandlesOk(s)
    ensures Known(t, q) <==> Known(s, q)
  {
    CalmHandles(s, t);
    KnownIff(s, q);
    KnownIff(t, q);
    if BeingOpened(s, q) {
      var p :| p in s.procs && Opens(s, p, q);
      assert SameCode(s, t, p);
      assert Opens(t, p, q);
    }
    if BeingOpened(t, q) {
      var p :| p in t.procs && Opens(t, p, q);
      assert CalmProc(s, t, p);
      assert Opens(s, p, q);
    }
  }

  // The calm steps.

  lemma StatusCalm(s: State, t: State)
    requires OnlyStatus(s.procs, t.procs) && t.queues.Keys == s.queues.Keys && t.unlinked == s.unlinked
             && t.orphans == s.orphans
    ensures Calm(s, t)
  {
  }

  lemma WakeDueCalm(s: State)
    ensures Calm(s, WakeDue(s))
  {
  }

  lemma ScheduleCalm(s: State)
    requires s.running.Some?
    ensures Calm(s, Schedule(s))
  {
    WakeDueCalm(s);
    RotateOnlyStatus(WakeDue(s));
    StatusCalm(WakeDue(s), Schedule(s));
    CalmTrans(s, WakeDue(s), Schedule(s));
  }

  /** The running process changes, but not its descriptors, and it is not opening. */
  lemma SelfCalm(s: State, t: State)
    requires Alive(s) && !Self(s).pc.Opening? && t.procs.Keys == s.procs.Keys
    requires t.queues.Keys == s.queues.Keys && t.unlinked == s.unlinked && t.orphans == s.orphans
    requires forall p {:trigger t.procs[p]} :: p in s.procs && p != s.running.value ==>
        t.procs[p].pc == s.procs[p].pc && t.procs[p].fds == s.procs[p].fds
    requires !t.procs[s.running.value].pc.Opening?
    requires forall fd {:trigger t.procs[s.running.value].fds[fd]} :: fd in t.procs[s.running.value].fds ==>
        fd in Self(s).fds && t.procs[s.running.value].fds[fd].queue == Self(s).fds[fd].queue
    ensures Calm(s, t)
  {
  }

  lemma TickCalm(s: State)
    requires Enabled(s, Tick)
    ensures Calm(s, Apply(s, Tick))
  {
    ScheduleCalm(Later(s));
    StatusCalm(s, Later(s));
    CalmTrans(s, Later(s), Apply(s, Tick));
  }

  lemma PreemptCalm(s: State)
    requires Enabled(s, Preempt)
    ensures Calm(s, Apply(s, Preempt))
  {
    var r := Resume(Trap(s, OtherCall));
    SelfCalm(s, r);
    ScheduleCalm(r);
    CalmTrans(s, r, Apply(s, Preempt));
  }

  /** Only the result and the call of the running process change. */
  lemma SetCalm(s: State, pr: Proc)
    requires Alive(s) && pr.pc == Self(s).pc && pr.fds == Self(s).fds
    ensures Calm(s, SetSelf(s, pr))
  {
  }

  lemma TrapCalm(s: State, call: Call)
    requires Alive(s)
    ensures Calm(s, Trap(s, call))
  {
    SetCalm(s, Self(s).(call := call));
  }

  lemma ParkNextCalm(s: State, timers: seq<Timer>)
    requires Alive(s)
    ensures Calm(s, ParkNext(s, timers))
  {
    SetStatusOnly(s.procs, s.running.value, Waiting);
    StatusCalm(s, ParkNext(s, timers));
  }

  lemma SleepForCalm(s: State, cycles: int)
    requires Alive(s)
    ensures Calm(s, SleepFor(s, cycles))
  {
    if |s.timers| >= MAX_NUM_PROCESSES {
      SetCalm(s, Self(s).(ret := DSOS_ESLEEP));
    } else {
      ParkNextCalm(s, AddTimer(s.timers, Timer(s.time + cycles, s.running.value)));
    }
  }

  lemma SleepCalm(s: State, cycles: int)
    requires Enabled(s, Sleep(cycles))
    ensures Calm(s, Apply(s, Sleep(cycles)))
  {
    TrapCalm(s, OtherCall);
    SleepForCalm(Trap(s, OtherCall), cycles);
    CalmTrans(s, Trap(s, OtherCall), SleepFor(Trap(s, OtherCall), cycles));
  }

  lemma ReapCalm(s: State, c: Pid)
    requires Alive(s) && !Self(s).pc.Opening? && c in s.procs && HandlesOk(s) && !s.procs[c].pc.Opening?
    ensures Calm(s, Reap(s, c))
  {
    forall fd | fd in s.procs[c].fds ensures s.procs[c].fds[fd].queue in s.queues { assert HandleOk(s, c, fd); }
  }

  lemma WaitForCalm(s: State, pid: int)
    requires PcsOk(s) && HandlesOk(s) && Alive(s) && Self(s).pc.User?
    ensures Calm(s, WaitFor(s, pid))
  {
    if Self(s).children == [] {
      SetCalm(s, Self(s).(ret := DSOS_EWAIT));
    } else {
      var c := Awaited(s, Self(s).children, pid);
      if StatusOf(s, c) == Some(Zombie) {
        ZombieIsOutside(s, c);
        ReapCalm(s, c);
      } else {
        ParkNextCalm(s, s.timers);
      }
    }
  }

  lemma WaitCalm(s: State, pid: int)
    requires CoreInv(s) && HandlesOk(s) && Enabled(s, WaitPid(pid))
    ensures Calm(s, Apply(s, WaitPid(pid)))
  {
    var r := Trap(s, Wait(pid));
    TrapKeeps(s, Wait(pid));
    TrapCalm(s, Wait(pid));
    CalmHandles(s, r);
    WaitForCalm(r, pid);
    CalmTrans(s, r, WaitFor(r, pid));
  }

  lemma ZombieIsOutside(s: State, c: Pid)
    requires PcsOk(s) && c in s.procs && s.procs[c].status == Zombie
    ensures s.procs[c].pc.User?
  {
    assert PcOk(s, c);
  }

  lemma ZombieCalm(s: State, value: int)
    requires Alive(s)
    ensures Calm(s, BecomeZombie(s, value))
  {
  }

  lemma ExitsCalm(s: State, value: int)
    requires Alive(s) && Self(s).pc.User? && Self(s).parent.Some?
    ensures Calm(s, Exit(s, value))
  {
    var z := BecomeZombie(s, value);
    ZombieCalm(s, value);
    var parent := Self(s).parent.value;
    if ParentWaits(z, parent, s.running.value) {
      HandOverCalm(z, parent);
    } else {
      DispatchOnlyStatus(z);
      StatusCalm(z, DispatchHead(z));
    }
    CalmTrans(s, z, Exit(s, value));
  }

  lemma ExitCalm(s: State, value: int)
    requires Enabled(s, ExitWith(value))
    ensures Calm(s, Apply(s, ExitWith(value)))
  {
    TrapCalm(s, OtherCall);
    ExitsCalm(Trap(s, OtherCall), value);
    CalmTrans(s, Trap(s, OtherCall), Exit(Trap(s, OtherCall), value));
  }

  lemma HandOverCalm(s: State, parent: Pid)
    requires Alive(s) && parent in s.procs && !Self(s).pc.Opening?
    ensures Calm(s, HandOver(s, parent))
  {
  }

  lemma SpawnsCalm(s: State)
    requires Alive(s) && s.lastPid !in s.procs
    ensures Calm(s, Spawn(s))
  {
  }

  lemma SpawnCalm(s: State)
    requires CoreInv(s) && Enabled(s, SpawnChild)
    ensures Calm(s, Apply(s, SpawnChild))
  {
    TrapCalm(s, OtherCall);
    SpawnsCalm(Trap(s, OtherCall));
    CalmTrans(s, Trap(s, OtherCall), Spawn(Trap(s, OtherCall)));
  }

  lemma TransfersCalm(s: State, grant: Grant)
    requires Alive(s) && InCall(s, s.running.value) && UsableGrant(grant)
    requires |Payload(Self(s).pc.msg, s.queues[CallQueue(s, s.running.value)].msgSize)| <= MAX_MESSAGE_SIZE
    ensures Calm(s, Transfer(s, grant))
  {
    SelfCalm(s, Transfer(s, grant));
  }

  lemma TransferCalm(s: State, grant: Grant)
    requires Enabled(s, TransferStep(grant))
    ensures Calm(s, Apply(s, TransferStep(grant)))
  {
    TrapCalm(s, OtherCall);
    TransfersCalm(Trap(s, OtherCall), grant);
    CalmTrans(s, Trap(s, OtherCall), Transfer(Trap(s, OtherCall), grant));
  }

  lemma WakeCalm(s: State)
    requires Enabled(s, WakeStep)
    ensures Calm(s, Apply(s, WakeStep))
  {
    SelfCalm(s, Apply(s, WakeStep));
  }

  lemma CloseSlotCalm(s: State, fd: Fd, role: Role)
    requires Alive(s) && !Self(s).pc.Opening? && fd in Self(s).fds
    ensures Calm(s, CloseSlot(s, fd, role))
  {
    SelfCalm(s, CloseSlot(s, fd, role));
  }

  lemma DropFdCalm(s: State, fd: Fd)
    requires Alive(s) && !Self(s).pc.Opening?
    ensures Calm(s, SetSelf(s, Self(s).(fds := Self(s).fds - {fd}, pc := User, ret := 0)))
  {
  }

  lemma GoesOnCalm(s: State, pc: Pc)
    requires Alive(s) && !Self(s).pc.Opening? && !pc.Opening?
    ensures Calm(s, SetSelf(s, Self(s).(pc := pc)))
  {
  }

  lemma CloseCalm(s: State)
    requires Enabled(s, CloseContinue)
    ensures Calm(s, Apply(s, CloseContinue))
  {
    var fd, k := Self(s).pc.fd, Self(s).pc.done;
    if k < |ALL_ROLES| {
      var c := CloseSlot(s, fd, ALL_ROLES[k]);
      CloseSlotCalm(s, fd, ALL_ROLES[k]);
      GoesOnCalm(c, Closing(fd, k + 1));
      CalmTrans(s, c, CloseStep(s));
    } else {
      DropFdCalm(s, fd);
    }
  }

  lemma AttributeCalm(s: State, qid: Qid, q: Queue)
    requires qid in s.queues
    ensures Calm(s, s.(queues := s.queues[qid := q]))
  {
  }

  lemma PlainCalm(s: State, step: Step)
    requires Enabled(s, step) && (step.CloseStart? || step.CallStart? || step.MaxStep? || step.SizeStep?)
    ensures Calm(s, Apply(s, step))
  {
    match step
    case CloseStart(fd) => GoesOnCalm(s, Closing(fd, 0));
    case CallStart(role, fd, msg, size) => GoesOnCalm(s, Calling(role, fd, First, msg, size));
    case MaxStep(fd, newVal) =>
      var q := Self(s).fds[fd].queue;
      if newVal <= MAX_NUM_MESSAGES_PER_QUEUE { AttributeCalm(s, q, s.queues[q].(maxMessages := newVal)); }
    case SizeStep(fd, newVal) =>
      var q := Self(s).fds[fd].queue;
      AttributeCalm(s, q, s.queues[q].(msgSize := newVal));
  }

  /** All steps but those that open and destroy queues. */
  lemma StepCalm(s: State, step: Step)
    requires CoreInv(s) && HandlesOk(s) && Enabled(s, step)
    requires !step.OpenStart? && !step.OpenFinish? && !step.UnlinkStep?
    ensures Calm(s, Apply(s, step))
  {
    match step
    case Tick => TickCalm(s);
    case Preempt => PreemptCalm(s);
    case Sleep(cycles) => SleepCalm(s, cycles);
    case WaitPid(pid) => WaitCalm(s, pid);
    case ExitWith(value) => ExitCalm(s, value);
    case SpawnChild => SpawnCalm(s);
    case TransferStep(grant) => TransferCalm(s, grant);
    case WakeStep => WakeCalm(s);
    case CloseContinue => CloseCalm(s);
    case _ => PlainCalm(s, step);
  }

  // The two tests agree.

  /** A known id has one block of its own, its value is null exactly while the id has no queue, and
      no free block has a value before the first queue is destroyed. */
  ghost predicate Agrees(s: State, st: Store) {
    && NoDup(st.free)
    && (forall q {:trigger q in st.home} :: q in st.home <==> Known(s, q))
    && (forall q {:trigger st.home[q]} :: q in st.home ==>
          st.home[q] !in st.free && (st.home[q] in st.valued <==> q in s.queues))
    && (forall q, r {:trigger st.home[q], st.home[r]} :: q in st.home && r in st.home && q != r ==>
          st.home[q] != st.home[r])
    && (s.unlinked == {} ==> forall b {:trigger b in st.free} :: b in st.free ==> b !in st.valued)
  }

  lemma CalmAgrees(s: State, t: State, st: Store)
    requires Calm(s, t) && HandlesOk(s) && Agrees(s, st)
    ensures Agrees(t, st)
  {
    forall q ensures Known(t, q) <==> Known(s, q) { CalmKnown(s, t, q); }
  }

  lemma StartKnown(s: State, q: Qid, roles: set<Role>)
    requires PcsOk(s) && HandlesOk(s) && Alive(s) && Self(s).pc.User?
    ensures var t := OpenResource(Trap(s, OtherCall), q, roles);
            && HandlesOk(t) && t.queues == s.queues && t.unlinked == s.unlinked
            && forall r :: Known(t, r) <==> Known(s, r) || r == q
  {
    var t, p := OpenResource(Trap(s, OtherCall), q, roles), s.running.value;
    assert PcOk(s, p);
    forall p', fd | p' in t.procs && fd in t.procs[p'].fds ensures HandleOk(t, p', fd) {
      if p' != p || fd != Self(s).lastFd { assert HandleOk(s, p', fd); }
    }
    assert Opens(t, p, q);
    forall r ensures Known(t, r) <==> Known(s, r) || r == q {
      KnownIff(s, r);
      KnownIff(t, r);
      if x :| x in s.procs && Opens(s, x, r) { assert x != p && t.procs[x] == s.procs[x] && Opens(t, x, r); }
      if x :| x in t.procs && Opens(t, x, r) { assert x != p ==> t.procs[x] == s.procs[x] && Opens(s, x, r); }
    }
  }

  /** An open of a new id keeps the agreement exactly when the block it gets has no value. */
  lemma OpenAgreesIff(s: State, st: Store, q: Qid, roles: set<Role>)
    requires PcsOk(s) && HandlesOk(s) && Agrees(s, st) && Alive(s) && Self(s).pc.User?
    requires !Known(s, q) && st.free != []
    ensures Agrees(OpenResource(Trap(s, OtherCall), q, roles), TakeBlock(st, q)) <==> st.free[0] !in st.valued
  {
    var t, u := OpenResource(Trap(s, OtherCall), q, roles), TakeBlock(st, q);
    StartKnown(s, q, roles);
    assert st.free[0] in st.free && u.home[q] == st.free[0];
    assert forall b :: b in u.free ==> b in st.free;
    if st.free[0] !in st.valued { TakenAgrees(s, t, st, q); }
  }

  lemma TakenAgrees(s: State, t: State, st: Store, q: Qid)
    requires Agrees(s, st) && q !in st.home && st.free != [] && st.free[0] !in st.valued
    requires t.queues == s.queues && t.unlinked == s.unlinked
    requires forall r :: Known(t, r) <==> Known(s, r) || r == q
    ensures Agrees(t, TakeBlock(st, q))
  {
    var u := TakeBlock(st, q);
    assert st.free[0] in st.free;
    assert forall b :: b in u.free ==> b in st.free;
    assert forall r :: r in st.home ==> u.home[r] == st.home[r];
  }

  /** So does the open of an id that is known already. */
  lemma OpenKnownAgrees(s: State, st: Store, q: Qid, roles: set<Role>)
    requires PcsOk(s) && HandlesOk(s) && Agrees(s, st) && Alive(s) && Self(s).pc.User? && Known(s, q)
    ensures Agrees(OpenResource(Trap(s, OtherCall), q, roles), TakeBlock(st, q))
  {
    StartKnown(s, q, roles);
    assert q in st.home;
  }

  // openQueue.

  lemma RegisterCalm(s: State, fd: Fd, role: Role, b: Block)
    requires Alive(s) && !Self(s).pc.Opening? && fd in Self(s).fds && Self(s).fds[fd].queue in s.queues
    ensures Calm(s, Register(s, fd, role, b))
  {
    SelfCalm(s, Register(s, fd, role, b));
  }

  lemma {:induction false} RegisterAllCalm(s: State, fd: Fd, order: seq<Role>, roles: set<Role>, got: map<Role, Block>)
    requires Alive(s) && !Self(s).pc.Opening? && fd in Self(s).fds && Self(s).fds[fd].queue in s.queues
    ensures Calm(s, RegisterAll(s, fd, order, roles, got))
    decreases order
  {
    if order == [] {
      SetCalm(s, Self(s).(ret := fd));
    } else if order[0] !in roles {
      RegisterAllCalm(s, fd, order[1..], roles, got);
    } else if order[0] !in got {
      SetCalm(s, Self(s).(ret := LIST_INSERTION_ERROR));
    } else {
      var t := Register(s, fd, order[0], got[order[0]]);
      RegisterCalm(s, fd, order[0], got[order[0]]);
      RegisterAllCalm(t, fd, order[1..], roles, got);
      CalmTrans(s, t, RegisterAll(s, fd, order, roles, got));
    }
  }

  /** The process is back in its own code, and the queue is there. */
  function Ready(s: State): State
    requires Alive(s) && Self(s).pc.Opening? && Self(s).pc.fd in Self(s).fds
  {
    var done := SetSelf(s, Self(s).(pc := User));
    if Opened(s) in s.queues then done else done.(queues := done.queues[Opened(s) := NEW_QUEUE])
  }

  lemma ReadyKnown(s: State)
    requires HandlesOk(s) && Alive(s) && Self(s).pc.Opening? && Self(s).pc.fd in Self(s).fds
    ensures HandlesOk(Ready(s)) && forall r :: Known(Ready(s), r) <==> Known(s, r)
  {
    var t, p := Ready(s), s.running.value;
    forall x, fd | x in t.procs && fd in t.procs[x].fds ensures HandleOk(t, x, fd) { assert HandleOk(s, x, fd); }
    assert Opens(s, p, Opened(s));
    forall r ensures Known(t, r) <==> Known(s, r) {
      KnownIff(s, r);
      KnownIff(t, r);
      if x :| x in s.procs && Opens(s, x, r) { assert x != p ==> t.procs[x] == s.procs[x] && Opens(t, x, r); }
      if x :| x in t.procs && Opens(t, x, r) { assert x != p && t.procs[x] == s.procs[x] && Opens(s, x, r); }
    }
  }

  lemma ReadyAgrees(s: State, st: Store)
    requires HandlesOk(s) && Agrees(s, st) && Alive(s) && Self(s).pc.Opening? && Self(s).pc.fd in Self(s).fds
    ensures Opened(s) in st.home
    ensures Agrees(Ready(s), st.(valued := st.valued + {st.home[Opened(s)]}))
  {
    assert Opens(s, s.running.value, Opened(s));
    KnownIff(s, Opened(s));
    ReadyKnown(s);
  }

  /** What is known after a descriptor is given up. */
  lemma DroppedKnown(s: State, ret: int)
    requires HandlesOk(s) && Alive(s) && Self(s).pc.Opening? && Self(s).pc.fd in Self(s).fds
    requires Opened(s) !in s.queues
    ensures var t := DropFd(s, Self(s).pc.fd, ret);
            HandlesOk(t) && forall r :: Known(t, r) <==> Known(s, r) && (r == Opened(s) ==> Referenced(t, r))
  {
    var t, p := DropFd(s, Self(s).pc.fd, ret), s.running.value;
    forall x, fd | x in t.procs && fd in t.procs[x].fds ensures HandleOk(t, x, fd) { assert HandleOk(s, x, fd); }
    assert Opens(s, p, Opened(s));
    KnownIff(s, Opened(s));
    forall r ensures Known(t, r) <==> Known(s, r) && (r == Opened(s) ==> Referenced(t, r)) {
      KnownIff(s, r);
      KnownIff(t, r);
      if x :| x in s.procs && Opens(s, x, r) { assert x != p ==> t.procs[x] == s.procs[x] && Opens(t, x, r); }
      if x :| x in t.procs && Opens(t, x, r) { assert x != p && t.procs[x] == s.procs[x] && Opens(s, x, r); }
    }
  }

  lemma DroppedAgrees(s: State, st: Store, ret: int)
    requires HandlesOk(s) && Agrees(s, st) && Alive(s) && Self(s).pc.Opening? && Self(s).pc.fd in Self(s).fds
    requires Opened(s) !in s.queues
    ensures Opened(s) in st.home
    ensures var t := DropFd(s, Self(s).pc.fd, ret);
            HandlesOk(t) && Agrees(t, if Referenced(t, Opened(s)) then st else Forget(st, Opened(s)))
  {
    assert Opens(s, s.running.value, Opened(s));
    KnownIff(s, Opened(s));
    DroppedKnown(s, ret);
  }

  /** Destroying an unused queue. */
  lemma UnlinkedAgrees(s: State, st: Store, q: Qid)
    requires HandlesOk(s) && Agrees(s, st) && Alive(s) && q in s.queues
    ensures HandlesOk(Unlink(s, q))
    ensures Agrees(Unlink(s, q), if q in st.home && !Referenced(s, q) then Forget(st, q) else st)
  {
    var t := Unlink(s, q);
    if Referenced(s, q) {
      SetCalm(s, Self(s).(ret := DSOS_ERESOURCEINUSE));
      CalmHandles(s, t);
      CalmAgrees(s, t, st);
    } else {
      forall x, fd | x in t.procs && fd in t.procs[x].fds ensures HandleOk(t, x, fd) { assert HandleOk(s, x, fd); }
      assert q in st.home;
      forall r ensures Referenced(t, r) <==> Referenced(s, r) { SameReferences(s, t, r); }
    }
  }

  lemma SameReferences(s: State, t: State, q: Qid)
    requires t.orphans == s.orphans && t.procs.Keys == s.procs.Keys
    requires forall p {:trigger t.procs[p]} :: p in s.procs ==> t.procs[p].fds == s.procs[p].fds
    ensures Referenced(t, q) <==> Referenced(s, q)
  {
    if p, fd :| p in s.procs && fd in s.procs[p].fds && s.procs[p].fds[fd].queue == q {
      assert t.procs[p].fds[fd].queue == q;
    }
    if p, fd :| p in t.procs && fd in t.procs[p].fds && t.procs[p].fds[fd].queue == q {
      assert s.procs[p].fds[fd].queue == q;
    }
  }

  lemma TrapAgrees(s: State, st: Store)
    requires HandlesOk(s) && Agrees(s, st) && Alive(s)
    ensures HandlesOk(Trap(s, OtherCall)) && Agrees(Trap(s, OtherCall), st)
  {
    TrapCalm(s, OtherCall);
    CalmHandles(s, Trap(s, OtherCall));
    CalmAgrees(s, Trap(s, OtherCall), st);
  }

  lemma OpenFails(s: State, st: Store, got: map<Role, Block>)
    requires HandlesOk(s) && Agrees(s, st) && Alive(s) && Self(s).pc.Opening? && Self(s).pc.fd in Self(s).fds
    requires Opened(s) !in s.queues && |s.queues| >= MAX_NUM_QUEUES
    ensures var q := Opened(s);
            && q in st.home && HandlesOk(OpenQueue(s, got))
            && Agrees(OpenQueue(s, got), if Referenced(DropFd(s, Self(s).pc.fd, 0), q) then st else Forget(st, q))
  {
    var t, ret := OpenQueue(s, got), Self(OpenQueue(s, got)).ret;
    OpenFailsForm(s, got);
    assert t == DropFd(s, Self(s).pc.fd, ret);
    DroppedAgrees(s, st, ret);
    SameReferences(t, DropFd(s, Self(s).pc.fd, 0), Opened(s));
  }

  lemma OpenSucceeds(s: State, st: Store, got: map<Role, Block>)
    requires HandlesOk(s) && Agrees(s, st) && Alive(s) && Self(s).pc.Opening? && Self(s).pc.fd in Self(s).fds
    requires Opened(s) in s.queues || |s.queues| < MAX_NUM_QUEUES
    ensures var q := Opened(s);
            && q in st.home && HandlesOk(OpenQueue(s, got))
            && Agrees(OpenQueue(s, got), st.(valued := st.valued + {st.home[q]}))
  {
    var t, fd := Ready(s), Self(s).pc.fd;
    ReadyAgrees(s, st);
    ReadyKnown(s);
    RegisterAllCalm(t, fd, ALL_ROLES, Self(s).pc.roles, got);
    CalmHandles(t, OpenQueue(s, got));
    CalmAgrees(t, OpenQueue(s, got), st.(valued := st.valued + {st.home[Opened(s)]}));
  }

  lemma FinishAgrees(s: State, st: Store, got: map<Role, Block>)
    requires HandlesOk(s) && Agrees(s, st) && Enabled(s, OpenFinish(got))
    ensures HandlesOk(Apply(s, OpenFinish(got)))
    ensures Agrees(Apply(s, OpenFinish(got)), StoreAfter(s, st, OpenFinish(got)))
  {
    var r, q := Trap(s, OtherCall), Opened(s);
    TrapAgrees(s, st);
    TrapDrops(s, Self(s).pc.fd, q);
    if q !in s.queues && |s.queues| >= MAX_NUM_QUEUES {
      OpenFails(r, st, got);
    } else {
      OpenSucceeds(r, st, got);
      ValuedAlready(s, st, q);
    }
  }

  lemma ValuedAlready(s: State, st: Store, q: Qid)
    requires Agrees(s, st) && q in st.home
    ensures q in s.queues <==> st.home[q] in st.valued
    ensures q in s.queues ==> st.(valued := st.valued + {st.home[q]}) == st
  {
    if q in s.queues { assert st.valued + {st.home[q]} == st.valued; }
  }

  lemma TrapDrops(s: State, fd: Fd, q: Qid)
    requires Alive(s)
    ensures Referenced(DropFd(Trap(s, OtherCall), fd, 0), q) <==> Referenced(DropFd(s, fd, 0), q)
  {
    SameReferences(DropFd(Trap(s, OtherCall), fd, 0), DropFd(s, fd, 0), q);
  }

  lemma UnlinkAgrees(s: State, st: Store, q: Qid)
    requires HandlesOk(s) && Agrees(s, st) && Enabled(s, UnlinkStep(q))
    ensures HandlesOk(Apply(s, UnlinkStep(q)))
    ensures Agrees(Apply(s, UnlinkStep(q)), StoreAfter(s, st, UnlinkStep(q)))
  {
    TrapAgrees(s, st);
    SameReferences(s, Trap(s, OtherCall), q);
    UnlinkedAgrees(Trap(s, OtherCall), st, q);
  }

  lemma StartAgrees(s: State, st: Store, q: Qid, roles: set<Role>)
    requires PcsOk(s) && HandlesOk(s) && Agrees(s, st) && Enabled(s, OpenStart(q, roles))
    requires Known(s, q) || st.free != []
    ensures HandlesOk(Apply(s, OpenStart(q, roles)))
    ensures Agrees(Apply(s, OpenStart(q, roles)), StoreAfter(s, st, OpenStart(q, roles)))
  {
    StartKnown(s, q, roles);
    if Known(s, q) {
      OpenKnownAgrees(s, st, q, roles);
    } else {
      assert st.free[0] in st.free;
      OpenAgreesIff(s, st, q, roles);
    }
  }

  /** The resource pool has a block for every new id. */
  predicate ResourceLeft(s: State, st: Store, step: Step) {
    step.OpenStart? && !Known(s, step.queue) ==> st.free != []
  }

  lemma StepAgrees(s: State, st: Store, step: Step)
    requires CoreInv(s) && HandlesOk(s) && Agrees(s, st) && Enabled(s, step) && ResourceLeft(s, st, step)
    ensures HandlesOk(Apply(s, step)) && Agrees(Apply(s, step), StoreAfter(s, st, step))
  {
    if step.OpenStart? {
      StartAgrees(s, st, step.queue, step.roles);
    } else if step.OpenFinish? {
      FinishAgrees(s, st, step.got);
    } else if step.UnlinkStep? {
      UnlinkAgrees(s, st, step.queue);
    } else {
      StepCalm(s, step);
      CalmHandles(s, Apply(s, step));
      CalmAgrees(s, Apply(s, step), st);
    }
  }

  ghost predicate ResourcesLeft(states: seq<State>, steps: seq<Step>, i: nat)
    requires Path(states, steps) && i <= |steps|
  {
    forall j :: 0 <= j < i ==> ResourceLeft(states[j], StoreAt(states, steps, j), steps[j])
  }

  lemma BootAgrees()
    ensures HandlesOk(BOOT) && Agrees(BOOT, FIRST_STORE)
  {
  }

  /** In every state of every run in which the resource pool does not run out: the ids with a listed
      resource are the known ones, and the test of `value` in openQueue is the question whether
      the queue is there, which is what the kernel model asks. */
  lemma {:induction false} ValueTellsQueue(states: seq<State>, steps: seq<Step>, i: nat)
    requires Run(states, steps) && i < |states| && ResourcesLeft(states, steps, i)
    ensures HandlesOk(states[i]) && Agrees(states[i], StoreAt(states, steps, i))
  {
    if i == 0 {
      BootAgrees();
    } else {
      LeftBefore(states, steps, i);
      ValueTellsQueue(states, steps, i - 1);
      RunInv(states, steps, i - 1);
      RunStep(states, steps, i - 1);
      StepAgrees(states[i - 1], StoreAt(states, steps, i - 1), steps[i - 1]);
    }
  }

  lemma LeftBefore(states: seq<State>, steps: seq<Step>, i: nat)
    requires Path(states, steps) && 0 < i <= |steps| && ResourcesLeft(states, steps, i)
    ensures ResourcesLeft(states, steps, i - 1)
    ensures ResourceLeft(states[i - 1], StoreAt(states, steps, i - 1), steps[i - 1])
  {
  }

  /** And when `Enabled` refuses a new id because a queue was destroyed: right after the destroy
      the new id would get the block of the old queue, and the two tests would disagree. */
  lemma UnlinkedIsNext(s: State, st: Store, q: Qid, id: Qid, roles: set<Role>)
    requires CoreInv(s) && HandlesOk(s) && Agrees(s, st) && Enabled(s, UnlinkStep(q)) && !Referenced(s, q)
    requires !Known(Apply(s, UnlinkStep(q)), id)
    ensures var t, u := Apply(s, UnlinkStep(q)), StoreAfter(s, st, UnlinkStep(q));
            && Alive(t) && u.free != [] && u.free[0] in u.valued && !Enabled(t, OpenStart(id, roles))
            && !Agrees(OpenResource(Trap(t, OtherCall), id, roles), TakeBlock(u, id))
  {
    var t, u := Apply(s, UnlinkStep(q)), StoreAfter(s, st, UnlinkStep(q));
    UnlinkAgrees(s, st, q);
    StepKeepsCore(s, UnlinkStep(q));
    UnlinkedFacts(s, st, q);
    NewIdDisagrees(t, u, id, roles);
  }

  lemma NewIdDisagrees(s: State, st: Store, id: Qid, roles: set<Role>)
    requires PcsOk(s) && HandlesOk(s) && Agrees(s, st) && Alive(s) && Self(s).pc.User?
    requires s.unlinked != {} && !Known(s, id) && st.free != [] && st.free[0] in st.valued
    ensures !Enabled(s, OpenStart(id, roles))
    ensures !Agrees(OpenResource(Trap(s, OtherCall), id, roles), TakeBlock(st, id))
  {
    OpenAgreesIff(s, st, id, roles);
  }

  lemma UnlinkedFacts(s: State, st: Store, q: Qid)
    requires Agrees(s, st) && Enabled(s, UnlinkStep(q)) && !Referenced(s, q)
    ensures var t, u := Apply(s, UnlinkStep(q)), StoreAfter(s, st, UnlinkStep(q));
            && Alive(t) && Self(t).pc.User? && q in t.unlinked && u.free != [] && u.free[0] in u.valued
  {
    assert q in st.home;
    SameReferences(s, Trap(s, OtherCall), q);
  }
}
