/** The QueueUser pool: as long as processes close their queues before they exit, the
    blocks that are out are exactly the entries that open descriptors name. */
module KernelRegistry {
  import opened Seqs
  import opened Constants
  import opened Timers
  import opened Payloads
  import opened KernelModel
  import opened KernelRun
  import opened KernelInv
  import opened KernelSched
  import opened KernelIpc
  import opened KernelOpen

  /** The block is in the list of its queue and role, and the descriptor slot it was
      allocated for names it. */
  predicate Registered(s: State, b: Block)
    requires b in s.users
  {
    var u := s.users[b];
    && u.queue in s.queues && b in Users(s.queues[u.queue], u.role)
    && u.pid in s.procs && u.fd in s.procs[u.pid].fds
    && s.procs[u.pid].fds[u.fd].queue == u.queue
    && u.role in s.procs[u.pid].fds[u.fd].slots && s.procs[u.pid].fds[u.fd].slots[u.role] == b
  }

  /** A closing process has already given up the slots it has dealt with. */
  predicate ClosedSoFar(pr: Proc) {
    pr.pc.Closing? && pr.pc.fd in pr.fds ==>
      forall i {:trigger ALL_ROLES[i]} :: 0 <= i < pr.pc.done && i < |ALL_ROLES| ==>
          ALL_ROLES[i] !in pr.fds[pr.pc.fd].slots
  }

  predicate RegistryExact(s: State) {
    && (forall b {:trigger s.users[b]} :: b in s.users ==> Registered(s, b))
    && (forall p {:trigger s.procs[p]} :: p in s.procs ==> ClosedSoFar(s.procs[p]))
    && (forall p {:trigger s.procs[p]} :: p in s.procs && s.procs[p].status == Zombie ==> s.procs[p].fds == map[])
  }

  /** The outstanding blocks are those in the user lists of the live queues. */
  lemma OutstandingBlocks(s: State)
    requires EntriesOk(s) && RegistryExact(s)
    ensures forall b :: b in s.users <==> exists q, role :: q in s.queues && b in Users(s.queues[q], role)
  {
    forall b | b in s.users ensures exists q, role :: q in s.queues && b in Users(s.queues[q], role) {
      assert Registered(s, b);
    }
  }

  /** A step under which every process leaves the kernel with its queues closed. */
  predicate Tidy(s: State, step: Step)
    requires Enabled(s, step)
  {
    step.ExitWith? ==> Self(s).fds == map[]
  }

  /** Marks, contents, lists of processes change; lists of entries and descriptors do not. */
  predicate SameRegistry(s: State, t: State) {
    && t.users.Keys == s.users.Keys
    && (forall b {:trigger t.users[b]} :: b in t.users ==> t.users[b] == s.users[b].(status := t.users[b].status))
    && (forall q {:trigger s.queues[q]} :: q in s.queues ==> q in t.queues && SameLists(s.queues[q], t.queues[q]))
    && (forall p {:trigger s.procs[p]} :: p in s.procs && s.procs[p].fds != map[] ==>
        p in t.procs && t.procs[p].fds == s.procs[p].fds)
    && (forall p {:trigger t.procs[p]} :: p in t.procs ==>
          && (t.procs[p].pc.Closing? ==>
              p in s.procs && s.procs[p].pc == t.procs[p].pc && s.procs[p].fds == t.procs[p].fds)
          && (t.procs[p].status == Zombie ==>
              t.procs[p].fds == map[]
              || (p in s.procs && s.procs[p].status == Zombie && s.procs[p].fds == t.procs[p].fds)))
  }

  lemma RegistryFrame(s: State, t: State)
    requires SameRegistry(s, t) && RegistryExact(s)
    ensures RegistryExact(t)
  {
    forall b | b in t.users ensures Registered(t, b) {
      assert Registered(s, b);
      var u := s.users[b];
      assert SameLists(s.queues[u.queue], t.queues[u.queue]);
    }
    forall p | p in t.procs ensures ClosedSoFar(t.procs[p]) {
      if t.procs[p].pc.Closing? { assert ClosedSoFar(s.procs[p]); }
    }
  }

  /** Queues and entries are the same, and so is every process up to where it stands. */
  predicate SameDescriptors(s: State, t: State) {
    && t.users == s.users && t.queues == s.queues && t.procs.Keys == s.procs.Keys
    && forall p {:trigger t.procs[p]} {:trigger s.procs[p]} :: p in s.procs ==>
         && t.procs[p].fds == s.procs[p].fds
         && (t.procs[p].pc.Closing? ==> t.procs[p].pc == s.procs[p].pc)
         && (t.procs[p].status == Zombie ==> s.procs[p].status == Zombie || s.procs[p].fds == map[])
  }

  lemma DescriptorsFrame(s: State, t: State)
    requires SameDescriptors(s, t)
    ensures SameRegistry(s, t)
  {
  }

  // Steps that leave the registry alone.

  lemma ScheduleRegistry(s: State)
    requires s.running.Some?
    requires Placed(s) && StatusOk(s) && TimersOk(s) && RegistryExact(s)
    ensures RegistryExact(Schedule(s))
  {
    DueAreAsleep(s);
    WakeDueRegistry(s);
    RegistryFrame(s, WakeDue(s));
    RotateRegistry(WakeDue(s));
    RegistryFrame(WakeDue(s), Schedule(s));
  }

  lemma WakeDueRegistry(s: State)
    ensures SameRegistry(s, WakeDue(s))
  {
  }

  lemma RotateRegistry(s: State)
    requires s.running.Some?
    ensures SameRegistry(s, Rotate(s))
  {
    RotateDescriptors(s);
    DescriptorsFrame(s, Rotate(s));
  }

  lemma RotateDescriptors(s: State)
    requires s.running.Some?
    ensures SameDescriptors(s, Rotate(s))
  {
    RotateOnlyStatus(s);
    StatusDescriptors(s, Rotate(s));
  }

  lemma StatusDescriptors(s: State, t: State)
    requires t.users == s.users && t.queues == s.queues && OnlyStatus(s.procs, t.procs)
    ensures SameDescriptors(s, t)
  {
  }

  lemma NoteRegistry(s: State, call: Call, ret: int)
    requires Alive(s) && RegistryExact(s)
    ensures RegistryExact(Note(s, call, ret))
  {
    NoteSame(s, call, ret);
    RegistryFrame(s, Note(s, call, ret));
  }

  lemma NoteSame(s: State, call: Call, ret: int)
    requires Alive(s)
    ensures SameRegistry(s, Note(s, call, ret))
  {
  }

  lemma ResumeRegistry(s: State)
    requires Alive(s) && RegistryExact(s)
    ensures RegistryExact(Resume(s))
  {
    ResumeSame(s);
    RegistryFrame(s, Resume(s));
  }

  lemma ResumeSame(s: State)
    requires Alive(s)
    ensures SameRegistry(s, Resume(s))
  {
  }

  lemma SleepRegistry(s: State, cycles: int)
    requires Alive(s) && RegistryExact(s)
    ensures RegistryExact(SleepFor(s, cycles))
  {
    if |s.timers| < MAX_NUM_PROCESSES {
      ParkNextRegistry(s, AddTimer(s.timers, Timer(s.time + cycles, s.running.value)));
    } else {
      NoteRegistry(s, Self(s).call, DSOS_ESLEEP);
    }
  }

  lemma ParkNextRegistry(s: State, timers: seq<Timer>)
    requires Alive(s) && RegistryExact(s)
    ensures RegistryExact(ParkNext(s, timers))
  {
    DescriptorsFrame(s, ParkNext(s, timers));
    RegistryFrame(s, ParkNext(s, timers));
  }

  lemma WaitRegistry(s: State, pid: int)
    requires Alive(s) && Self(s).status != Zombie && RegistryExact(s)
    ensures RegistryExact(WaitFor(s, pid))
  {
    if Self(s).children == [] {
      NoteRegistry(s, Self(s).call, DSOS_EWAIT);
    } else {
      var c := Awaited(s, Self(s).children, pid);
      if StatusOf(s, c) == Some(Zombie) {
        ReapSame(s, c);
        RegistryFrame(s, Reap(s, c));
      } else {
        ParkNextRegistry(s, s.timers);
      }
    }
  }

  lemma ReapSame(s: State, c: Pid)
    requires Alive(s) && c in s.procs && s.procs[c].fds == map[] && c != s.running.value
    ensures SameRegistry(s, Reap(s, c))
  {
  }

  lemma SpawnRegistry(s: State)
    requires Alive(s) && Placed(s) && RegistryExact(s)
    ensures RegistryExact(Spawn(s))
  {
    assert s.lastPid !in s.procs;
    SpawnSame(s);
    RegistryFrame(s, Spawn(s));
  }

  lemma SpawnSame(s: State)
    requires Alive(s) && s.lastPid !in s.procs
    ensures SameRegistry(s, Spawn(s))
  {
  }

  lemma ExitRegistry(s: State, value: int)
    requires CoreInv(s) && Alive(s) && Self(s).pc.User? && Self(s).parent.Some? && Self(s).children == []
    requires Self(s).fds == map[] && RegistryExact(s)
    ensures RegistryExact(Exit(s, value))
  {
    UserIsUnparked(s);
    ChildlessZombie(s, value);
    var parent := Self(s).parent.value;
    if ParentWaits(ZombieAlone(s, value), parent, s.running.value) {
      HandOverRegistry(s, value, parent);
    } else {
      ExitParkRegistry(s, value);
    }
    RegistryFrame(s, Exit(s, value));
  }

  lemma HandOverRegistry(s: State, value: int, parent: Pid)
    requires Alive(s) && Self(s).pc.User? && Self(s).fds == map[] && parent in s.procs && parent != s.running.value
    ensures SameRegistry(s, HandOver(ZombieAlone(s, value), parent))
  {
    assert HeldBlocks(Self(ZombieAlone(s, value))) == {};
    forall q | q in s.queues ensures SameLists(s.queues[q], DropEntries(s.queues[q], {})) {
      WithoutNone(s.queues[q].readers, {});
      WithoutNone(s.queues[q].writers, {});
      WithoutNone(s.queues[q].nonBlock, {});
    }
  }

  lemma ExitParkRegistry(s: State, value: int)
    requires Alive(s) && Self(s).pc.User? && Self(s).fds == map[]
    ensures SameRegistry(s, DispatchHead(ZombieAlone(s, value)))
  {
    ExitParkDescriptors(s, value);
    DescriptorsFrame(s, DispatchHead(ZombieAlone(s, value)));
  }

  lemma ExitParkDescriptors(s: State, value: int)
    requires Alive(s) && Self(s).pc.User? && Self(s).fds == map[]
    ensures SameDescriptors(s, DispatchHead(ZombieAlone(s, value)))
  {
    var z := ZombieAlone(s, value);
    DispatchOnlyStatus(z);
    StatusDescriptors(z, DispatchHead(z));
  }

  lemma TransferRegistry(s: State, grant: Grant)
    requires Enabled(s, TransferStep(grant)) && RegistryExact(s)
    ensures RegistryExact(Transfer(s, grant))
  {
    TransferSame(s, grant);
    RegistryFrame(s, Transfer(s, grant));
  }

  lemma TransferSame(s: State, grant: Grant)
    requires Enabled(s, TransferStep(grant))
    ensures SameRegistry(s, Transfer(s, grant))
  {
    var p := s.running.value;
    var r, q0 := Self(s).pc.role, CallQueue(s, p);
    if Room(s.queues[q0], r) <= 0 {
      TransferBlocks(s, grant);
      BlockSame(s, Failure(r));
    } else if r == Writer && grant.None? {
      FailedSame(s);
    } else {
      var q := Exchange(s.queues[q0], r, Self(s).pc.msg, if grant.Some? then grant.value else []);
      ExchangeSame(s, q0, q);
    }
  }

  lemma FailedSame(s: State)
    requires Alive(s) && Self(s).pc.Calling?
    ensures SameRegistry(s, SetPhase(Return(s, DSOS_NO_MSG_SENT), Yield))
  {
  }

  lemma BlockSame(s: State, ret: int)
    requires Alive(s) && InCall(s, s.running.value)
    ensures SameRegistry(s, BlockOn(s, ret))
  {
  }

  lemma ExchangeSame(s: State, qid: Qid, q: Queue)
    requires Alive(s) && Self(s).pc.Calling? && qid in s.queues && SameLists(s.queues[qid], q)
    ensures SameRegistry(s, SetPhase(Return(s.(queues := s.queues[qid := q]), 0), Wake))
  {
  }

  lemma WakeUpRegistry(s: State)
    requires Enabled(s, WakeStep) && RegistryExact(s)
    ensures RegistryExact(WakeUpQueue(s))
  {
    WakeUpSame(s);
    RegistryFrame(s, WakeUpQueue(s));
  }

  lemma WakeUpSame(s: State)
    requires Enabled(s, WakeStep)
    ensures SameRegistry(s, WakeUpQueue(s))
  {
  }

  lemma PlainRegistry(s: State, step: Step)
    requires Enabled(s, step) && RegistryExact(s)
    requires step.CallStart? || step.MaxStep? || step.SizeStep?
    ensures RegistryExact(Apply(s, step))
  {
    match step
    case CallStart(role, fd, msg, size) => EnterRegistry(s, Calling(role, fd, First, msg, size));
    case MaxStep(fd, newVal) =>
      var q := Self(s).fds[fd].queue;
      if newVal <= MAX_NUM_MESSAGES_PER_QUEUE { AttributeRegistry(s, q, s.queues[q].(maxMessages := newVal)); }
    case SizeStep(fd, newVal) =>
      var q := Self(s).fds[fd].queue;
      AttributeRegistry(s, q, s.queues[q].(msgSize := newVal));
  }

  lemma EnterRegistry(s: State, pc: Pc)
    requires Alive(s) && !pc.Closing? && RegistryExact(s)
    ensures RegistryExact(SetSelf(s, Self(s).(pc := pc)))
  {
    DescriptorsFrame(s, SetSelf(s, Self(s).(pc := pc)));
    RegistryFrame(s, SetSelf(s, Self(s).(pc := pc)));
  }

  lemma AttributeRegistry(s: State, qid: Qid, q: Queue)
    requires RegistryExact(s) && qid in s.queues && SameLists(s.queues[qid], q)
    ensures RegistryExact(s.(queues := s.queues[qid := q]))
  {
    RegistryFrame(s, s.(queues := s.queues[qid := q]));
  }

  // Steps that change it.

  lemma RegisterExact(s: State, fd: Fd, role: Role, b: Block)
    requires EntriesOk(s) && Alive(s) && Self(s).pc.User? && fd in Self(s).fds && Self(s).fds[fd].queue in s.queues
    requires Self(s).status != Zombie && b !in s.users && role !in Self(s).fds[fd].slots && RegistryExact(s)
    ensures RegistryExact(Register(s, fd, role, b))
  {
    var t := Register(s, fd, role, b);
    forall c | c in t.users ensures Registered(t, c) {
      if c != b {
        assert Registered(s, c);
        RegisterSpares(s, fd, role, b, c);
      }
    }
    forall p | p in t.procs ensures ClosedSoFar(t.procs[p]) {
      if p != s.running.value { assert t.procs[p] == s.procs[p]; }
    }
  }

  lemma RegisterSpares(s: State, fd: Fd, role: Role, b: Block, c: Block)
    requires Alive(s) && fd in Self(s).fds && Self(s).fds[fd].queue in s.queues
    requires b !in s.users && role !in Self(s).fds[fd].slots
    requires c in s.users && Registered(s, c)
    ensures Registered(Register(s, fd, role, b), c)
  {
  }

  lemma {:induction false} RegisterAllExact(s: State, fd: Fd, order: seq<Role>, roles: set<Role>, got: map<Role, Block>)
    requires EntriesOk(s) && Alive(s) && Self(s).pc.User? && fd in Self(s).fds && Self(s).fds[fd].queue in s.queues
    requires Self(s).status != Zombie && NoDup(order) && RegistryExact(s)
    requires forall i :: 0 <= i < |order| ==> order[i] !in Self(s).fds[fd].slots
    requires forall i :: 0 <= i < |order| && order[i] in got ==> got[order[i]] !in s.users
    requires forall a, b :: a in got && b in got && a != b ==> got[a] != got[b]
    ensures RegistryExact(RegisterAll(s, fd, order, roles, got))
    decreases order
  {
    if order == [] {
      NoteRegistry(s, Self(s).call, fd);
    } else if order[0] !in roles {
      RegisterAllExact(s, fd, order[1..], roles, got);
    } else if order[0] !in got {
      NoteRegistry(s, Self(s).call, LIST_INSERTION_ERROR);
    } else {
      RegisterExact(s, fd, order[0], got[order[0]]);
      RegisterEntries(s, fd, order[0], got[order[0]]);
      RegisterAllExact(Register(s, fd, order[0], got[order[0]]), fd, order[1..], roles, got);
    }
  }

  lemma OpenStartExact(s: State, q: Qid, roles: set<Role>)
    requires PcsOk(s) && Alive(s) && Self(s).status != Zombie && RegistryExact(s)
    ensures RegistryExact(OpenResource(s, q, roles))
  {
    var t := OpenResource(s, q, roles);
    assert PcOk(s, s.running.value);
    forall b | b in t.users ensures Registered(t, b) { assert Registered(s, b); }
    forall p | p in t.procs ensures ClosedSoFar(t.procs[p]) {
      if p != s.running.value { assert t.procs[p] == s.procs[p]; }
    }
  }

  /** Giving up a descriptor without slots loses no entry. */
  lemma DropFdExact(s: State, fd: Fd, ret: int)
    requires Alive(s) && fd in Self(s).fds && Self(s).fds[fd].slots == map[] && RegistryExact(s)
    ensures RegistryExact(DropFd(s, fd, ret))
  {
    var t := DropFd(s, fd, ret);
    forall b | b in t.users ensures Registered(t, b) { assert Registered(s, b); }
    forall p | p in t.procs ensures ClosedSoFar(t.procs[p]) {
      if p != s.running.value { assert t.procs[p] == s.procs[p]; }
    }
  }

  lemma OpenFinishExact(s: State, got: map<Role, Block>)
    requires CoreInv(s) && Alive(s) && Self(s).pc.Opening? && Self(s).pc.fd in Self(s).fds
    requires PoolGrants(s, Self(s).pc.roles, got) && RegistryExact(s)
    ensures RegistryExact(OpenQueue(s, got))
  {
    assert PcOk(s, s.running.value);
    var q := Self(s).fds[Self(s).pc.fd].queue;
    if q !in s.queues && |s.queues| >= MAX_NUM_QUEUES {
      OpenFailsForm(s, got);
      DropFdExact(s, Self(s).pc.fd, Self(OpenQueue(s, got)).ret);
    } else {
      OpenSucceedsExact(s, got);
    }
  }

  lemma OpenSucceedsExact(s: State, got: map<Role, Block>)
    requires EntriesOk(s) && Alive(s) && Self(s).pc.Opening? && Self(s).pc.fd in Self(s).fds
    requires Self(s).fds[Self(s).pc.fd].slots == map[] && Self(s).status != Zombie
    requires PoolGrants(s, Self(s).pc.roles, got) && RegistryExact(s)
    requires !(Self(s).fds[Self(s).pc.fd].queue !in s.queues && |s.queues| >= MAX_NUM_QUEUES)
    ensures RegistryExact(OpenQueue(s, got))
  {
    var fd, roles := Self(s).pc.fd, Self(s).pc.roles;
    var q := Self(s).fds[fd].queue;
    var done := SetSelf(s, Self(s).(pc := User));
    var s1 := if q in s.queues then done else done.(queues := done.queues[q := NEW_QUEUE]);
    OpenReadyExact(s, done, s1, q);
    RegisterAllExact(s1, fd, ALL_ROLES, roles, got);
  }

  lemma OpenReadyExact(s: State, done: State, s1: State, q: Qid)
    requires EntriesOk(s) && Alive(s) && Self(s).pc.Opening? && RegistryExact(s)
    requires done == SetSelf(s, Self(s).(pc := User))
    requires s1 == if q in s.queues then done else done.(queues := done.queues[q := NEW_QUEUE])
    ensures EntriesOk(s1) && RegistryExact(s1)
  {
    OpenReadySame(s, done, s1, q);
    RegistryFrame(s, s1);
    EntriesFrame(s, done);
    if q !in s.queues { NewQueueEntries(done, q); }
  }

  lemma OpenReadySame(s: State, done: State, s1: State, q: Qid)
    requires Alive(s) && Self(s).pc.Opening?
    requires done == SetSelf(s, Self(s).(pc := User))
    requires s1 == if q in s.queues then done else done.(queues := done.queues[q := NEW_QUEUE])
    ensures SameRegistry(s, s1)
  {
  }

  lemma CloseStartExact(s: State, fd: Fd)
    requires Alive(s) && Self(s).pc.User? && RegistryExact(s)
    ensures RegistryExact(SetSelf(s, Self(s).(pc := Closing(fd, 0))))
  {
    var t := SetSelf(s, Self(s).(pc := Closing(fd, 0)));
    forall b | b in t.users ensures Registered(t, b) { assert Registered(s, b); }
    forall p | p in t.procs ensures ClosedSoFar(t.procs[p]) {
      if p != s.running.value { assert t.procs[p] == s.procs[p]; }
    }
  }

  lemma CloseSlotExact(s: State, fd: Fd, k: nat)
    requires EntriesOk(s) && Alive(s) && Self(s).pc == Closing(fd, k) && fd in Self(s).fds && k < |ALL_ROLES|
    requires RegistryExact(s)
    ensures RegistryExact(CloseStep(s))
  {
    var t := CloseStep(s);
    forall c | c in t.users ensures Registered(t, c) {
      assert Registered(s, c);
      assert SlotOk(s, s.users[c].pid, s.users[c].fd, s.users[c].role);
      CloseSlotRegistered(s, fd, k, c);
    }
    CloseSlotProgress(s, fd, k);
  }

  lemma CloseSlotProgress(s: State, fd: Fd, k: nat)
    requires EntriesOk(s) && Alive(s) && Self(s).pc == Closing(fd, k) && fd in Self(s).fds && k < |ALL_ROLES|
             && RegistryExact(s)
    ensures var t := CloseStep(s);
            && (forall p {:trigger t.procs[p]} :: p in t.procs ==> ClosedSoFar(t.procs[p]))
            && (forall p {:trigger t.procs[p]} :: p in t.procs && t.procs[p].status == Zombie ==>
                t.procs[p].fds == map[])
  {
    var t := CloseStep(s);
    CloseStepSelf(s, fd, k);
    SlotGivenUp(Self(s), t.procs[s.running.value], fd, k);
    assert Self(s).status != Zombie;
  }

  lemma CloseStepSelf(s: State, fd: Fd, k: nat)
    requires EntriesOk(s) && Alive(s) && Self(s).pc == Closing(fd, k) && fd in Self(s).fds && k < |ALL_ROLES|
    ensures var t := CloseStep(s);
            && t.procs == s.procs[s.running.value := t.procs[s.running.value]]
            && t.procs[s.running.value].status == Self(s).status
            && t.procs[s.running.value].pc == Closing(fd, k + 1)
            && fd in t.procs[s.running.value].fds
            && t.procs[s.running.value].fds[fd].slots == Self(s).fds[fd].slots - {ALL_ROLES[k]}
  {
    var role := ALL_ROLES[k];
    if role in Self(s).fds[fd].slots { assert SlotOk(s, s.running.value, fd, role); }
  }

  lemma SlotGivenUp(was: Proc, now: Proc, fd: Fd, k: nat)
    requires ClosedSoFar(was) && was.pc == Closing(fd, k) && fd in was.fds && k < |ALL_ROLES|
    requires now.pc == Closing(fd, k + 1) && fd in now.fds && now.fds[fd].slots == was.fds[fd].slots - {ALL_ROLES[k]}
    ensures ClosedSoFar(now)
  {
  }

  lemma CloseSlotRegistered(s: State, fd: Fd, k: nat, c: Block)
    requires EntriesOk(s) && Alive(s) && Self(s).pc == Closing(fd, k) && fd in Self(s).fds && k < |ALL_ROLES|
    requires c in CloseStep(s).users && c in s.users && Registered(s, c)
    ensures Registered(CloseStep(s), c)
  {
    var h, role := Self(s).fds[fd], ALL_ROLES[k];
    if role in h.slots { assert SlotOk(s, s.running.value, fd, role); }
    var u := s.users[c];
    assert c in Users(CloseSlot(s, fd, role).queues[u.queue], u.role);
  }

  lemma CloseStepExact(s: State)
    requires EntriesOk(s) && Alive(s) && Self(s).pc.Closing? && Self(s).pc.fd in Self(s).fds
    requires RegistryExact(s)
    ensures RegistryExact(CloseStep(s))
  {
    var fd, k := Self(s).pc.fd, Self(s).pc.done;
    if k < |ALL_ROLES| {
      CloseSlotExact(s, fd, k);
    } else {
      assert ClosedSoFar(Self(s));
      assert ALL_ROLES[0] !in Self(s).fds[fd].slots && ALL_ROLES[1] !in Self(s).fds[fd].slots
             && ALL_ROLES[2] !in Self(s).fds[fd].slots;
      forall role ensures role !in Self(s).fds[fd].slots {
        match role case Reader => case Writer => case NonBlock =>
      }
      assert Self(s).fds[fd].slots == map[];
      DropFdExact(s, fd, 0);
    }
  }

  lemma UnlinkExact(s: State, q: Qid)
    requires EntriesOk(s) && Alive(s) && Self(s).pc.User? && q in s.queues && RegistryExact(s)
    ensures RegistryExact(Unlink(s, q))
  {
    if Referenced(s, q) {
      NoteRegistry(s, Self(s).call, DSOS_ERESOURCEINUSE);
    } else {
      var t := Unlink(s, q);
      forall b | b in s.users ensures s.users[b].queue != q {
        assert Registered(s, b);
      }
      forall b | b in t.users ensures Registered(t, b) {
        assert Registered(s, b);
      }
      forall p | p in t.procs ensures ClosedSoFar(t.procs[p]) {
        assert ClosedSoFar(s.procs[p]);
      }
    }
  }

  lemma StepKeepsRegistry(s: State, step: Step)
    requires CoreInv(s) && RegistryExact(s) && Enabled(s, step) && Tidy(s, step)
    ensures RegistryExact(Apply(s, step))
  {
    assert s.procs[s.running.value].status != Zombie;
    if step.Tick? || step.Preempt? || step.Sleep? || step.WaitPid? || step.ExitWith? || step.SpawnChild? {
      TimedCallRegistry(s, step);
    } else {
      QueueCallRegistry(s, step);
    }
  }

  lemma TimedCallRegistry(s: State, step: Step)
    requires CoreInv(s) && RegistryExact(s) && Enabled(s, step) && Tidy(s, step) && Self(s).status != Zombie
    requires step.Tick? || step.Preempt? || step.Sleep? || step.WaitPid? || step.ExitWith? || step.SpawnChild?
    ensures RegistryExact(Apply(s, step))
  {
    match step
    case Tick => TickRegistry(s);
    case Preempt => PreemptRegistry(s);
    case Sleep(cycles) => NoteRegistry(s, OtherCall, Self(s).ret); SleepRegistry(Trap(s, OtherCall), cycles);
    case WaitPid(pid) => NoteRegistry(s, Wait(pid), Self(s).ret); WaitRegistry(Trap(s, Wait(pid)), pid);
    case ExitWith(value) => TrapRegistry(s); ExitRegistry(Trap(s, OtherCall), value);
    case SpawnChild => TrapRegistry(s); SpawnRegistry(Trap(s, OtherCall));
  }

  lemma TrapRegistry(s: State)
    requires CoreInv(s) && RegistryExact(s) && Alive(s)
    ensures CoreInv(Trap(s, OtherCall)) && RegistryExact(Trap(s, OtherCall))
  {
    NoteRegistry(s, OtherCall, Self(s).ret);
    TrapKeeps(s, OtherCall);
  }

  lemma TickRegistry(s: State)
    requires Placed(s) && StatusOk(s) && TimersOk(s) && RegistryExact(s) && Alive(s)
    ensures RegistryExact(Schedule(Later(s)))
  {
    RegistryFrame(s, Later(s));
    ScheduleRegistry(Later(s));
  }

  lemma PreemptRegistry(s: State)
    requires CoreInv(s) && RegistryExact(s) && Enabled(s, Preempt)
    ensures RegistryExact(Apply(s, Preempt))
  {
    NoteRegistry(s, OtherCall, Self(s).ret);
    TrapKeeps(s, OtherCall);
    ResumeRegistry(Trap(s, OtherCall));
    ResumeKeeps(Trap(s, OtherCall));
    ScheduleRegistry(Resume(Trap(s, OtherCall)));
  }

  lemma QueueCallRegistry(s: State, step: Step)
    requires CoreInv(s) && RegistryExact(s) && Enabled(s, step) && Self(s).status != Zombie
    requires !step.Tick? && !step.Preempt? && !step.Sleep? && !step.WaitPid? && !step.ExitWith? && !step.SpawnChild?
    ensures RegistryExact(Apply(s, step))
  {
    if step.OpenStart? || step.OpenFinish? || step.TransferStep? || step.WakeStep? || step.UnlinkStep? {
      NoteRegistry(s, OtherCall, Self(s).ret);
      TrapKeeps(s, OtherCall);
      TrappedRegistry(s, step);
    } else {
      match step
      case CloseStart(fd) => CloseStartExact(s, fd);
      case CloseContinue => CloseStepExact(s);
      case _ => PlainRegistry(s, step);
    }
  }

  lemma TrappedRegistry(s: State, step: Step)
    requires Enabled(s, step) && CoreInv(Trap(s, OtherCall)) && RegistryExact(Trap(s, OtherCall))
             && Self(s).status != Zombie
    requires step.OpenStart? || step.OpenFinish? || step.TransferStep? || step.WakeStep? || step.UnlinkStep?
    ensures RegistryExact(Apply(s, step))
  {
    var t := Trap(s, OtherCall);
    match step
    case OpenStart(q, roles) => OpenStartExact(t, q, roles);
    case OpenFinish(got) => OpenFinishExact(t, got);
    case TransferStep(grant) => TransferRegistry(t, grant);
    case WakeStep => WakeUpRegistry(t);
    case UnlinkStep(q) => UnlinkExact(t, q);
  }
}
