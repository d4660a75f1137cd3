/** What opening, closing, unlinking and the attributes of a queue change, in terms of the state
    before, and the queues that nobody can unlink any more. */
module KernelLifecycle {
  import opened Seqs
  import opened Constants
  import opened Timers
  import opened Payloads
  import opened KernelModel
  import opened KernelRun
  import opened KernelInv
  import opened KernelSched
  import opened KernelIpc
  import opened KernelOpen
  import opened KernelCore
  import opened KernelFamily
  import opened KernelQueues
  import opened KernelTheorems
  import opened KernelRoundTrip
  import opened KernelAnswers

  // Open.

  /** The first half of dmq_open: a descriptor number that was never used, without entries yet. */
  lemma OpenStartOutcome(s: State, q: Qid, roles: set<Role>)
    requires PcsOk(s) && Enabled(s, OpenStart(q, roles))
    ensures var fd := Self(s).lastFd;
            && fd !in Self(s).fds
            && Apply(s, OpenStart(q, roles)) ==
                 s.(procs := s.procs[s.running.value :=
                      Self(s).(call := OtherCall, ret := fd, lastFd := fd + 1, pc := Opening(fd, roles),
                               fds := Self(s).fds[fd := Handle(q, map[])])])
  {
    assert PcOk(s, s.running.value);
    var fd := Self(s).lastFd;
    Twice(s.procs, s.running.value, Self(s).(call := OtherCall),
          Self(s).(call := OtherCall, ret := fd, lastFd := fd + 1, pc := Opening(fd, roles),
                   fds := Self(s).fds[fd := Handle(q, map[])]));
  }

  /** The lists before this one, of those that the mode names, all got a block. */
  predicate Served(role: Role, roles: set<Role>, got: map<Role, Block>) {
    && (role != Reader && Reader in roles ==> Reader in got)
    && (role == NonBlock && Writer in roles ==> Writer in got)
  }

  /** The entries that are made: it ends with the first list for which there is no block. */
  function Reached(roles: set<Role>, got: map<Role, Block>): (reg: map<Role, Block>) {
    map role | role in got && role in roles && Served(role, roles, got) :: got[role]
  }

  /** The first `k` lists are served. */
  predicate ServedTo(k: nat, roles: set<Role>, got: map<Role, Block>)
    requires k <= 3
  {
    forall i {:trigger ALL_ROLES[i]} :: 0 <= i < k && ALL_ROLES[i] in roles ==> ALL_ROLES[i] in got
  }

  lemma ReachedAll(roles: set<Role>, got: map<Role, Block>)
    requires got.Keys == roles
    ensures Reached(roles, got) == got
  {
  }

  /** It stops at list `k`. */
  lemma ReachedTo(k: nat, roles: set<Role>, got: map<Role, Block>)
    requires got.Keys <= roles && k < 3 && ServedTo(k, roles, got)
    requires ALL_ROLES[k] in roles && ALL_ROLES[k] !in got
    ensures Reached(roles, got) == UpTo(k, got)
  {
    UpToPart(k, got);
    assert ALL_ROLES[0] == Reader && ALL_ROLES[1] == Writer && ALL_ROLES[2] == NonBlock;
    assert k == 0 || k == 1 || k == 2;
  }

  lemma OneList(s: State, pr: Proc, fd: Fd, q: Qid, reg: map<Role, Block>, role: Role, rest: seq<Role>,
      roles: set<Role>, got: map<Role, Block>)
    requires Alive(s) && q in s.queues && role !in reg && Apart(reg) && Apart(Slots(reg, role, got))
    requires role in roles <==> role in got
    ensures RegisterAll(Holding(s, pr, fd, q, reg), fd, [role] + rest, roles, got) ==
              RegisterAll(Holding(s, pr, fd, q, Slots(reg, role, got)), fd, rest, roles, got)
  {
    assert ([role] + rest)[1..] == rest;
    if role in got { RegisterMore(s, pr, fd, q, reg, role, got[role]); }
  }

  lemma StopsHere(s: State, pr: Proc, fd: Fd, q: Qid, reg: map<Role, Block>, role: Role, rest: seq<Role>,
      roles: set<Role>, got: map<Role, Block>)
    requires Alive(s) && q in s.queues && Apart(reg) && role in roles && role !in got
    ensures RegisterAll(Holding(s, pr, fd, q, reg), fd, [role] + rest, roles, got) ==
              Holding(s, pr.(ret := LIST_INSERTION_ERROR), fd, q, reg)
  {
    ReturnHolding(s, pr, fd, q, reg, LIST_INSERTION_ERROR);
  }

  lemma {:induction false} Lists(s: State, pr: Proc, fd: Fd, q: Qid, k: nat, roles: set<Role>, got: map<Role, Block>)
    requires Alive(s) && q in s.queues && Apart(got) && k <= 3 && got.Keys <= roles && ServedTo(k, roles, got)
    ensures Apart(UpTo(k, got)) && Apart(Reached(roles, got))
    ensures RegisterAll(Holding(s, pr, fd, q, UpTo(k, got)), fd, ALL_ROLES[k..], roles, got) ==
              Holding(s, pr.(ret := if got.Keys == roles then fd else LIST_INSERTION_ERROR), fd, q, Reached(roles, got))
    decreases 3 - k
  {
    UpToPart(k, got);
    PartApart(UpTo(k, got), got);
    PartApart(Reached(roles, got), got);
    if k == 3 {
      AllServed(roles, got);
      UpToAll(got);
      ReachedAll(roles, got);
      ReturnHolding(s, pr, fd, q, got, fd);
    } else {
      assert ALL_ROLES[k..] == [ALL_ROLES[k]] + ALL_ROLES[k + 1..];
      if ALL_ROLES[k] in roles && ALL_ROLES[k] !in got {
        ReachedTo(k, roles, got);
        StopsHere(s, pr, fd, q, UpTo(k, got), ALL_ROLES[k], ALL_ROLES[k + 1..], roles, got);
      } else {
        Lists(s, pr, fd, q, k + 1, roles, got);
        OneList(s, pr, fd, q, UpTo(k, got), ALL_ROLES[k], ALL_ROLES[k + 1..], roles, got);
      }
    }
  }

  lemma AllServed(roles: set<Role>, got: map<Role, Block>)
    requires got.Keys <= roles && ServedTo(3, roles, got)
    ensures got.Keys == roles
  {
    forall r: Role | r in roles ensures r in got {
      assert r == ALL_ROLES[0] || r == ALL_ROLES[1] || r == ALL_ROLES[2];
    }
  }

  /** Some descriptor other than this one of the running process refers to the queue. */
  predicate HeldElsewhere(s: State, q: Qid, fd: Fd)
    requires Alive(s)
  {
    || q in s.orphans
    || exists p, f :: p in s.procs && f in s.procs[p].fds && s.procs[p].fds[f].queue == q
                      && (p != s.running.value || f != fd)
  }

  function OpenedQueue(s: State): Qid
    requires Alive(s) && Self(s).pc.Opening? && Self(s).pc.fd in Self(s).fds
  {
    Self(s).fds[Self(s).pc.fd].queue
  }

  /** With no place for another queue the descriptor goes again. */
  lemma OpenRefused(s: State, got: map<Role, Block>)
    requires Enabled(s, OpenFinish(got)) && OpenedQueue(s) !in s.queues && |s.queues| >= MAX_NUM_QUEUES
    ensures var fd := Self(s).pc.fd;
            Apply(s, OpenFinish(got)) ==
              s.(procs := s.procs[s.running.value :=
                   Self(s).(call := OtherCall, pc := User, fds := Self(s).fds - {fd},
                            ret := if HeldElsewhere(s, OpenedQueue(s), fd) then DSOS_ERESOURCEINUSE
                                   else DSOS_EQUEUEOPEN)])
  {
    RefusedForm(Trap(s, OtherCall), got);
    HeldTrap(s, OpenedQueue(s), Self(s).pc.fd);
    Twice(s.procs, s.running.value, Self(s).(call := OtherCall), Self(Apply(s, OpenFinish(got))));
  }

  lemma HeldTrap(s: State, q: Qid, fd: Fd)
    requires Alive(s)
    ensures HeldElsewhere(Trap(s, OtherCall), q, fd) <==> HeldElsewhere(s, q, fd)
  {
    var r := Trap(s, OtherCall);
    assert forall p :: p in s.procs ==> r.procs[p].fds == s.procs[p].fds;
  }

  lemma RefusedForm(s: State, got: map<Role, Block>)
    requires Alive(s) && Self(s).pc.Opening? && Self(s).pc.fd in Self(s).fds
    requires OpenedQueue(s) !in s.queues && |s.queues| >= MAX_NUM_QUEUES
    ensures var fd := Self(s).pc.fd;
            OpenQueue(s, got) ==
              SetSelf(s, Self(s).(pc := User, fds := Self(s).fds - {fd},
                                  ret := if HeldElsewhere(s, OpenedQueue(s), fd) then DSOS_ERESOURCEINUSE
                                         else DSOS_EQUEUEOPEN))
  {
    var fd := Self(s).pc.fd;
    var closed := SetSelf(s, Self(s).(pc := User, fds := Self(s).fds - {fd}));
    Twice(s.procs, s.running.value, Self(s).(pc := User), Self(closed));
    HeldIff(s, closed, OpenedQueue(s), fd);
    Twice(s.procs, s.running.value, Self(closed), Self(OpenQueue(s, got)));
  }

  lemma HeldIff(s: State, closed: State, q: Qid, fd: Fd)
    requires Alive(s) && closed == SetSelf(s, Self(s).(pc := User, fds := Self(s).fds - {fd}))
    ensures Referenced(closed, q) <==> HeldElsewhere(s, q, fd)
  {
    if q !in s.orphans && Referenced(closed, q) {
      var p, f :| p in closed.procs && f in closed.procs[p].fds && closed.procs[p].fds[f].queue == q;
      assert f in s.procs[p].fds && s.procs[p].fds[f].queue == q;
    }
    if q !in s.orphans && HeldElsewhere(s, q, fd) {
      var p, f :| p in s.procs && f in s.procs[p].fds && s.procs[p].fds[f].queue == q
                  && (p != s.running.value || f != fd);
      assert f in closed.procs[p].fds && closed.procs[p].fds[f].queue == q;
    }
  }

  /** The state in which the lists are joined: the queue is there, and empty if it is new. */
  function WithQueue(s: State, q: Qid): State {
    if q in s.queues then s
    else s.(queues := s.queues[q := Queue([], [], [], [], MAX_NUM_MESSAGES_PER_QUEUE, MAX_MESSAGE_SIZE, [], [])])
  }

  /** Otherwise the descriptor gets its entries. Each stands at the end of its list, and the call
      returns the descriptor number when it got a block for every list that the mode names; if not,
      it returns the error, and the entries made before stay. */
  lemma OpenOutcome(s: State, got: map<Role, Block>)
    requires PcsOk(s) && Enabled(s, OpenFinish(got)) && (OpenedQueue(s) in s.queues || |s.queues| < MAX_NUM_QUEUES)
    ensures var fd, q, roles := Self(s).pc.fd, OpenedQueue(s), Self(s).pc.roles;
            && Apart(Reached(roles, got))
            && Apply(s, OpenFinish(got)) ==
                 Holding(WithQueue(s, q),
                         Self(s).(call := OtherCall, pc := User,
                                  ret := if got.Keys == roles then fd else LIST_INSERTION_ERROR),
                         fd, q, Reached(roles, got))
  {
    var r := Trap(s, OtherCall);
    assert PcOk(s, s.running.value);
    OpenedLists(r, got);
    HoldingTrap(s, Self(s).(call := OtherCall, pc := User,
                            ret := if got.Keys == Self(s).pc.roles then Self(s).pc.fd else LIST_INSERTION_ERROR),
                Self(s).pc.fd, OpenedQueue(s), Reached(Self(s).pc.roles, got));
  }

  lemma HoldingTrap(s: State, pr: Proc, fd: Fd, q: Qid, reg: map<Role, Block>)
    requires Alive(s) && Apart(reg)
    ensures Holding(WithQueue(Trap(s, OtherCall), q), pr, fd, q, reg) == Holding(WithQueue(s, q), pr, fd, q, reg)
  {
    Twice(s.procs, s.running.value, Self(s).(call := OtherCall), pr.(fds := pr.fds[fd := Handle(q, reg)]));
  }

  lemma OpenedLists(s: State, got: map<Role, Block>)
    requires Alive(s) && Self(s).pc.Opening? && Self(s).pc.fd in Self(s).fds && PoolGrants(s, Self(s).pc.roles, got)
    requires Self(s).fds[Self(s).pc.fd].slots == map[] && (OpenedQueue(s) in s.queues || |s.queues| < MAX_NUM_QUEUES)
    ensures var fd, q, roles := Self(s).pc.fd, OpenedQueue(s), Self(s).pc.roles;
            && Apart(Reached(roles, got))
            && OpenQueue(s, got) ==
                 Holding(WithQueue(s, q),
                         Self(s).(pc := User, ret := if got.Keys == roles then fd else LIST_INSERTION_ERROR),
                         fd, q, Reached(roles, got))
  {
    var fd, q, pr := Self(s).pc.fd, OpenedQueue(s), Self(s).(pc := User);
    var base := WithQueue(s, q);
    NothingHeld(base, pr, fd, q);
    assert pr.fds[fd := Handle(q, map[])] == pr.fds;
    Lists(base, pr, fd, q, 0, Self(s).pc.roles, got);
    assert ALL_ROLES[0..] == ALL_ROLES;
  }

  // Close.

  /** The list that step `k` of dmq_close looks at. */
  function Section(k: nat): Role {
    if k == 0 then Reader else if k == 1 then Writer else NonBlock
  }

  /** The caller closes descriptor `fd` and has `k` of its three lists behind it. */
  predicate ClosingAt(s: State, fd: Fd, k: nat) {
    Alive(s) && Self(s).pc == Closing(fd, k) && fd in Self(s).fds
  }

  /** Only the given queue changes, and of it only the given list, which loses one entry. */
  ghost predicate LosesEntry(s: State, t: State, q: Qid, role: Role, b: Block) {
    && t.queues.Keys == s.queues.Keys && q in s.queues && SameContents(s.queues[q], t.queues[q])
    && Users(t.queues[q], role) == Without(Users(s.queues[q], role), {b})
    && (forall r :: r != role ==> Users(t.queues[q], r) == Users(s.queues[q], r))
    && forall r :: r in s.queues && r != q ==> t.queues[r] == s.queues[r]
  }

  /** One list of dmq_close: the entry that the descriptor has in it, if any, goes, and so does its
      block. */
  lemma CloseListOutcome(s: State, fd: Fd, k: nat)
    requires EntriesOk(s) && Enabled(s, CloseContinue) && ClosingAt(s, fd, k) && k < 3
    ensures var t, h, p, role := Apply(s, CloseContinue), Self(s).fds[fd], s.running.value, Section(k);
            if role in h.slots then
              && LosesEntry(s, t, h.queue, role, h.slots[role])
              && t == s.(queues := t.queues, users := s.users - {h.slots[role]},
                         procs := s.procs[p := Self(s).(pc := Closing(fd, k + 1),
                             fds := Self(s).fds[fd := h.(slots := h.slots - {role})])])
            else t == s.(procs := s.procs[p := Self(s).(pc := Closing(fd, k + 1))])
  {
    var h, role := Self(s).fds[fd], Section(k);
    assert ALL_ROLES[k] == role;
    if role in h.slots {
      assert SlotOk(s, s.running.value, fd, role);
      var now := Self(s).(fds := Self(s).fds[fd := h.(slots := h.slots - {role})]);
      Twice(s.procs, s.running.value, now, now.(pc := Closing(fd, k + 1)));
    }
  }

  /** The end of dmq_close: the descriptor goes and the call returns 0. */
  lemma CloseEnds(s: State, fd: Fd, k: nat)
    requires Enabled(s, CloseContinue) && ClosingAt(s, fd, k) && k >= 3
    ensures Apply(s, CloseContinue) ==
              s.(procs := s.procs[s.running.value := Self(s).(fds := Self(s).fds - {fd}, pc := User, ret := 0)])
  {
  }

  // Unlink.

  /** Some process has a descriptor for the queue, or has left one behind. */
  predicate Pinned(s: State, q: Qid) {
    q in s.orphans || exists p :: p in s.procs && RefersTo(s.procs[p], q)
  }

  lemma PinnedIff(s: State, q: Qid)
    ensures Pinned(s, q) <==> Referenced(s, q)
  {
    if q !in s.orphans && Referenced(s, q) {
      var p, fd :| p in s.procs && fd in s.procs[p].fds && s.procs[p].fds[fd].queue == q;
      assert RefersTo(s.procs[p], q);
    }
  }

  lemma PinnedTrap(s: State, q: Qid)
    requires Alive(s)
    ensures Pinned(Trap(s, OtherCall), q) <==> Pinned(s, q)
  {
    var r := Trap(s, OtherCall);
    assert forall p :: p in s.procs ==> (RefersTo(r.procs[p], q) <==> RefersTo(s.procs[p], q));
  }

  /** unlink of a queue with a descriptor is refused, and nothing else happens. */
  lemma UnlinkRefused(s: State, q: Qid)
    requires Enabled(s, UnlinkStep(q)) && Pinned(s, q)
    ensures Apply(s, UnlinkStep(q)) ==
              s.(procs := s.procs[s.running.value := Self(s).(call := OtherCall, ret := DSOS_ERESOURCEINUSE)])
  {
    PinnedTrap(s, q);
    PinnedIff(Trap(s, OtherCall), q);
    Twice(s.procs, s.running.value, Self(s).(call := OtherCall),
          Self(s).(call := OtherCall, ret := DSOS_ERESOURCEINUSE));
  }

  /** Without one the queue goes, and so does every entry in its lists. */
  lemma UnlinkOutcome(s: State, q: Qid)
    requires Enabled(s, UnlinkStep(q)) && !Pinned(s, q)
    ensures var t := Apply(s, UnlinkStep(q));
            && t == s.(queues := s.queues - {q}, users := t.users, unlinked := s.unlinked + {q},
                       procs := s.procs[s.running.value := Self(s).(call := OtherCall, ret := 0)])
            && (forall b :: b in t.users <==> b in s.users && forall role :: b !in Users(s.queues[q], role))
            && forall b :: b in t.users ==> t.users[b] == s.users[b]
  {
    PinnedTrap(s, q);
    PinnedIff(Trap(s, OtherCall), q);
    Twice(s.procs, s.running.value, Self(s).(call := OtherCall), Self(s).(call := OtherCall, ret := 0));
    forall b ensures b in Apply(s, UnlinkStep(q)).users <==>
                     b in s.users && forall role :: b !in Users(s.queues[q], role)
    {
      var x := s.queues[q];
      assert Users(x, Reader) == x.readers && Users(x, Writer) == x.writers && Users(x, NonBlock) == x.nonBlock;
    }
  }

  /** A child that leaves a descriptor of a queue behind when its parent reaps it: from then on
      the queue cannot be unlinked. */
  lemma ReapedChildPins(s: State, pid: int, c: Pid, q: Qid)
    requires CoreInv(s) && Kin(s) && Enabled(s, WaitPid(pid)) && Reapable(s, Self(s).children, pid, c)
    requires c in s.procs && RefersTo(s.procs[c], q) && q in s.queues
    ensures var t := Apply(s, WaitPid(pid));
            && q in t.orphans && Enabled(t, UnlinkStep(q))
            && var u := Apply(t, UnlinkStep(q));
               Alive(u) && u.running == s.running && Self(u).ret == DSOS_ERESOURCEINUSE && u.queues == s.queues
  {
    var t := Apply(s, WaitPid(pid));
    WaitTakes(s, pid, c);
    UnlinkRefused(t, q);
  }

  // What is left behind stays.

  /** No descriptor that was left behind goes, and no queue but the given one. */
  ghost predicate KeepsOrphans(s: State, t: State) {
    s.orphans <= t.orphans && s.queues.Keys <= t.queues.Keys
  }

  lemma {:induction false} RegisterKeepsOrphans(s: State, fd: Fd, order: seq<Role>, roles: set<Role>,
                                                got: map<Role, Block>)
    requires Alive(s) && fd in Self(s).fds && Self(s).fds[fd].queue in s.queues
    ensures KeepsOrphans(s, RegisterAll(s, fd, order, roles, got))
    decreases order
  {
    if order != [] && order[0] !in roles {
      RegisterKeepsOrphans(s, fd, order[1..], roles, got);
    } else if order != [] && order[0] in got {
      RegisterKeepsOrphans(Register(s, fd, order[0], got[order[0]]), fd, order[1..], roles, got);
    }
  }

  lemma OpenKeepsOrphans(s: State, got: map<Role, Block>)
    requires Alive(s) && Self(s).pc.Opening? && Self(s).pc.fd in Self(s).fds
    ensures KeepsOrphans(s, OpenQueue(s, got))
  {
    var fd := Self(s).pc.fd;
    var q := Self(s).fds[fd].queue;
    if q in s.queues || |s.queues| < MAX_NUM_QUEUES {
      var done := SetSelf(s, Self(s).(pc := User));
      RegisterKeepsOrphans(if q in s.queues then done else done.(queues := done.queues[q := NEW_QUEUE]), fd, ALL_ROLES,
                           Self(s).pc.roles, got);
    }
  }

  lemma TransferKeepsOrphans(s: State, grant: Grant)
    requires Alive(s) && InCall(s, s.running.value) && UsableGrant(grant)
    requires |Payload(Self(s).pc.msg, s.queues[CallQueue(s, s.running.value)].msgSize)| <= MAX_MESSAGE_SIZE
    ensures KeepsOrphans(s, Transfer(s, grant))
  {
  }

  lemma WaitKeepsOrphans(s: State, pid: int)
    requires Alive(s)
    ensures KeepsOrphans(s, WaitFor(s, pid))
  {
  }

  lemma ExitKeepsOrphans(s: State, value: int)
    requires Alive(s) && Self(s).parent.Some?
    ensures KeepsOrphans(s, Exit(s, value))
  {
  }

  lemma ScheduleKeepsOrphans(s: State)
    requires s.running.Some?
    ensures KeepsOrphans(s, Schedule(s))
  {
  }

  lemma StepKeepsOrphan(s: State, step: Step, q: Qid)
    requires Enabled(s, step) && q in s.orphans && q in s.queues
    ensures q in Apply(s, step).orphans && q in Apply(s, step).queues
  {
    match step
    case Tick => ScheduleKeepsOrphans(Later(s));
    case Preempt => ScheduleKeepsOrphans(Resume(Trap(s, OtherCall)));
    case WaitPid(pid) => WaitKeepsOrphans(Trap(s, Wait(pid)), pid);
    case ExitWith(value) => ExitKeepsOrphans(Trap(s, OtherCall), value);
    case OpenFinish(got) => OpenKeepsOrphans(Trap(s, OtherCall), got);
    case TransferStep(grant) => TransferKeepsOrphans(Trap(s, OtherCall), grant);
    case _ =>
  }

  /** Over every run: once a reaped child has left a descriptor of a queue behind, the queue stays
      for ever. */
  lemma {:induction false} OrphanStays(states: seq<State>, steps: seq<Step>, i: nat, j: nat, q: Qid)
    requires Path(states, steps) && i <= j <= |steps| && q in states[i].orphans && q in states[i].queues
    ensures q in states[j].orphans && q in states[j].queues
    decreases j
  {
    if i < j {
      OrphanStays(states, steps, i, j - 1, q);
      OrphanNext(states, steps, j - 1, q);
    }
  }

  lemma OrphanNext(states: seq<State>, steps: seq<Step>, k: nat, q: Qid)
    requires Path(states, steps) && k < |steps| && q in states[k].orphans && q in states[k].queues
    ensures q in states[k + 1].orphans && q in states[k + 1].queues
  {
    RunStep(states, steps, k);
    StepKeepsOrphan(states[k], steps[k], q);
  }

  /** And every unlink of it is refused. */
  lemma OrphanRefused(states: seq<State>, steps: seq<Step>, i: nat, j: nat, q: Qid)
    requires Path(states, steps) && i <= j < |steps| && q in states[i].orphans && q in states[i].queues
    requires steps[j] == UnlinkStep(q)
    ensures Alive(states[j]) && states[j + 1].running == states[j].running
    ensures states[j + 1].procs == states[j].procs[states[j].running.value :=
                Self(states[j]).(call := OtherCall, ret := DSOS_ERESOURCEINUSE)]
  {
    OrphanStays(states, steps, i, j, q);
    RunStep(states, steps, j);
    UnlinkRefused(states[j], q);
  }

  // The attributes.

  /** dmq_setattr for the number of messages: a limit above the maximum is refused, any other becomes
      the limit of the queue, and nothing else changes. */
  lemma MaxOutcome(s: State, fd: Fd, newVal: int)
    requires Enabled(s, MaxStep(fd, newVal))
    ensures var q := Self(s).fds[fd].queue;
            && (SetMax(s, q, newVal).1 == INVALID_VALUE <==> newVal > MAX_NUM_MESSAGES_PER_QUEUE)
            && (SetMax(s, q, newVal).1 == 0 <==> newVal <= MAX_NUM_MESSAGES_PER_QUEUE)
            && Apply(s, MaxStep(fd, newVal)) ==
                 if newVal > MAX_NUM_MESSAGES_PER_QUEUE then s
                 else s.(queues := s.queues[q := s.queues[q].(maxMessages := newVal)])
  {
  }

  /** dmq_setattr for the message size: refused while a message is queued. */
  lemma SizeOutcome(s: State, fd: Fd, newVal: int)
    requires Enabled(s, SizeStep(fd, newVal))
    ensures var q := Self(s).fds[fd].queue;
            && (SetMsgSize(s, q, newVal).1 == OPERATION_NOT_AVAILABLE <==> s.queues[q].messages != [])
            && (SetMsgSize(s, q, newVal).1 == 0 <==> s.queues[q].messages == [])
            && Apply(s, SizeStep(fd, newVal)) ==
                 if s.queues[q].messages != [] then s
                 else s.(queues := s.queues[q := s.queues[q].(msgSize := newVal)])
  {
  }
}
