/** Whom the wake-up call wakes, and that nobody is passed over. */
module KernelOrder {
  import opened Seqs
  import opened Constants
  import opened Timers
  import opened Payloads
  import opened KernelModel
  import opened KernelRun
  import opened KernelInv
  import opened KernelSched
  import opened KernelIpc
  import opened KernelOpen
  import opened KernelCore
  import opened KernelTheorems

  /** The entry is marked waiting and its process is parked. */
  predicate ParkedUser(s: State, b: Block) {
    b in s.users && s.users[b].status == Waiting && s.users[b].pid in s.waiting
  }

  /** The entry at position `k` is the first one of a parked user. */
  predicate FirstParked(s: State, entries: seq<Block>, k: int) {
    0 <= k < |entries| && ParkedUser(s, entries[k]) && forall j :: 0 <= j < k ==> !ParkedUser(s, entries[j])
  }

  /** The nested search ends at the first entry of a parked user, and finds nothing only when
      there is none. */
  lemma {:induction false} SearchIsFirst(s: State, entries: seq<Block>)
    ensures forall k {:trigger FirstParked(s, entries, k)} :: FirstParked(s, entries, k) ==>
              FirstWaiter(s, entries) == Some(entries[k])
    ensures FirstWaiter(s, entries).None? <==> forall b :: b in entries ==> !ParkedUser(s, b)
  {
    if entries != [] && !ParkedUser(s, entries[0]) {
      SearchIsFirst(s, entries[1..]);
      forall k | FirstParked(s, entries, k) ensures FirstWaiter(s, entries) == Some(entries[k]) {
        assert forall j :: 0 <= j < k - 1 ==> entries[1..][j] == entries[j + 1];
        assert FirstParked(s, entries[1..], k - 1);
      }
    } else if entries != [] {
      assert ParkedUser(s, entries[0]) && FirstWaiter(s, entries) == Some(entries[0]);
      assert forall k {:trigger FirstParked(s, entries, k)} :: FirstParked(s, entries, k) ==> k <= 0;
    }
  }

  /** The users that a wake-up call of the running process may wake. */
  function OtherSide(s: State): seq<Block>
    requires Alive(s) && InCall(s, s.running.value)
  {
    Users(s.queues[CallQueue(s, s.running.value)], if Self(s).pc.role == Reader then Writer else Reader)
  }

  /** The queue has a message for a waiting reader, or a place for a waiting writer. */
  predicate CanServe(s: State)
    requires Alive(s) && InCall(s, s.running.value)
  {
    var q := s.queues[CallQueue(s, s.running.value)];
    if Self(s).pc.role == Reader then |q.messages| < q.maxMessages else q.messages != []
  }

  /** The caller is back in its own code, with result 0, and has noted the call. */
  function BackFromCall(pr: Proc): Proc {
    pr.(call := OtherCall, ret := 0, pc := User)
  }

  lemma TrapCaller(s: State)
    requires Alive(s) && InCall(s, s.running.value)
    ensures var r := Trap(s, OtherCall);
            && Alive(r) && InCall(r, s.running.value) && OtherSide(r) == OtherSide(s) && CanServe(r) == CanServe(s)
            && Self(r) == Self(s).(call := OtherCall)
            && r == s.(procs := s.procs[s.running.value := Self(s).(call := OtherCall)])
            && forall b :: ParkedUser(r, b) <==> ParkedUser(s, b)
  {
  }

  /** The call from inside the kernel on, when the search finds nobody. */
  lemma NobodyFound(s: State)
    requires Alive(s) && InCall(s, s.running.value)
    requires CanServe(s) ==> FirstWaiter(s, OtherSide(s)).None?
    ensures WakeUpQueue(s) == SetSelf(s, Self(s).(ret := 0, pc := User))
  {
  }

  /** And when it finds the entry `b`. */
  lemma OneFound(s: State, b: Block)
    requires Alive(s) && InCall(s, s.running.value) && CanServe(s) && FirstWaiter(s, OtherSide(s)) == Some(b)
    requires b in OtherSide(s) && b in s.users
    ensures WakeUpQueue(s) ==
              s.(users := s.users[b := s.users[b].(status := Running)],
                 waiting := Without(s.waiting, {s.users[b].pid}), ready := s.ready + [s.users[b].pid],
                 procs := s.procs[s.running.value := Self(s).(ret := 0, pc := User)])
  {
  }

  /** What the wake-up call does. The process of the first parked user of the other side goes from
      the waiting list to the end of the ready list, provided that the queue could serve it, and
      its entry is no longer marked; everybody else stays where he is. */
  lemma WakeOutcome(s: State, k: int)
    requires Enabled(s, WakeStep) && CanServe(s) && FirstParked(s, OtherSide(s), k)
    ensures var t, b := Apply(s, WakeStep), OtherSide(s)[k];
            t == s.(users := s.users[b := s.users[b].(status := Running)],
                    waiting := Without(s.waiting, {s.users[b].pid}), ready := s.ready + [s.users[b].pid],
                    procs := s.procs[s.running.value := BackFromCall(Self(s))])
  {
    var r, b := Trap(s, OtherCall), OtherSide(s)[k];
    TrapCaller(s);
    assert FirstParked(r, OtherSide(r), k);
    SearchIsFirst(r, OtherSide(r));
    OneFound(r, b);
    SetTwice(s, Self(s).(call := OtherCall), BackFromCall(Self(s)));
  }

  lemma SetTwice(s: State, a: Proc, b: Proc)
    requires Alive(s)
    ensures s.procs[s.running.value := a][s.running.value := b] == s.procs[s.running.value := b]
  {
  }

  /** When the queue could serve nobody of the other side, or nobody of it is parked, nothing else
      happens. */
  lemma WakeNobody(s: State)
    requires Enabled(s, WakeStep) && (CanServe(s) ==> forall b :: b in OtherSide(s) ==> !ParkedUser(s, b))
    ensures Apply(s, WakeStep) == s.(procs := s.procs[s.running.value := BackFromCall(Self(s))])
  {
    var r := Trap(s, OtherCall);
    TrapCaller(s);
    SearchIsFirst(r, OtherSide(r));
    NobodyFound(r);
    SetTwice(s, Self(s).(call := OtherCall), BackFromCall(Self(s)));
  }

  // Nobody is passed over.

  /** `a` stands before `b`. */
  predicate Before(xs: seq<Block>, a: Block, b: Block) {
    exists i, j :: 0 <= i < j < |xs| && xs[i] == a && xs[j] == b
  }

  lemma BeforeIn(xs: seq<Block>, a: Block, b: Block)
    requires Before(xs, a, b)
    ensures a in xs && b in xs
  {
  }

  lemma {:induction false} WithoutKeepsOrder(xs: seq<Block>, gone: set<Block>, a: Block, b: Block)
    requires Before(xs, a, b) && a !in gone && b !in gone
    ensures Before(Without(xs, gone), a, b)
  {
    var i, j :| 0 <= i < j < |xs| && xs[i] == a && xs[j] == b;
    var rest := xs[1..];
    if i == 0 {
      assert rest[j - 1] == b;
      var ys := Without(xs, gone);
      assert b in Without(rest, gone);
      var k :| 0 <= k < |Without(rest, gone)| && Without(rest, gone)[k] == b;
      assert ys[0] == a && ys[k + 1] == b;
    } else {
      assert rest[i - 1] == a && rest[j - 1] == b;
      WithoutKeepsOrder(rest, gone, a, b);
      if xs[0] !in gone { OneMoreInFront(xs[0], Without(rest, gone), a, b); }
    }
  }

  lemma OneMoreInFront(x: Block, xs: seq<Block>, a: Block, b: Block)
    requires Before(xs, a, b)
    ensures Before([x] + xs, a, b)
  {
    var i, j :| 0 <= i < j < |xs| && xs[i] == a && xs[j] == b;
    assert ([x] + xs)[i + 1] == a && ([x] + xs)[j + 1] == b;
  }

  lemma AppendKeepsOrder(xs: seq<Block>, ys: seq<Block>, a: Block, b: Block)
    requires Before(xs, a, b)
    ensures Before(xs + ys, a, b)
  {
    var i, j :| 0 <= i < j < |xs| && xs[i] == a && xs[j] == b;
    assert (xs + ys)[i] == a && (xs + ys)[j] == b;
  }

  /** The later list is the earlier one with some entries taken out and some added at the end. */
  ghost predicate Follows(xs: seq<Block>, ys: seq<Block>, gone: set<Block>) {
    exists more :: ys == Without(xs, gone) + more
  }

  lemma FollowsKeepsOrder(xs: seq<Block>, ys: seq<Block>, gone: set<Block>, a: Block, b: Block)
    requires Follows(xs, ys, gone) && Before(xs, a, b) && a !in gone && b !in gone
    ensures Before(ys, a, b)
  {
    var more :| ys == Without(xs, gone) + more;
    WithoutKeepsOrder(xs, gone, a, b);
    AppendKeepsOrder(Without(xs, gone), more, a, b);
  }

  predicate Marked(s: State, b: Block) {
    b in s.users && s.users[b].status == Waiting
  }

  /** `b` waits behind `a` for the same thing. */
  predicate WaitsBehind(s: State, q: Qid, role: Role, a: Block, b: Block) {
    q in s.queues && Before(Users(s.queues[q], role), a, b) && Marked(s, a) && Marked(s, b)
  }

  /** Who is marked stays marked, and the marked ones keep their order. */
  ghost predicate SameTurns(s: State, t: State) {
    && (forall b {:trigger Marked(s, b)} :: Marked(s, b) ==> Marked(t, b))
    && forall q, role, a, b {:trigger WaitsBehind(s, q, role, a, b)} :: WaitsBehind(s, q, role, a, b) ==>
         WaitsBehind(t, q, role, a, b)
  }

  lemma TurnsTrans(s: State, t: State, u: State)
    requires SameTurns(s, t) && SameTurns(t, u)
    ensures SameTurns(s, u)
  {
  }

  /** Nothing about the queues changes but marks that are set. */
  lemma ListsKeepTurns(s: State, t: State)
    requires forall b {:trigger Marked(s, b)} :: Marked(s, b) ==> Marked(t, b)
    requires forall q {:trigger s.queues[q]} :: q in s.queues ==> q in t.queues && SameLists(s.queues[q], t.queues[q])
    ensures SameTurns(s, t)
  {
    forall q, role, a, b | WaitsBehind(s, q, role, a, b) ensures WaitsBehind(t, q, role, a, b) {
      assert SameLists(s.queues[q], t.queues[q]);
    }
  }

  lemma UntouchedTurns(s: State, t: State)
    requires t.queues == s.queues && t.users == s.users
    ensures SameTurns(s, t)
  {
    ListsKeepTurns(s, t);
  }

  /** Entries go that are not marked, and others come at the end. */
  lemma MovesKeepTurns(s: State, t: State, gone: set<Block>)
    requires forall b {:trigger Marked(s, b)} :: Marked(s, b) ==> Marked(t, b) && b !in gone
    requires forall q, role {:trigger Users(s.queues[q], role)} :: q in s.queues && q in t.queues ==>
               Follows(Users(s.queues[q], role), Users(t.queues[q], role), gone)
    requires forall q, role, b {:trigger b in Users(s.queues[q], role)} ::
               q in s.queues && b in Users(s.queues[q], role) && Marked(s, b) ==> q in t.queues
    ensures SameTurns(s, t)
  {
    forall q, role, a, b | WaitsBehind(s, q, role, a, b) ensures WaitsBehind(t, q, role, a, b) {
      BeforeIn(Users(s.queues[q], role), a, b);
      assert q in t.queues && Follows(Users(s.queues[q], role), Users(t.queues[q], role), gone);
      FollowsKeepsOrder(Users(s.queues[q], role), Users(t.queues[q], role), gone, a, b);
    }
  }

  lemma SameFollows(xs: seq<Block>, gone: set<Block>)
    requires forall x :: x in gone ==> x !in xs
    ensures Follows(xs, xs, gone)
  {
    WithoutNone(xs, gone);
    assert xs == Without(xs, gone) + [];
  }

  // The steps.

  /** A process that is in its own code, or closing, has no marked entry. */
  lemma OwnUnmarked(s: State, p: Pid, fd: Fd, role: Role)
    requires EntriesOk(s) && BlockedOk(s) && p in s.procs && !s.procs[p].pc.Calling?
    requires fd in s.procs[p].fds && role in s.procs[p].fds[fd].slots
    ensures !Marked(s, s.procs[p].fds[fd].slots[role])
  {
    var b := s.procs[p].fds[fd].slots[role];
    assert SlotOk(s, p, fd, role);
    assert Marked(s, b) ==> Blocked(s, b);
  }

  lemma HandOverTurns(s: State, parent: Pid)
    requires EntriesOk(s) && BlockedOk(s) && Alive(s) && parent in s.procs && !Self(s).pc.Calling?
    ensures SameTurns(s, HandOver(s, parent))
  {
    var t, held := HandOver(s, parent), HeldBlocks(Self(s));
    forall b {:trigger Marked(s, b)} | Marked(s, b) ensures Marked(t, b) && b !in held {
      if fd, role :| fd in Self(s).fds && role in Self(s).fds[fd].slots && Self(s).fds[fd].slots[role] == b {
        OwnUnmarked(s, s.running.value, fd, role);
      }
    }
    forall q, role {:trigger Users(s.queues[q], role)} | q in s.queues && q in t.queues
      ensures Follows(Users(s.queues[q], role), Users(t.queues[q], role), held)
    {
      assert Users(t.queues[q], role) == Without(Users(s.queues[q], role), held) + [];
    }
    MovesKeepTurns(s, t, held);
  }

  lemma ExitTurns(s: State, value: int)
    requires EntriesOk(s) && BlockedOk(s) && Alive(s) && Self(s).pc.User? && Self(s).parent.Some?
    requires EntriesOk(BecomeZombie(s, value)) && BlockedOk(BecomeZombie(s, value))
    ensures SameTurns(s, Exit(s, value))
  {
    var z := BecomeZombie(s, value);
    UntouchedTurns(s, z);
    if ParentWaits(z, Self(s).parent.value, s.running.value) {
      HandOverTurns(z, Self(s).parent.value);
    } else {
      UntouchedTurns(z, DispatchHead(z));
    }
    TurnsTrans(s, z, Exit(s, value));
  }

  lemma TransferTurns(s: State, grant: Grant)
    requires Alive(s) && InCall(s, s.running.value) && UsableGrant(grant)
    requires |Payload(Self(s).pc.msg, s.queues[CallQueue(s, s.running.value)].msgSize)| <= MAX_MESSAGE_SIZE
    ensures SameTurns(s, Transfer(s, grant))
  {
    ListsKeepTurns(s, Transfer(s, grant));
  }

  lemma RegisterTurns(s: State, fd: Fd, role: Role, b: Block)
    requires EntriesOk(s) && Alive(s) && fd in Self(s).fds && Self(s).fds[fd].queue in s.queues && b !in s.users
    ensures SameTurns(s, Register(s, fd, role, b))
  {
    var t, mine := Register(s, fd, role, b), Self(s).fds[fd].queue;
    forall q, r {:trigger Users(s.queues[q], r)} | q in s.queues && q in t.queues
      ensures Follows(Users(s.queues[q], r), Users(t.queues[q], r), {})
    {
      WithoutNone(Users(s.queues[q], r), {});
      assert Users(t.queues[q], r) ==
             Without(Users(s.queues[q], r), {}) + if q == mine && r == role then [b] else [];
    }
    MovesKeepTurns(s, t, {});
  }

  lemma {:induction false} RegisterAllTurns(s: State, fd: Fd, order: seq<Role>, roles: set<Role>, got: map<Role, Block>)
    requires EntriesOk(s) && Alive(s) && fd in Self(s).fds && Self(s).fds[fd].queue in s.queues && NoDup(order)
    requires forall i :: 0 <= i < |order| ==> order[i] !in Self(s).fds[fd].slots
    requires forall i :: 0 <= i < |order| && order[i] in got ==> got[order[i]] !in s.users
    requires forall a, b :: a in got && b in got && a != b ==> got[a] != got[b]
    ensures SameTurns(s, RegisterAll(s, fd, order, roles, got))
    decreases order
  {
    if order == [] {
      UntouchedTurns(s, Return(s, fd));
    } else if order[0] !in roles {
      RegisterAllTurns(s, fd, order[1..], roles, got);
    } else if order[0] !in got {
      UntouchedTurns(s, Return(s, LIST_INSERTION_ERROR));
    } else {
      var t := Register(s, fd, order[0], got[order[0]]);
      RegisterTurns(s, fd, order[0], got[order[0]]);
      RegisterEntries(s, fd, order[0], got[order[0]]);
      RegisterAllTurns(t, fd, order[1..], roles, got);
      TurnsTrans(s, t, RegisterAll(s, fd, order, roles, got));
    }
  }

  /** The queue is there. */
  lemma ReadyTurns(s: State, q: Qid)
    requires EntriesOk(s) && Alive(s)
    ensures var done := SetSelf(s, Self(s).(pc := User));
            var s1 := if q in s.queues then done else done.(queues := done.queues[q := NEW_QUEUE]);
            SameTurns(s, s1) && EntriesOk(s1)
  {
    var done := SetSelf(s, Self(s).(pc := User));
    var s1 := if q in s.queues then done else done.(queues := done.queues[q := NEW_QUEUE]);
    ListsKeepTurns(s, s1);
    EntriesFrame(s, done);
    if q !in s.queues { NewQueueEntries(done, q); }
  }

  lemma OpenTurns(s: State, got: map<Role, Block>)
    requires EntriesOk(s) && Alive(s) && Self(s).pc.Opening? && Self(s).pc.fd in Self(s).fds
    requires Self(s).fds[Self(s).pc.fd].slots == map[] && PoolGrants(s, Self(s).pc.roles, got)
    ensures SameTurns(s, OpenQueue(s, got))
  {
    var fd := Self(s).pc.fd;
    var q := Self(s).fds[fd].queue;
    if q !in s.queues && |s.queues| >= MAX_NUM_QUEUES {
      OpenFailsForm(s, got);
      UntouchedTurns(s, OpenQueue(s, got));
    } else {
      var done := SetSelf(s, Self(s).(pc := User));
      var s1 := if q in s.queues then done else done.(queues := done.queues[q := NEW_QUEUE]);
      ReadyTurns(s, q);
      RegisterAllTurns(s1, fd, ALL_ROLES, Self(s).pc.roles, got);
      TurnsTrans(s, s1, OpenQueue(s, got));
    }
  }

  lemma OneGone(s: State, t: State, c: Block)
    requires t.users == s.users - {c} && t.queues.Keys == s.queues.Keys && !Marked(s, c)
    requires forall q, r {:trigger Users(s.queues[q], r)} :: q in s.queues && q in t.queues ==>
               Follows(Users(s.queues[q], r), Users(t.queues[q], r), {c})
    ensures SameTurns(s, t)
  {
    MovesKeepTurns(s, t, {c});
  }

  lemma CloseSlotTurns(s: State, fd: Fd, role: Role)
    requires EntriesOk(s) && BlockedOk(s) && Alive(s) && !Self(s).pc.Calling? && fd in Self(s).fds
    ensures SameTurns(s, CloseSlot(s, fd, role))
  {
    if role in Self(s).fds[fd].slots { TakenOutTurns(s, fd, role); } else { UntouchedTurns(s, CloseSlot(s, fd, role)); }
  }

  lemma TakenOutTurns(s: State, fd: Fd, role: Role)
    requires EntriesOk(s) && BlockedOk(s) && Alive(s) && !Self(s).pc.Calling?
    requires fd in Self(s).fds && role in Self(s).fds[fd].slots
    ensures SameTurns(s, CloseSlot(s, fd, role))
  {
    var t, c := CloseSlot(s, fd, role), Self(s).fds[fd].slots[role];
    OwnUnmarked(s, s.running.value, fd, role);
    SlotFreed(s, fd, role);
    forall q, r {:trigger Users(s.queues[q], r)} | q in s.queues && q in t.queues
      ensures Follows(Users(s.queues[q], r), Users(t.queues[q], r), {c})
    {
      ClosedFollows(s, fd, role, q, r);
    }
    OneGone(s, t, c);
  }

  lemma SlotFreed(s: State, fd: Fd, role: Role)
    requires EntriesOk(s) && Alive(s) && fd in Self(s).fds && role in Self(s).fds[fd].slots
    ensures var t := CloseSlot(s, fd, role);
            t.users == s.users - {Self(s).fds[fd].slots[role]} && t.queues.Keys == s.queues.Keys
  {
    assert SlotOk(s, s.running.value, fd, role);
  }

  /** The block is in no other list than the one it is taken from. */
  lemma ClosedFollows(s: State, fd: Fd, role: Role, q: Qid, r: Role)
    requires EntriesOk(s) && Alive(s) && fd in Self(s).fds && role in Self(s).fds[fd].slots && q in s.queues
    ensures var t := CloseSlot(s, fd, role);
            q in t.queues && Follows(Users(s.queues[q], r), Users(t.queues[q], r), {Self(s).fds[fd].slots[role]})
  {
    var t, h, c := CloseSlot(s, fd, role), Self(s).fds[fd], Self(s).fds[fd].slots[role];
    assert SlotOk(s, s.running.value, fd, role);
    if q == h.queue && r == role {
      assert Users(t.queues[q], r) == Without(Users(s.queues[q], r), {c}) + [];
    } else {
      assert c in Users(s.queues[h.queue], role);
      assert forall b {:trigger b in Users(s.queues[q], r)} :: b in Users(s.queues[q], r) ==>
          b in s.users && s.users[b].queue == q && s.users[b].role == r;
      SameFollows(Users(s.queues[q], r), {c});
    }
  }

  lemma CloseTurns(s: State)
    requires EntriesOk(s) && BlockedOk(s) && Enabled(s, CloseContinue)
    ensures SameTurns(s, CloseStep(s))
  {
    var fd, k := Self(s).pc.fd, Self(s).pc.done;
    if k < |ALL_ROLES| {
      var c := CloseSlot(s, fd, ALL_ROLES[k]);
      CloseSlotTurns(s, fd, ALL_ROLES[k]);
      UntouchedTurns(c, CloseStep(s));
      TurnsTrans(s, c, CloseStep(s));
    } else {
      UntouchedTurns(s, CloseStep(s));
    }
  }

  lemma UnlinkTurns(s: State, q: Qid)
    requires EntriesOk(s) && BlockedOk(s) && Alive(s) && q in s.queues
    ensures SameTurns(s, Unlink(s, q))
  {
    var t := Unlink(s, q);
    if Referenced(s, q) {
      UntouchedTurns(s, t);
    } else {
      UnlinkKeepsWaiters(s, q);
      WaitersElsewhere(s, q);
      forall x, r {:trigger Users(s.queues[x], r)} | x in s.queues && x in t.queues
        ensures Follows(Users(s.queues[x], r), Users(t.queues[x], r), {})
      {
        SameFollows(Users(s.queues[x], r), {});
      }
      forall x, r, b {:trigger b in Users(s.queues[x], r)} | x in s.queues && b in Users(s.queues[x], r) && Marked(s, b)
        ensures x in t.queues
      {
        assert s.users[b].queue == x;
      }
      MovesKeepTurns(s, t, {});
    }
  }

  lemma ScheduleUntouched(s: State)
    requires s.running.Some?
    ensures Schedule(s).queues == s.queues && Schedule(s).users == s.users
  {
  }

  lemma WaitUntouched(s: State, pid: int)
    requires Alive(s)
    ensures WaitFor(s, pid).queues == s.queues && WaitFor(s, pid).users == s.users
  {
  }

  lemma SleepUntouched(s: State, cycles: int)
    requires Alive(s)
    ensures SleepFor(s, cycles).queues == s.queues && SleepFor(s, cycles).users == s.users
  {
  }

  lemma ScheduleTurns(s: State, step: Step)
    requires Enabled(s, step) && (step.Tick? || step.Preempt?)
    ensures SameTurns(s, Apply(s, step))
  {
    ScheduleUntouched(if step.Tick? then Later(s) else Resume(Trap(s, OtherCall)));
    UntouchedTurns(s, Apply(s, step));
  }

  lemma WaitTurns(s: State, pid: int)
    requires Enabled(s, WaitPid(pid))
    ensures SameTurns(s, Apply(s, WaitPid(pid)))
  {
    WaitUntouched(Trap(s, Wait(pid)), pid);
    UntouchedTurns(s, Apply(s, WaitPid(pid)));
  }

  lemma SleepTurns(s: State, cycles: int)
    requires Enabled(s, Sleep(cycles))
    ensures SameTurns(s, Apply(s, Sleep(cycles)))
  {
    SleepUntouched(Trap(s, OtherCall), cycles);
    UntouchedTurns(s, Apply(s, Sleep(cycles)));
  }

  /** Other steps that touch neither user lists nor marks. */
  lemma PlainTurns(s: State, step: Step)
    requires Enabled(s, step)
    requires step.SpawnChild? || step.OpenStart? || step.CloseStart? || step.CallStart?
    ensures SameTurns(s, Apply(s, step))
  {
    UntouchedTurns(s, Apply(s, step));
  }

  lemma AttributeTurns(s: State, step: Step)
    requires Enabled(s, step) && (step.MaxStep? || step.SizeStep?)
    ensures SameTurns(s, Apply(s, step))
  {
    ListsKeepTurns(s, Apply(s, step));
  }

  lemma ExitStepTurns(s: State, value: int)
    requires CoreInv(s) && Enabled(s, ExitWith(value))
    ensures SameTurns(s, Apply(s, ExitWith(value)))
  {
    var r := Trap(s, OtherCall);
    UntouchedTurns(s, r);
    TrapKeeps(s, OtherCall);
    ZombieEntries(r, value);
    ExitTurns(r, value);
    TurnsTrans(s, r, Exit(r, value));
  }

  lemma OpenStepTurns(s: State, got: map<Role, Block>)
    requires CoreInv(s) && Enabled(s, OpenFinish(got))
    ensures SameTurns(s, Apply(s, OpenFinish(got)))
  {
    var r := Trap(s, OtherCall);
    UntouchedTurns(s, r);
    TrapKeeps(s, OtherCall);
    assert PcOk(s, s.running.value);
    OpenTurns(r, got);
    TurnsTrans(s, r, OpenQueue(r, got));
  }

  lemma TransferStepTurns(s: State, grant: Grant)
    requires Enabled(s, TransferStep(grant))
    ensures SameTurns(s, Apply(s, TransferStep(grant)))
  {
    var r := Trap(s, OtherCall);
    UntouchedTurns(s, r);
    TransferTurns(r, grant);
    TurnsTrans(s, r, Transfer(r, grant));
  }

  lemma UnlinkStepTurns(s: State, q: Qid)
    requires CoreInv(s) && Enabled(s, UnlinkStep(q))
    ensures SameTurns(s, Apply(s, UnlinkStep(q)))
  {
    var r := Trap(s, OtherCall);
    UntouchedTurns(s, r);
    TrapKeeps(s, OtherCall);
    UnlinkTurns(r, q);
    TurnsTrans(s, r, Unlink(r, q));
  }

  /** No step but the wake-up call changes who waits before whom. */
  lemma OtherStepTurns(s: State, step: Step)
    requires CoreInv(s) && Enabled(s, step) && !step.WakeStep?
    ensures SameTurns(s, Apply(s, step))
  {
    match step
    case Tick => ScheduleTurns(s, step);
    case Preempt => ScheduleTurns(s, step);
    case Sleep(cycles) => SleepTurns(s, cycles);
    case WaitPid(pid) => WaitTurns(s, pid);
    case ExitWith(value) => ExitStepTurns(s, value);
    case OpenFinish(got) => OpenStepTurns(s, got);
    case CloseContinue => CloseTurns(s);
    case TransferStep(grant) => TransferStepTurns(s, grant);
    case UnlinkStep(q) => UnlinkStepTurns(s, q);
    case MaxStep(_, _) => AttributeTurns(s, step);
    case SizeStep(_, _) => AttributeTurns(s, step);
    case _ => PlainTurns(s, step);
  }

  // The wake-up call.

  lemma MarkedIsParked(s: State, b: Block)
    requires BlockedOk(s) && Marked(s, b)
    ensures ParkedUser(s, b)
  {
    assert Blocked(s, b);
  }

  lemma {:induction false} FirstExists(s: State, entries: seq<Block>) returns (k: int)
    requires exists b :: b in entries && ParkedUser(s, b)
    ensures FirstParked(s, entries, k)
  {
    if ParkedUser(s, entries[0]) {
      k := 0;
    } else {
      var j := FirstExists(s, entries[1..]);
      k := j + 1;
      forall i | 0 <= i < k ensures !ParkedUser(s, entries[i]) {
        if i > 0 { assert entries[1..][i - 1] == entries[i]; }
      }
    }
  }

  /** The wake-up call wakes nobody who waits behind another one. */
  lemma WakeTurns(s: State, q: Qid, role: Role, a: Block, b: Block)
    requires EntriesOk(s) && BlockedOk(s) && Enabled(s, WakeStep) && WaitsBehind(s, q, role, a, b)
    requires Marked(Apply(s, WakeStep), a)
    ensures WaitsBehind(Apply(s, WakeStep), q, role, a, b)
  {
    if CanServe(s) && exists c :: c in OtherSide(s) && ParkedUser(s, c) {
      var k := FirstExists(s, OtherSide(s));
      FirstIsNotBehind(s, q, role, a, b, k);
      WakeMarks(s, k);
      LessMarked(s, Apply(s, WakeStep), q, role, a, b, OtherSide(s)[k]);
    } else {
      WakeNobody(s);
      UntouchedTurns(s, Apply(s, WakeStep));
    }
  }

  lemma LessMarked(s: State, t: State, q: Qid, role: Role, a: Block, b: Block, c: Block)
    requires t.queues == s.queues && c in s.users && t.users == s.users[c := s.users[c].(status := Running)]
    requires WaitsBehind(s, q, role, a, b) && Marked(t, a) && b != c
    ensures WaitsBehind(t, q, role, a, b)
  {
  }

  lemma WakeMarks(s: State, k: int)
    requires Enabled(s, WakeStep) && CanServe(s) && FirstParked(s, OtherSide(s), k)
    ensures var t, c := Apply(s, WakeStep), OtherSide(s)[k];
            t.queues == s.queues && t.users == s.users[c := s.users[c].(status := Running)]
  {
    WakeOutcome(s, k);
  }

  /** The one that is woken is not `b`, for `a` stands before it in the same list. */
  lemma FirstIsNotBehind(s: State, q: Qid, role: Role, a: Block, b: Block, k: int)
    requires EntriesOk(s) && BlockedOk(s) && WaitsBehind(s, q, role, a, b) && Enabled(s, WakeStep)
    requires FirstParked(s, OtherSide(s), k)
    ensures OtherSide(s)[k] != b
  {
    MarkedIsParked(s, a);
    var xs := Users(s.queues[q], role);
    assert NoDup(xs);
    var i, j :| 0 <= i < j < |xs| && xs[i] == a && xs[j] == b;
    assert OtherSide(s)[k] in OtherSide(s) && xs[j] in xs;
    if OtherSide(s)[k] == b { SameList(s, q, role, b); }
  }

  /** An entry is in one list only. */
  lemma SameList(s: State, q: Qid, role: Role, b: Block)
    requires EntriesOk(s) && Enabled(s, WakeStep) && q in s.queues && b in Users(s.queues[q], role) && b in OtherSide(s)
    ensures OtherSide(s) == Users(s.queues[q], role)
  {
    var q', r := CallQueue(s, s.running.value), if Self(s).pc.role == Reader then Writer else Reader;
    assert b in Users(s.queues[q'], r);
    assert s.users[b].queue == q' && s.users[b].role == r;
  }

  lemma KeepsTurn(s: State, step: Step, q: Qid, role: Role, a: Block, b: Block)
    requires CoreInv(s) && Enabled(s, step) && WaitsBehind(s, q, role, a, b) && Marked(Apply(s, step), a)
    ensures WaitsBehind(Apply(s, step), q, role, a, b)
  {
    if step.WakeStep? { WakeTurns(s, q, role, a, b); } else { OtherStepTurns(s, step); }
  }

  ghost predicate StaysMarked(states: seq<State>, i: nat, j: nat, b: Block)
    requires i <= j < |states|
  {
    forall k :: i <= k <= j ==> Marked(states[k], b)
  }

  predicate TurnKept(s: State, t: State, q: Qid, role: Role, a: Block, b: Block) {
    WaitsBehind(s, q, role, a, b) && Marked(t, a) ==> WaitsBehind(t, q, role, a, b)
  }

  lemma {:induction false} StaysBehind(states: seq<State>, i: nat, j: nat, q: Qid, role: Role, a: Block, b: Block)
    requires i <= j < |states| && WaitsBehind(states[i], q, role, a, b) && StaysMarked(states, i, j, a)
    requires forall k {:trigger states[k]} :: i <= k < j ==> TurnKept(states[k], states[k + 1], q, role, a, b)
    ensures WaitsBehind(states[j], q, role, a, b)
    decreases j
  {
    if i < j {
      assert StaysMarked(states, i, j - 1, a);
      StaysBehind(states, i, j - 1, q, role, a, b);
      assert TurnKept(states[j - 1], states[j], q, role, a, b);
    }
  }

  /** Over every run: as long as the earlier of two users of one list waits, the later one waits too,
      and its process is parked. So the later one is never woken first. */
  lemma NoOvertaking(states: seq<State>, steps: seq<Step>, i: nat, j: nat, q: Qid, role: Role, a: Block, b: Block)
    requires Run(states, steps) && i <= j < |states|
    requires WaitsBehind(states[i], q, role, a, b) && StaysMarked(states, i, j, a)
    ensures WaitsBehind(states[j], q, role, a, b) && ParkedUser(states[j], b)
  {
    forall k {:trigger states[k]} | i <= k < j ensures TurnKept(states[k], states[k + 1], q, role, a, b) {
      TurnNext(states, steps, k, q, role, a, b);
    }
    StaysBehind(states, i, j, q, role, a, b);
    RunInv(states, steps, j);
    MarkedIsParked(states[j], b);
  }

  lemma TurnNext(states: seq<State>, steps: seq<Step>, k: nat, q: Qid, role: Role, a: Block, b: Block)
    requires Run(states, steps) && k < |steps|
    ensures TurnKept(states[k], states[k + 1], q, role, a, b)
  {
    RunInv(states, steps, k);
    RunStep(states, steps, k);
    if WaitsBehind(states[k], q, role, a, b) && Marked(states[k + 1], a) {
      KeepsTurn(states[k], steps[k], q, role, a, b);
    }
  }

  lemma ZombieEntries(s: State, value: int)
    requires EntriesOk(s) && BlockedOk(s) && Alive(s) && Self(s).pc.User?
    ensures EntriesOk(BecomeZombie(s, value)) && BlockedOk(BecomeZombie(s, value))
  {
    var z := BecomeZombie(s, value);
    assert forall p :: p in s.procs ==> z.procs[p].fds == s.procs[p].fds && z.procs[p].pc == s.procs[p].pc;
    EntriesFrame(s, z);
    forall b | b in z.users && z.users[b].status != Running ensures Blocked(z, b) { assert Blocked(s, b); }
  }
}
