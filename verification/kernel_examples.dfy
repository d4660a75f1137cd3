/** Runs that show what the hypotheses keep out. */
module KernelExamples {
  import opened Seqs
  import opened Constants
  import opened Timers
  import opened Payloads
  import opened KernelModel
  import opened KernelRun
  import opened KernelInv
  import opened KernelFamily
  import opened KernelWakeups
  import opened KernelCounts
  import opened KernelTheorems
  import opened KernelResources
  import G = ResourceGraph
  import R = ResourceRuns

  /** Opening an existing or new queue for one role, with block `b` from the pool. */
  lemma OpenOne(s: State, fd: Fd, q: Qid, role: Role, b: Block)
    requires Alive(s) && Self(s).pc == Opening(fd, {role}) && fd in Self(s).fds && Self(s).fds[fd] == Handle(q, map[])
    requires q in s.queues || |s.queues| < MAX_NUM_QUEUES
    ensures var s1 := if q in s.queues then s else s.(queues := s.queues[q := NEW_QUEUE]);
            var s2 := SetSelf(s1, Self(s1).(pc := User));
            OpenQueue(s, map[role := b]) == Return(Register(s2, fd, role, b), fd)
  {
    var s1 := if q in s.queues then s else s.(queues := s.queues[q := NEW_QUEUE]);
    var s2 := SetSelf(s1, Self(s1).(pc := User));
    var got := map[role := b];
    var r := Register(s2, fd, role, b);
    assert ALL_ROLES[1..] == [Writer, NonBlock] && [Writer, NonBlock][1..] == [NonBlock] && [NonBlock][1..] == [];
    match role
    case Reader =>
      assert RegisterAll(s2, fd, ALL_ROLES, {role}, got) == RegisterAll(r, fd, [Writer, NonBlock], {role}, got);
      assert RegisterAll(r, fd, [Writer, NonBlock], {role}, got) == RegisterAll(r, fd, [NonBlock], {role}, got);
    case Writer =>
      assert RegisterAll(s2, fd, ALL_ROLES, {role}, got) == RegisterAll(s2, fd, [Writer, NonBlock], {role}, got);
      assert RegisterAll(s2, fd, [Writer, NonBlock], {role}, got) == RegisterAll(r, fd, [NonBlock], {role}, got);
    case NonBlock =>
      assert RegisterAll(s2, fd, ALL_ROLES, {role}, got) == RegisterAll(s2, fd, [Writer, NonBlock], {role}, got);
      assert RegisterAll(s2, fd, [Writer, NonBlock], {role}, got) == RegisterAll(s2, fd, [NonBlock], {role}, got);
  }

  /** A state without zombies, timers and a past. */
  function Scene(running: Pid, ready: seq<Pid>, waiting: seq<Pid>, procs: map<Pid, Proc>, lastPid: Pid,
                 queues: map<Qid, Queue>, users: map<Block, QueueUser>): State
  {
    State(Some(running), ready, waiting, [], [], 0, procs, lastPid, queues, users, [], map[], {}, {})
  }

  /** The state in which a queue has been opened for one role. */
  function Finished(s: State, fd: Fd, q: Qid, role: Role, b: Block): State
    requires Alive(s)
  {
    var p, queue := s.running.value, if q in s.queues then s.queues[q] else NEW_QUEUE;
    s.(procs := s.procs[p := Self(s).(pc := User, ret := fd, fds := map[fd := Handle(q, map[role := b])])],
       users := s.users[b := QueueUser(p, Running, fd, q, role)],
       queues := s.queues[q := WithUsers(queue, role, Users(queue, role) + [b])])
  }

  lemma FinishOne(s: State, fd: Fd, q: Qid, role: Role, b: Block)
    requires Alive(s) && Self(s).pc == Opening(fd, {role}) && Self(s).fds == map[fd := Handle(q, map[])]
    requires q in s.queues || |s.queues| < MAX_NUM_QUEUES
    requires b !in s.users && b < MAX_NUM_PROCESSES
    ensures Enabled(s, OpenFinish(map[role := b]))
    ensures Alive(Trap(s, OtherCall))
            && Apply(s, OpenFinish(map[role := b])) == Finished(Trap(s, OtherCall), fd, q, role, b)
  {
    var got := map[role := b];
    assert got.Keys == {role};
    OpenOne(Trap(s, OtherCall), fd, q, role, b);
    FinishedForm(Trap(s, OtherCall), fd, q, role, b);
  }

  lemma FinishedForm(s: State, fd: Fd, q: Qid, role: Role, b: Block)
    requires Alive(s) && Self(s).fds == map[fd := Handle(q, map[])]
    ensures var s1 := if q in s.queues then s else s.(queues := s.queues[q := NEW_QUEUE]);
            var s2 := SetSelf(s1, Self(s1).(pc := User));
            Return(Register(s2, fd, role, b), fd) == Finished(s, fd, q, role, b)
  {
    var p, pr := s.running.value, Self(s).(pc := User);
    var none: map<Role, Block> := map[];
    assert none[role := b] == map[role := b];
    var fds := map[fd := Handle(q, map[role := b])];
    assert pr.fds[fd := Handle(q, none[role := b])] == fds;
    Overwrites(s.procs, p, pr, pr.(fds := fds), pr.(fds := fds, ret := fd));
    Overwrites(s.queues, q, NEW_QUEUE, NEW_QUEUE, WithUsers(NEW_QUEUE, role, Users(NEW_QUEUE, role) + [b]));
  }

  lemma Overwrites<K, V>(m: map<K, V>, k: K, a: V, b: V, c: V)
    ensures m[k := a][k := b][k := c] == m[k := c] && m[k := a][k := c] == m[k := c]
  {
  }

  /** Without timers nobody is woken. */
  lemma NobodyDue(s: State)
    requires s.timers == []
    ensures WakeDue(s) == s
  {
    assert Due(s.timers, s.time) == [] && Elems<Pid>([]) == {};
    WithoutNone(s.waiting, {});
    assert WithStatus(s.procs, {}, Ready) == s.procs;
    assert [] + s.ready == s.ready && s.timers[0..] == s.timers;
  }

  /** The state after a preemption when one process is ready and nobody sleeps. */
  function Preempted(s: State, next: Pid): State
    requires Alive(s) && next in s.procs
  {
    var p, pr := s.running.value, Self(s).(call := OtherCall);
    var on := if pr.pc.Calling? then pr.(pc := pr.pc.(phase := Again)) else pr;
    var marked := s.procs[p := on.(status := Ready)];
    s.(running := Some(next), ready := if p in s.waiting then [] else [p],
       procs := marked[next := marked[next].(status := Running)])
  }

  lemma PreemptTo(s: State, next: Pid)
    requires Alive(s) && next in s.procs && s.ready == [next] && s.timers == []
    requires next != s.running.value && s.running.value !in s.zombie
             && (s.running.value in s.waiting ==> |s.waiting| >= 2)
    requires Self(s).pc.User? || (Self(s).pc.Calling? && Self(s).pc.phase == Yield)
    ensures Enabled(s, Preempt) && Apply(s, Preempt) == Preempted(s, next)
  {
    var r := Resume(Trap(s, OtherCall));
    NobodyDue(r);
    RotateTo(r, next);
    PreemptedForm(s, next);
  }

  function Rotated(r: State, next: Pid): State
    requires Alive(r) && next in r.procs
  {
    var p := r.running.value;
    var marked := r.procs[p := Self(r).(status := Ready)];
    r.(running := Some(next), ready := if p in r.waiting then [] else [p],
       procs := marked[next := marked[next].(status := Running)])
  }

  lemma RotateTo(r: State, next: Pid)
    requires Alive(r) && next in r.procs && r.ready == [next]
    requires next != r.running.value && r.running.value !in r.zombie
             && (r.running.value in r.waiting ==> |r.waiting| >= 2)
    ensures Rotate(r) == Rotated(r, next)
  {
    assert r.ready[1..] == [] && [] + [r.running.value] == [r.running.value];
  }

  lemma PreemptedForm(s: State, next: Pid)
    requires Alive(s) && next in s.procs && next != s.running.value
    ensures var r := Resume(Trap(s, OtherCall)); Alive(r) && next in r.procs && Rotated(r, next) == Preempted(s, next)
  {
    var r := Resume(Trap(s, OtherCall));
    assert Rotated(r, next).procs == Preempted(s, next).procs;
  }

  /** The state in which a first transfer has found no room. */
  function BlockedAt(s: State, failure: int): State
    requires Alive(s) && InCall(s, s.running.value)
  {
    var p, b := s.running.value, CallEntry(s, s.running.value);
    s.(users := s.users[b := s.users[b].(status := Waiting)], waiting := s.waiting + [p],
       procs := s.procs[p := Self(s).(status := Waiting, ret := failure, pc := Self(s).pc.(phase := Yield))])
  }

  lemma TransferParks(s: State)
    requires Alive(s) && InCall(s, s.running.value)
             && |Payload(Self(s).pc.msg, s.queues[CallQueue(s, s.running.value)].msgSize)| <= MAX_MESSAGE_SIZE
    requires Room(s.queues[CallQueue(s, s.running.value)], Self(s).pc.role) <= 0
    requires s.running.value !in s.ready && s.running.value !in s.waiting && s.running.value !in s.zombie
    ensures Transfer(s, None) == BlockedAt(s, if Self(s).pc.role == Reader then DSOS_NO_MSG_RECEIVED
            else DSOS_NO_MSG_SENT)
  {
    var failure := if Self(s).pc.role == Reader then DSOS_NO_MSG_RECEIVED else DSOS_NO_MSG_SENT;
    var p, pr := s.running.value, Self(s).(status := Waiting);
    Overwrites(s.procs, p, pr, pr.(ret := failure), pr.(ret := failure, pc := pr.pc.(phase := Yield)));
  }

  // A reader that blocks first.

  const CHILD := NEW_PROC.(parent := Some(0))
  const PARENT_1 := NEW_PROC.(status := Running, children := [1], ret := 1, call := OtherCall)
  const SPAWNED := Scene(0, [1], [], map[0 := PARENT_1, 1 := CHILD], 2, map[], map[])

  const OPENING_PROC := PARENT_1.(ret := 0, lastFd := 1, fds := map[0 := Handle(7, map[])], pc := Opening(0, {Reader}))
  const READ_OPENING := Scene(0, [1], [], map[0 := OPENING_PROC, 1 := CHILD], 2, map[], map[])

  const READ_QUEUE := NEW_QUEUE.(readers := [0])
  const OPENED_PROC := PARENT_1.(ret := 0, lastFd := 1, fds := map[0 := Handle(7, map[Reader := 0])])
  const READ_OPENED := Scene(0, [1], [], map[0 := OPENED_PROC, 1 := CHILD], 2, map[7 := READ_QUEUE],
      map[0 := QueueUser(0, Running, 0, 7, Reader)])

  const RECEIVING := Scene(0, [1], [], map[0 := OPENED_PROC.(pc := Calling(Reader, 0, First, [], 128)), 1 := CHILD], 2,
                           map[7 := READ_QUEUE], map[0 := QueueUser(0, Running, 0, 7, Reader)])

  const STUCK_PROC :=
      OPENED_PROC.(status := Waiting, ret := DSOS_NO_MSG_RECEIVED, pc := Calling(Reader, 0, Yield, [], 128))
  const STUCK := Scene(0, [1], [0], map[0 := STUCK_PROC, 1 := CHILD], 2, map[7 := READ_QUEUE],
      map[0 := QueueUser(0, Waiting, 0, 7, Reader)])

  lemma SpawnedStep()
    ensures Enabled(BOOT, SpawnChild) && Apply(BOOT, SpawnChild) == SPAWNED
  {
    var t := Apply(BOOT, SpawnChild);
    assert BOOT.procs[0].children + [1] == [1] && BOOT.ready + [1] == [1];
    assert t.procs == SPAWNED.procs;
  }

  lemma ReadOpeningStep()
    ensures Enabled(SPAWNED, OpenStart(7, {Reader})) && Apply(SPAWNED, OpenStart(7, {Reader})) == READ_OPENING
  {
    var t := Apply(SPAWNED, OpenStart(7, {Reader}));
    assert t.procs[0].fds == map[0 := Handle(7, map[])];
    assert t.procs == READ_OPENING.procs;
  }

  lemma ReadOpenedStep()
    ensures Enabled(READ_OPENING, OpenFinish(map[Reader := 0]))
            && Apply(READ_OPENING, OpenFinish(map[Reader := 0])) == READ_OPENED
  {
    FinishOne(READ_OPENING, 0, 7, Reader, 0);
    ReadOpenedForm();
  }

  lemma ReadOpenedForm()
    ensures Alive(Trap(READ_OPENING, OtherCall))
            && Finished(Trap(READ_OPENING, OtherCall), 0, 7, Reader, 0) == READ_OPENED
  {
    var t := Finished(Trap(READ_OPENING, OtherCall), 0, 7, Reader, 0);
    assert [] + [0] == [0];
    assert t.procs == READ_OPENED.procs && t.queues == READ_OPENED.queues && t.users == READ_OPENED.users;
  }

  lemma ReceivingStep()
    ensures Enabled(READ_OPENED, CallStart(Reader, 0, [], 128))
            && Apply(READ_OPENED, CallStart(Reader, 0, [], 128)) == RECEIVING
  {
    var t := Apply(READ_OPENED, CallStart(Reader, 0, [], 128));
    assert t.procs == RECEIVING.procs;
  }

  lemma StuckStep()
    ensures Enabled(RECEIVING, TransferStep(None)) && Apply(RECEIVING, TransferStep(None)) == STUCK
  {
    assert Payload([], READ_QUEUE.msgSize) == [];
    TransferParks(Trap(RECEIVING, OtherCall));
    var t := BlockedAt(Trap(RECEIVING, OtherCall), DSOS_NO_MSG_RECEIVED);
    assert [] + [0] == [0];
    assert t.procs == STUCK.procs && t.users == STUCK.users;
  }

  /** A process that is alone in the waiting list and still running is let through. */
  lemma RotateAlone(s: State, p: Pid, next: Pid)
    requires s.running == Some(p) && s.ready == [next] && s.waiting == [p] && p !in s.zombie
    ensures Rotate(s).ready == [p] && Rotate(s).waiting == [p]
  {
    var popped := s.(ready := s.ready[1..]);
    assert popped.ready == [] && !Linked(popped, p);
  }

  lemma AloneIsUnsafe(s: State, p: Pid, next: Pid)
    requires s.running == Some(p) && s.ready == [next] && s.waiting == [p] && p !in s.zombie && s.timers == []
    ensures !SafeSchedule(s) && p in Schedule(s).ready && p in Schedule(s).waiting
  {
    NobodyDue(s);
    RotateAlone(s, p, next);
  }

  lemma ReadOpenedReachable()
    ensures Reachable(READ_OPENED)
  {
    BootReachable();
    SpawnedStep();
    Extend(BOOT, SpawnChild, SPAWNED);
    ReadOpeningStep();
    Extend(SPAWNED, OpenStart(7, {Reader}), READ_OPENING);
    ReadOpenedStep();
    Extend(READ_OPENING, OpenFinish(map[Reader := 0]), READ_OPENED);
  }

  lemma StuckReachable()
    ensures Reachable(STUCK)
  {
    ReadOpenedReachable();
    ReceivingStep();
    Extend(READ_OPENED, CallStart(Reader, 0, [], 128), RECEIVING);
    StuckStep();
    Extend(RECEIVING, TransferStep(None), STUCK);
  }

  /** Init spawns a child, opens a queue and receives: it blocks as the only waiting
      process, and the next scheduling step puts it into the ready list as well. */
  lemma FirstBlockIsUnsafe() returns (s: State)
    ensures Reachable(s) && Alive(s) && !SafeSchedule(s) && 0 in Schedule(s).ready && 0 in Schedule(s).waiting
  {
    StuckReachable();
    AloneIsUnsafe(STUCK, 0, 1);
    s := STUCK;
  }

  // A writer that is left waiting beside a free place.

  const MESSAGE_0: Bytes := seq(MAX_MESSAGE_SIZE, _ => 0)

  const SPAWNED_2 := Scene(0, [1, 2], [], map[0 := PARENT_1.(children := [1, 2], ret := 2), 1 := CHILD, 2 := CHILD],
      3, map[], map[])
  const INIT_2 := PARENT_1.(children := [1, 2], ret := 2, call := Wait(0), status := Waiting)
  const FAMILY := Scene(1, [2], [0], map[0 := INIT_2, 1 := CHILD, 2 := CHILD], 3, map[], map[])

  const WRITER_OPENING_PROC :=
      CHILD.(call := OtherCall, lastFd := 1, fds := map[0 := Handle(7, map[])], pc := Opening(0, {Writer}))
  const WRITER_OPENING := Scene(1, [2], [0], map[0 := INIT_2, 1 := WRITER_OPENING_PROC, 2 := CHILD], 3, map[], map[])

  const WRITER_QUEUE := NEW_QUEUE.(writers := [0])
  const FULL_QUEUE := WRITER_QUEUE.(maxMessages := 0)
  const WRITER_USER := QueueUser(1, Running, 0, 7, Writer)
  const WAITING_USER := QueueUser(1, Waiting, 0, 7, Writer)
  const WRITER_OPENED_PROC := CHILD.(call := OtherCall, lastFd := 1, fds := map[0 := Handle(7, map[Writer := 0])])
  const WRITER_OPENED := Scene(1, [2], [0], map[0 := INIT_2, 1 := WRITER_OPENED_PROC, 2 := CHILD], 3,
                               map[7 := WRITER_QUEUE], map[0 := WRITER_USER])
  const FULL := Scene(1, [2], [0], map[0 := INIT_2, 1 := WRITER_OPENED_PROC, 2 := CHILD], 3,
                      map[7 := FULL_QUEUE], map[0 := WRITER_USER])
  const SENDING := Scene(1, [2], [0], map[0 := INIT_2, 1 := SENDING_PROC, 2 := CHILD], 3, map[7 := FULL_QUEUE],
      map[0 := WRITER_USER])

  const BLOCKED_PROC :=
      WRITER_OPENED_PROC.(status := Waiting, ret := DSOS_NO_MSG_SENT, pc := Calling(Writer, 0, Yield, MESSAGE_0, 128))
  const SENDING_PROC := WRITER_OPENED_PROC.(pc := Calling(Writer, 0, First, MESSAGE_0, 128))
  const BLOCKED_WRITER := Scene(1, [2], [0, 1], map[0 := INIT_2, 1 := BLOCKED_PROC, 2 := CHILD], 3,
                                map[7 := FULL_QUEUE], map[0 := WAITING_USER])

  const PARKED_PROC := BLOCKED_PROC.(status := Ready, pc := Calling(Writer, 0, Again, MESSAGE_0, 128))
  const PARKED := Scene(2, [], [0, 1], map[0 := INIT_2, 1 := PARKED_PROC, 2 := CHILD.(status := Running)], 3,
                        map[7 := FULL_QUEUE], map[0 := WAITING_USER])

  const READER_OPENING_PROC :=
      CHILD.(status := Running, call := OtherCall, lastFd := 1, fds := map[0 := Handle(7, map[])],
      pc := Opening(0, {Reader}))
  const READER_OPENING := Scene(2, [], [0, 1], map[0 := INIT_2, 1 := PARKED_PROC, 2 := READER_OPENING_PROC], 3,
                                map[7 := FULL_QUEUE], map[0 := WAITING_USER])

  const BOTH_USERS := map[0 := WAITING_USER, 1 := QueueUser(2, Running, 0, 7, Reader)]
  const READER_OPENED_PROC := READER_OPENING_PROC.(fds := map[0 := Handle(7, map[Reader := 1])], pc := User)
  const READER_OPENED := Scene(2, [], [0, 1], map[0 := INIT_2, 1 := PARKED_PROC, 2 := READER_OPENED_PROC], 3,
                               map[7 := FULL_QUEUE.(readers := [1])], BOTH_USERS)
  const RAISED := Scene(2, [], [0, 1], map[0 := INIT_2, 1 := PARKED_PROC, 2 := READER_OPENED_PROC], 3,
                        map[7 := FULL_QUEUE.(maxMessages := 1, readers := [1])], BOTH_USERS)

  lemma Spawned2Step()
    ensures Enabled(SPAWNED, SpawnChild) && Apply(SPAWNED, SpawnChild) == SPAWNED_2
  {
    var t := Apply(SPAWNED, SpawnChild);
    assert [1] + [2] == [1, 2];
    assert t.procs == SPAWNED_2.procs;
  }

  lemma FamilyStep()
    ensures Enabled(SPAWNED_2, WaitPid(0)) && Apply(SPAWNED_2, WaitPid(0)) == FAMILY
  {
    var t := Apply(SPAWNED_2, WaitPid(0));
    var r := Trap(SPAWNED_2, Wait(0));
    assert Awaited(r, [1, 2], 0) == 2 by { assert [1, 2][1..] == [2]; }
    assert [] + [0] == [0] && [1, 2][1..] == [2];
    assert t.procs == FAMILY.procs;
  }

  lemma WOpeningStep()
    ensures Enabled(FAMILY, OpenStart(7, {Writer})) && Apply(FAMILY, OpenStart(7, {Writer})) == WRITER_OPENING
  {
    var t := Apply(FAMILY, OpenStart(7, {Writer}));
    assert t.procs[1].fds == map[0 := Handle(7, map[])];
    assert t.procs == WRITER_OPENING.procs;
  }

  lemma WOpenedStep()
    ensures Enabled(WRITER_OPENING, OpenFinish(map[Writer := 0]))
            && Apply(WRITER_OPENING, OpenFinish(map[Writer := 0])) == WRITER_OPENED
  {
    FinishOne(WRITER_OPENING, 0, 7, Writer, 0);
    WOpenedForm();
  }

  lemma WOpenedForm()
    ensures Alive(Trap(WRITER_OPENING, OtherCall))
            && Finished(Trap(WRITER_OPENING, OtherCall), 0, 7, Writer, 0) == WRITER_OPENED
  {
    var t := Finished(Trap(WRITER_OPENING, OtherCall), 0, 7, Writer, 0);
    assert [] + [0] == [0];
    assert t.procs == WRITER_OPENED.procs && t.queues == WRITER_OPENED.queues && t.users == WRITER_OPENED.users;
  }

  lemma FullStep()
    ensures Enabled(WRITER_OPENED, MaxStep(0, 0)) && Apply(WRITER_OPENED, MaxStep(0, 0)) == FULL
  {
    var t := Apply(WRITER_OPENED, MaxStep(0, 0));
    assert t.queues == FULL.queues;
  }

  lemma SendingStep()
    ensures Enabled(FULL, CallStart(Writer, 0, MESSAGE_0, 128))
            && Apply(FULL, CallStart(Writer, 0, MESSAGE_0, 128)) == SENDING
  {
    var u := Apply(FULL, CallStart(Writer, 0, MESSAGE_0, 128));
    assert u.procs == SENDING.procs;
  }

  lemma BlockedWriterStep()
    ensures Enabled(SENDING, TransferStep(None)) && Apply(SENDING, TransferStep(None)) == BLOCKED_WRITER
  {
    PayloadMeaning(MESSAGE_0, MAX_MESSAGE_SIZE);
    TransferParks(Trap(SENDING, OtherCall));
    var t := BlockedAt(Trap(SENDING, OtherCall), DSOS_NO_MSG_SENT);
    assert [0] + [1] == [0, 1];
    assert t.procs == BLOCKED_WRITER.procs && t.users == BLOCKED_WRITER.users;
  }

  lemma ParkedStep()
    ensures Enabled(BLOCKED_WRITER, Preempt) && Apply(BLOCKED_WRITER, Preempt) == PARKED
  {
    PreemptTo(BLOCKED_WRITER, 2);
    assert Preempted(BLOCKED_WRITER, 2).procs == PARKED.procs;
  }

  lemma ROpeningStep()
    ensures Enabled(PARKED, OpenStart(7, {Reader})) && Apply(PARKED, OpenStart(7, {Reader})) == READER_OPENING
  {
    var t := Apply(PARKED, OpenStart(7, {Reader}));
    assert t.procs[2].fds == map[0 := Handle(7, map[])];
    assert t.procs == READER_OPENING.procs;
  }

  lemma ROpenedStep()
    ensures Enabled(READER_OPENING, OpenFinish(map[Reader := 1]))
            && Apply(READER_OPENING, OpenFinish(map[Reader := 1])) == READER_OPENED
  {
    FinishOne(READER_OPENING, 0, 7, Reader, 1);
    ROpenedForm();
  }

  lemma ROpenedForm()
    ensures Alive(Trap(READER_OPENING, OtherCall))
            && Finished(Trap(READER_OPENING, OtherCall), 0, 7, Reader, 1) == READER_OPENED
  {
    var t := Finished(Trap(READER_OPENING, OtherCall), 0, 7, Reader, 1);
    assert [] + [1] == [1];
    assert t.procs == READER_OPENED.procs && t.queues == READER_OPENED.queues && t.users == READER_OPENED.users;
  }

  lemma RaisedStep()
    ensures Enabled(READER_OPENED, MaxStep(0, 1)) && Apply(READER_OPENED, MaxStep(0, 1)) == RAISED
  {
    var t := Apply(READER_OPENED, MaxStep(0, 1));
    assert t.queues == RAISED.queues;
  }

  lemma RaisedStrands()
    ensures SomeoneWaits(RAISED, 7, Writer) && Room(RAISED.queues[7], Writer) == 1 && Pending(RAISED, 7, Writer) == {}
  {
    assert Users(RAISED.queues[7], Writer) == [0] && 0 in Users(RAISED.queues[7], Writer);
    assert RAISED.users[0].status == Waiting;
  }

  lemma FamilyReachable()
    ensures Reachable(FAMILY)
  {
    BootReachable();
    SpawnedStep();
    Extend(BOOT, SpawnChild, SPAWNED);
    Spawned2Step();
    Extend(SPAWNED, SpawnChild, SPAWNED_2);
    FamilyStep();
    Extend(SPAWNED_2, WaitPid(0), FAMILY);
  }

  lemma SendingReachable()
    ensures Reachable(SENDING)
  {
    FamilyReachable();
    WOpeningStep();
    Extend(FAMILY, OpenStart(7, {Writer}), WRITER_OPENING);
    WOpenedStep();
    Extend(WRITER_OPENING, OpenFinish(map[Writer := 0]), WRITER_OPENED);
    FullStep();
    Extend(WRITER_OPENED, MaxStep(0, 0), FULL);
    SendingStep();
    Extend(FULL, CallStart(Writer, 0, MESSAGE_0, 128), SENDING);
  }

  lemma ParkedReachable()
    ensures Reachable(PARKED)
  {
    SendingReachable();
    BlockedWriterStep();
    Extend(SENDING, TransferStep(None), BLOCKED_WRITER);
    ParkedStep();
    Extend(BLOCKED_WRITER, Preempt, PARKED);
  }

  lemma RaisedReachable()
    ensures Reachable(RAISED)
  {
    ParkedReachable();
    ROpeningStep();
    Extend(PARKED, OpenStart(7, {Reader}), READER_OPENING);
    ROpenedStep();
    Extend(READER_OPENING, OpenFinish(map[Reader := 1]), READER_OPENED);
    RaisedStep();
    Extend(READER_OPENED, MaxStep(0, 1), RAISED);
  }

  /** A process raises the limit of a full queue while a writer waits on it. Nobody is on
      the way to wake the writer, so it stays parked beside a free place. */
  lemma RaisingStrandsWriter() returns (s: State)
    ensures Reachable(s) && 7 in s.queues
    ensures SomeoneWaits(s, 7, Writer) && Room(s.queues[7], Writer) == 1 && Pending(s, 7, Writer) == {}
  {
    RaisedReachable();
    RaisedStrands();
    s := RAISED;
  }

  // A child whose exit its new parent misses.

  const WAITING_INIT := PARENT_1.(call := Wait(0), status := Waiting)
  const CHILD_RUNS := Scene(1, [], [0], map[0 := WAITING_INIT, 1 := CHILD], 2, map[], map[])

  const MOTHER := CHILD.(children := [2], ret := 2, call := OtherCall)
  const GRANDCHILD := NEW_PROC.(parent := Some(1))
  const THREE_LEVELS := Scene(1, [2], [0], map[0 := WAITING_INIT, 1 := MOTHER, 2 := GRANDCHILD], 3, map[], map[])

  const DYING := THREE_LEVELS.(zombie := [1], exits := map[1 := 5],
                               procs := map[0 := WAITING_INIT.(children := [1, 2]),
                                            1 := MOTHER.(children := [], value := 5, status := Zombie),
                                                2 := GRANDCHILD])
  const ADOPTER := PARENT_1.(call := Wait(0), children := [2])
  const ADOPTED := THREE_LEVELS.(running := Some(0), waiting := [], procs := map[0 := ADOPTER, 2 := GRANDCHILD],
                                 reports := [Report(0, 1, 5, false)], exits := map[1 := 5])
  const MISSED := ADOPTED.(running := Some(2), ready := [], waiting := [0],
                           procs := map[0 := ADOPTER.(status := Waiting), 2 := GRANDCHILD])

  lemma ChildRunsStep()
    ensures Enabled(SPAWNED, WaitPid(0)) && Apply(SPAWNED, WaitPid(0)) == CHILD_RUNS
  {
    var t := Apply(SPAWNED, WaitPid(0));
    var r := Trap(SPAWNED, Wait(0));
    assert Awaited(r, [1], 0) == 1;
    assert [] + [0] == [0] && [1][1..] == [];
    assert t.procs == CHILD_RUNS.procs;
  }

  lemma ChildRunsReachable()
    ensures Reachable(CHILD_RUNS)
  {
    BootReachable();
    SpawnedStep();
    Extend(BOOT, SpawnChild, SPAWNED);
    ChildRunsStep();
    Extend(SPAWNED, WaitPid(0), CHILD_RUNS);
  }

  lemma ChildIsAwaited()
    ensures Enabled(CHILD_RUNS, ExitWith(5)) && HandsOver(CHILD_RUNS, 5)
  {
    var z := BecomeZombie(Trap(CHILD_RUNS, OtherCall), 5);
    assert z.procs[0].status == Waiting && z.procs[0].call == Wait(0);
  }

  /** An entry is lost: the only child exits while its parent waits. */
  lemma EntryIsLost() returns (s: State)
    ensures Reachable(s) && s.procs.Keys == {0} && LeftBehind(s.reports) == 1 && PointersOut(s) == 1
  {
    ChildRunsReachable();
    ChildIsAwaited();
    s := Apply(CHILD_RUNS, ExitWith(5));
    Extend(CHILD_RUNS, ExitWith(5), s);
    KeysAfterExit();
    LeftAfterExit();
  }

  lemma LeftAfterExit()
    ensures Enabled(CHILD_RUNS, ExitWith(5)) && LeftBehind(Apply(CHILD_RUNS, ExitWith(5)).reports) == 1
  {
    ChildIsAwaited();
    ExitReports(CHILD_RUNS, 5);
    FreedAppend([], Report(0, 1, 5, false));
    assert [] + [Report(0, 1, 5, false)] == [Report(0, 1, 5, false)];
  }

  lemma KeysAfterExit()
    ensures Enabled(CHILD_RUNS, ExitWith(5))
    ensures var s := Apply(CHILD_RUNS, ExitWith(5)); s.procs.Keys == {0} && s.lastPid == 2 && |s.reports| == 1
  {
    ChildIsAwaited();
    ExitReports(CHILD_RUNS, 5);
    ReachableFamily();
    ExitKeys(CHILD_RUNS, 5);
  }

  lemma ReachableFamily()
    ensures FamilyOk(CHILD_RUNS)
  {
    ChildRunsReachable();
    ReachableInv(CHILD_RUNS);
  }

  lemma ThreeLevelsStep()
    ensures Enabled(CHILD_RUNS, SpawnChild) && Apply(CHILD_RUNS, SpawnChild) == THREE_LEVELS
  {
    var t := Apply(CHILD_RUNS, SpawnChild);
    assert [] + [2] == [2];
    assert t.procs == THREE_LEVELS.procs;
  }

  lemma ThreeLevelsReachable()
    ensures Reachable(THREE_LEVELS)
  {
    ChildRunsReachable();
    ThreeLevelsStep();
    Extend(CHILD_RUNS, SpawnChild, THREE_LEVELS);
  }

  lemma DyingStep()
    ensures BecomeZombie(Trap(THREE_LEVELS, OtherCall), 5) == DYING
  {
    var s := Trap(THREE_LEVELS, OtherCall);
    assert s.procs == THREE_LEVELS.procs;
    assert [1] + [2] == [1, 2] && [] + [1] == [1];
    assert BecomeZombie(s, 5).procs == DYING.procs;
  }

  lemma AdoptedStep()
    ensures Exit(Trap(THREE_LEVELS, OtherCall), 5) == ADOPTED
  {
    DyingStep();
    assert Self(Trap(THREE_LEVELS, OtherCall)).parent == Some(0);
    HandedOver();
  }

  lemma HandedOver()
    ensures ParentWaits(DYING, 0, 1) && HandOver(DYING, 0) == ADOPTED
  {
    assert Without([1, 2], {1}) == [2] by { WithoutAt([1, 2], 0); }
    assert Without([0], {0}) == [] by { WithoutAt([0], 0); }
    assert Without([1], {1}) == [] by { WithoutAt([1], 0); }
    var t := HandOver(DYING, 0);
    assert t.procs == ADOPTED.procs;
    assert t.queues == ADOPTED.queues;
  }

  lemma MissedStep()
    ensures WaitFor(Trap(ADOPTED, Wait(0)), 0) == MISSED
  {
    var r := Trap(ADOPTED, Wait(0));
    assert Awaited(r, [2], 0) == 2;
    assert [] + [0] == [0] && [2][1..] == [];
    assert WaitFor(r, 0).procs == MISSED.procs;
  }

  lemma MotherBreaksFamily()
    ensures !FamilyOk(Exit(THREE_LEVELS, 5))
  {
    ThreeLevelsReachable();
    ReachableInv(THREE_LEVELS);
    ExitFamilyIff(THREE_LEVELS, 5);
  }

  lemma MissedExit()
    ensures AwaitsChild(Exit(MISSED, 6), 0) && !HandshakeOk(Exit(MISSED, 6))
  {
    assert !ParentWaits(BecomeZombie(MISSED, 6), 1, 2);
    AdoptedExitMissesInit(MISSED, 6);
  }

  /** A process that has a child exits in a reachable state. Init adopts the child and waits
      for any child, the child runs and exits, and init is not told. */
  lemma AdoptedChildIsMissed()
    ensures Reachable(THREE_LEVELS) && Self(THREE_LEVELS).parent.Some? && Self(THREE_LEVELS).children == [2]
    ensures !FamilyOk(Exit(THREE_LEVELS, 5))
    ensures Exit(Trap(THREE_LEVELS, OtherCall), 5) == ADOPTED && WaitFor(Trap(ADOPTED, Wait(0)), 0) == MISSED
    ensures AwaitsChild(Exit(MISSED, 6), 0) && !HandshakeOk(Exit(MISSED, 6))
  {
    ThreeLevelsReachable();
    MotherBreaksFamily();
    AdoptedStep();
    MissedStep();
    MissedExit();
  }

  // A descriptor that is left behind.

  const CHILD_ON := Scene(1, [0], [], map[0 := PARENT_1.(status := Ready), 1 := CHILD.(status := Running)], 2,
                          map[], map[])
  const DEAD_CHILD := CHILD.(value := 5, status := Zombie, call := OtherCall)
  const CHILD_GONE := SPAWNED.(ready := [], zombie := [1], exits := map[1 := 5],
                               procs := map[0 := PARENT_1, 1 := DEAD_CHILD])
  const REAPED := SPAWNED.(ready := [], exits := map[1 := 5], reports := [Report(0, 1, 5, true)],
                           procs := map[0 := PARENT_1.(children := [], call := Wait(0))])

  lemma ChildOnStep()
    ensures Enabled(SPAWNED, Preempt) && Apply(SPAWNED, Preempt) == CHILD_ON
  {
    PreemptTo(SPAWNED, 1);
    assert Preempted(SPAWNED, 1).procs == CHILD_ON.procs;
  }

  lemma ChildGoneStep()
    ensures Enabled(CHILD_ON, ExitWith(5)) && !HandsOver(CHILD_ON, 5) && Apply(CHILD_ON, ExitWith(5)) == CHILD_GONE
  {
    var s := Trap(CHILD_ON, OtherCall);
    DyingChild(s);
    assert [0][1..] == [];
    assert Exit(s, 5).procs == CHILD_GONE.procs;
  }

  lemma DyingChild(s: State)
    requires s == Trap(CHILD_ON, OtherCall)
    ensures BecomeZombie(s, 5) ==
              Scene(1, [0], [], map[0 := PARENT_1.(status := Ready), 1 := DEAD_CHILD], 2, map[], map[])
              .(zombie := [1], exits := map[1 := 5])
  {
    var z := BecomeZombie(s, 5);
    assert s.procs[0].children + [] == s.procs[0].children && [] + [1] == [1];
    assert z.procs == map[0 := PARENT_1.(status := Ready), 1 := DEAD_CHILD];
  }

  lemma ReapedStep()
    ensures Enabled(CHILD_GONE, WaitPid(0)) && Reaped(CHILD_GONE, 0) == Some(1)
            && Apply(CHILD_GONE, WaitPid(0)) == REAPED
  {
    var r := Trap(CHILD_GONE, Wait(0));
    assert Awaited(r, [1], 0) == 1;
    assert Without([1], {1}) == [] by { WithoutAt([1], 0); }
    assert Apply(CHILD_GONE, WaitPid(0)).procs == REAPED.procs;
    assert QueuesOf(CHILD) == {};
  }

  lemma ChildOpens(g: G.Graph)
    requires g == G.AddProcess(G.Start())
    ensures 1 in g.lists && 1 in g.lastFd && Arises(Whole(CHILD_ON, G.Open(g, 1, 9, 0, DSOS_CREATE).0))
  {
    FirstArises();
    SpawnedStep();
    ThenArises(Whole(BOOT, G.Start()), System(SpawnChild), Whole(SPAWNED, g));
    ChildOnStep();
    ThenArises(Whole(SPAWNED, g), System(Preempt), Whole(CHILD_ON, g));
    OpenEvent(g);
    ThenArises(Whole(CHILD_ON, g), Resource(R.OpenStep(1, 9, 0, DSOS_CREATE)),
        Whole(CHILD_ON, G.Open(g, 1, 9, 0, DSOS_CREATE).0));
  }

  lemma OpenEvent(g: G.Graph)
    requires 1 in g.lists && 1 in g.lastFd
    ensures Possible(Whole(CHILD_ON, g), Resource(R.OpenStep(1, 9, 0, DSOS_CREATE)))
    ensures After(Whole(CHILD_ON, g), Resource(R.OpenStep(1, 9, 0, DSOS_CREATE))) ==
              Whole(CHILD_ON, G.Open(g, 1, 9, 0, DSOS_CREATE).0)
  {
  }

  lemma ExitEvent(g: G.Graph)
    ensures Possible(Whole(CHILD_ON, g), System(ExitWith(5)))
    ensures After(Whole(CHILD_ON, g), System(ExitWith(5))) == Whole(CHILD_GONE, g)
  {
    ChildGoneStep();
    ExitEffect(CHILD_ON, g, 5);
  }

  lemma ReapEvent(g: G.Graph)
    requires 1 in g.lists
    ensures Possible(Whole(CHILD_GONE, g), System(WaitPid(0)))
    ensures After(Whole(CHILD_GONE, g), System(WaitPid(0))) == Whole(REAPED, G.DropProcess(g, 1))
  {
    ReapedStep();
    WaitEffect(CHILD_GONE, g, 0);
  }

  lemma ChildIsReaped(g: G.Graph)
    requires Arises(Whole(CHILD_ON, g)) && 1 in g.lists
    ensures Arises(Whole(REAPED, G.DropProcess(g, 1)))
  {
    ExitEvent(g);
    ThenArises(Whole(CHILD_ON, g), System(ExitWith(5)), Whole(CHILD_GONE, g));
    ReapEvent(g);
    ThenArises(Whole(CHILD_GONE, g), System(WaitPid(0)), Whole(REAPED, G.DropProcess(g, 1)));
  }

  /** The graph when a process that was spawned from the start has opened resource 9. */
  lemma OpenedByChild(g: G.Graph) returns (d: G.Cell)
    requires g == G.AddProcess(G.Start())
    ensures 1 in g.lists && 1 in g.lastFd
    ensures var t := G.Open(g, 1, 9, 0, DSOS_CREATE).0; R.HoldsOne(t, 1, 9, d) && t.lists.Keys == {0, 1}
  {
    SecondProcess(g);
    d := R.NewResourceHeld(g, 1, 9, 0, DSOS_CREATE);
    R.CallKeepsLists(g, R.OpenStep(1, 9, 0, DSOS_CREATE));
  }

  lemma SecondProcess(g: G.Graph)
    requires g == G.AddProcess(G.Start())
    ensures G.GraphOk(g) && g.lists.Keys == {0, 1} && 1 in g.lastFd && !R.Listed(g, 9)
    ensures g.freeResources != [] && g.freeDescriptors != []
  {
    SecondOk(g);
    SecondFacts(g);
  }

  lemma SecondOk(g: G.Graph)
    requires g == G.AddProcess(G.Start())
    ensures G.GraphOk(g)
  {
    G.StartOk();
    G.AddProcessKeeps(G.Start());
  }

  lemma SecondFacts(g: G.Graph)
    requires g == G.AddProcess(G.Start())
    ensures g.lists.Keys == {0, 1} && 1 in g.lastFd && !R.Listed(g, 9)
    ensures g.freeResources != [] && g.freeDescriptors != []
  {
    assert |G.AllCells()| == G.POOL_SIZE;
  }

  /** The child opens a resource and exits while its parent is not waiting; the parent reaps it
      later. Nobody who is alive has the resource open, and it cannot be destroyed. */
  lemma ReapedChildPinsResource() returns (g: G.Graph, d: G.Cell)
    ensures Arises(Whole(REAPED, g)) && g.lists.Keys == {0} && R.Orphan(g, d) && g.descriptors[d].pid == 1
    ensures G.Destroy(g, 9).1 == DSOS_ERESOURCEINUSE
  {
    var first := G.AddProcess(G.Start());
    d := OpenedByChild(first);
    ChildOpens(first);
    var held := G.Open(first, 1, 9, 0, DSOS_CREATE).0;
    ChildIsReaped(held);
    R.ReapedHolder(held, 1, 9, d);
    g := G.DropProcess(held, 1);
  }
}
