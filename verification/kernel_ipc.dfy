/** The core invariant through the message queue calls. */
module KernelIpc {
  import opened Seqs
  import opened Constants
  import opened Timers
  import opened Payloads
  import opened KernelModel
  import opened KernelRun
  import opened KernelInv
  import opened KernelSched

  // Facts about a process inside a call.

  lemma CallFacts(s: State, p: Pid)
    requires EntriesOk(s) && PcsOk(s) && p in s.procs && s.procs[p].pc.Calling?
    ensures InCall(s, p)
    ensures SlotOk(s, p, s.procs[p].pc.fd, s.procs[p].pc.role)
    ensures s.users[CallEntry(s, p)].pid == p && s.users[CallEntry(s, p)].fd == s.procs[p].pc.fd
    ensures s.users[CallEntry(s, p)].queue == CallQueue(s, p) && s.users[CallEntry(s, p)].role == s.procs[p].pc.role
    ensures CallEntry(s, p) in Users(s.queues[CallQueue(s, p)], s.procs[p].pc.role)
  {
    assert PcOk(s, p);
    assert SlotOk(s, p, s.procs[p].pc.fd, s.procs[p].pc.role);
  }

  /** A process has at most one entry marked waiting: the one of the call it is in. */
  lemma BlockedEntryIsCallEntry(s: State, b: Block)
    requires EntriesOk(s) && PcsOk(s) && b in s.users && Blocked(s, b)
    ensures InCall(s, s.users[b].pid) && CallEntry(s, s.users[b].pid) == b
  {
    CallFacts(s, s.users[b].pid);
  }

  /** A process that is not parked has no entry marked waiting. */
  lemma UnparkedEntries(s: State, p: Pid)
    requires BlockedOk(s) && p !in s.waiting
    ensures forall b {:trigger s.users[b]} :: b in s.users && s.users[b].pid == p ==> s.users[b].status == Running
  {
  }

  // Moving the program counter of the running process.

  lemma ResumeKeeps(s: State)
    requires CoreInv(s) && Alive(s)
    requires Self(s).pc.Calling? ==> Self(s).pc.phase == Yield
    ensures CoreInv(Resume(s))
  {
    if Self(s).pc.Calling? {
      ResumeIpc(s);
      ResumeLists(s);
      ResumeCauses(s);
    }
  }

  lemma ResumeIpc(s: State)
    requires EntriesOk(s) && PcsOk(s) && Alive(s) && Self(s).pc.Calling?
    ensures EntriesOk(Resume(s)) && PcsOk(Resume(s))
  {
    EntriesFrame(s, Resume(s));
    forall p | p in s.procs ensures PcOk(Resume(s), p) { assert PcOk(s, p); }
  }

  lemma ResumeLists(s: State)
    requires Placed(s) && TimersOk(s) && StatusOk(s) && Alive(s) && Self(s).pc.Calling?
    ensures Placed(Resume(s)) && TimersOk(Resume(s)) && StatusOk(Resume(s))
  {
  }

  lemma ResumeCauses(s: State)
    requires BlockedOk(s) && CausesOk(s) && Alive(s) && Self(s).pc.Calling? && Self(s).pc.phase == Yield
    ensures BlockedOk(Resume(s)) && CausesOk(Resume(s))
  {
  }

  function Move(s: State, ret: int, pc: Pc): State
    requires Alive(s)
  {
    SetSelf(s, Self(s).(ret := ret, pc := pc))
  }

  /** A running process that is not parked may move to any consistent place of its code,
      its descriptors staying as they are. */
  lemma MoveKeeps(s: State, ret: int, pc: Pc)
    requires CoreInv(s) && Alive(s) && s.running.value !in s.waiting
    requires PcOk(Move(s, ret, pc), s.running.value)
    ensures CoreInv(Move(s, ret, pc))
  {
    MoveIpc(s, ret, pc);
    MoveLists(s, ret, pc);
    MoveCauses(s, ret, pc);
  }

  lemma MoveIpc(s: State, ret: int, pc: Pc)
    requires EntriesOk(s) && PcsOk(s) && Alive(s)
    requires PcOk(Move(s, ret, pc), s.running.value)
    ensures EntriesOk(Move(s, ret, pc)) && PcsOk(Move(s, ret, pc))
  {
    var t := Move(s, ret, pc);
    EntriesFrame(s, t);
    forall p | p in t.procs ensures PcOk(t, p) { assert PcOk(s, p); }
  }

  lemma MoveLists(s: State, ret: int, pc: Pc)
    requires Placed(s) && TimersOk(s) && StatusOk(s) && Alive(s) && s.running.value !in s.waiting
    ensures Placed(Move(s, ret, pc)) && TimersOk(Move(s, ret, pc)) && StatusOk(Move(s, ret, pc))
  {
  }

  lemma MoveCauses(s: State, ret: int, pc: Pc)
    requires BlockedOk(s) && CausesOk(s) && Alive(s) && s.running.value !in s.waiting
    ensures BlockedOk(Move(s, ret, pc)) && CausesOk(Move(s, ret, pc))
  {
    UnparkedEntries(s, s.running.value);
  }

  lemma CallStartKeeps(s: State, role: Role, fd: Fd, msg: Bytes, size: int)
    requires CoreInv(s) && Enabled(s, CallStart(role, fd, msg, size))
    ensures CoreInv(Apply(s, CallStart(role, fd, msg, size)))
  {
    UserIsUnparked(s);
    assert PcOk(s, s.running.value);
    MoveKeeps(s, Self(s).ret, Calling(role, fd, First, msg, size));
  }

  lemma CloseStartKeeps(s: State, fd: Fd)
    requires CoreInv(s) && Enabled(s, CloseStart(fd))
    ensures CoreInv(Apply(s, CloseStart(fd)))
  {
    UserIsUnparked(s);
    assert PcOk(s, s.running.value);
    MoveKeeps(s, Self(s).ret, Closing(fd, 0));
  }

  // The transfer.

  /** The state in which a send or receive that found no room leaves the kernel. */
  function BlockOn(s: State, ret: int): State
    requires Alive(s) && InCall(s, s.running.value)
  {
    var entry := CallEntry(s, s.running.value);
    SetPhase(Return(Park(s.(users := s.users[entry := s.users[entry].(status := Waiting)])), ret), Yield)
  }

  function Failure(role: Role): int {
    if role == Reader then DSOS_NO_MSG_RECEIVED else DSOS_NO_MSG_SENT
  }

  /** A transfer that finds no room blocks. */
  lemma TransferBlocks(s: State, grant: Grant)
    requires Alive(s) && InCall(s, s.running.value) && UsableGrant(grant)
    requires |Payload(Self(s).pc.msg, s.queues[CallQueue(s, s.running.value)].msgSize)| <= MAX_MESSAGE_SIZE
    requires Room(s.queues[CallQueue(s, s.running.value)], Self(s).pc.role) <= 0
    ensures Transfer(s, grant) == BlockOn(s, Failure(Self(s).pc.role))
  {
  }

  lemma BlockPlaced(s: State, ret: int)
    requires Placed(s) && Alive(s) && InCall(s, s.running.value) && SafeBlock(s)
    ensures Placed(BlockOn(s, ret))
    ensures BlockOn(s, ret).waiting == if s.running.value in s.waiting then s.waiting else s.waiting + [s.running.value]
  {
    NoDupConcatNew(s.waiting, s.running.value);
  }

  lemma NoDupConcatNew(xs: seq<Pid>, x: Pid)
    requires NoDup(xs)
    ensures x !in xs ==> NoDup(xs + [x])
  {
    if x !in xs { NoDupConcat(xs, [x]); }
  }

  lemma BlockLists(s: State, ret: int)
    requires Placed(s) && TimersOk(s) && StatusOk(s) && Alive(s) && InCall(s, s.running.value) && SafeBlock(s)
    requires Self(s).status != Zombie
    ensures TimersOk(BlockOn(s, ret)) && StatusOk(BlockOn(s, ret))
  {
    BlockPlaced(s, ret);
  }

  lemma BlockIpc(s: State, ret: int)
    requires EntriesOk(s) && PcsOk(s) && Alive(s) && InCall(s, s.running.value)
    ensures EntriesOk(BlockOn(s, ret)) && PcsOk(BlockOn(s, ret))
  {
    var t := BlockOn(s, ret);
    forall p, fd, role | p in t.procs && fd in t.procs[p].fds && role in t.procs[p].fds[fd].slots
      ensures SlotOk(t, p, fd, role)
    {
      assert SlotOk(s, p, fd, role);
    }
    forall p | p in t.procs ensures PcOk(t, p) { assert PcOk(s, p); }
  }

  lemma BlockBlocked(s: State, ret: int)
    requires Placed(s) && EntriesOk(s) && PcsOk(s) && BlockedOk(s)
    requires Alive(s) && InCall(s, s.running.value) && SafeBlock(s)
    ensures BlockedOk(BlockOn(s, ret))
  {
    var p := s.running.value;
    var t := BlockOn(s, ret);
    BlockPlaced(s, ret);
    CallFacts(s, p);
    forall b | b in t.users && t.users[b].status != Running ensures Blocked(t, b) {
      if b != CallEntry(s, p) {
        assert Blocked(s, b);
        BlockedEntryIsCallEntry(s, b);
      }
    }
  }

  /** Whoever else is parked stays parked for the same cause. */
  lemma BlockOthers(s: State, ret: int, q: Pid)
    requires EntriesOk(s) && PcsOk(s) && Alive(s) && InCall(s, s.running.value) && q != s.running.value
    ensures AwaitsChild(s, q) ==> AwaitsChild(BlockOn(s, ret), q)
    ensures OnQueue(s, q) ==> OnQueue(BlockOn(s, ret), q)
  {
    if OnQueue(s, q) { CallFacts(s, q); }
  }

  lemma BlockSelf(s: State, ret: int)
    requires EntriesOk(s) && PcsOk(s) && Alive(s) && InCall(s, s.running.value)
    requires Placed(s) && SafeBlock(s)
    ensures OnQueue(BlockOn(s, ret), s.running.value)
  {
    BlockPlaced(s, ret);
    CallFacts(s, s.running.value);
  }

  lemma BlockCauses(s: State, ret: int)
    requires Placed(s) && EntriesOk(s) && PcsOk(s) && CausesOk(s)
    requires Alive(s) && InCall(s, s.running.value) && SafeBlock(s)
    requires Room(s.queues[CallQueue(s, s.running.value)], Self(s).pc.role) <= 0
    ensures CausesOk(BlockOn(s, ret))
  {
    BlockPlaced(s, ret);
    BlockSelf(s, ret);
    var t := BlockOn(s, ret);
    forall q | q in t.waiting && q != s.running.value
      ensures q in Pids(t.timers) || AwaitsChild(t, q) || OnQueue(t, q)
    {
      assert q in s.waiting;
      BlockOthers(s, ret, q);
    }
  }

  lemma BlockKeeps(s: State, ret: int)
    requires CoreInv(s) && Alive(s) && InCall(s, s.running.value) && SafeBlock(s)
    requires Room(s.queues[CallQueue(s, s.running.value)], Self(s).pc.role) <= 0
    ensures CoreInv(BlockOn(s, ret))
  {
    assert Self(s).status != Zombie;
    BlockPlaced(s, ret);
    BlockLists(s, ret);
    BlockIpc(s, ret);
    BlockBlocked(s, ret);
    BlockCauses(s, ret);
  }

  /** A running process whose call finds room is not parked. */
  lemma RoomMeansUnparked(s: State)
    requires CausesOk(s) && Alive(s) && InCall(s, s.running.value)
    requires Room(s.queues[CallQueue(s, s.running.value)], Self(s).pc.role) > 0
    ensures s.running.value !in s.waiting
  {
  }

  /** Queue contents and attributes change, the user lists do not. */
  predicate SameLists(a: Queue, b: Queue) {
    a.readers == b.readers && a.writers == b.writers && a.nonBlock == b.nonBlock
  }

  lemma ContentsKeep(s: State, qid: Qid, q: Queue)
    requires CoreInv(s) && Alive(s) && s.running.value !in s.waiting
    requires qid in s.queues && SameLists(s.queues[qid], q)
    ensures CoreInv(s.(queues := s.queues[qid := q]))
  {
    ContentsIpc(s, qid, q);
    ContentsCauses(s, qid, q);
  }

  lemma ContentsIpc(s: State, qid: Qid, q: Queue)
    requires EntriesOk(s) && qid in s.queues && SameLists(s.queues[qid], q)
    ensures EntriesOk(s.(queues := s.queues[qid := q]))
  {
    var t := s.(queues := s.queues[qid := q]);
    forall q', role | q' in t.queues ensures Users(t.queues[q'], role) == Users(s.queues[q'], role) {}
    forall p, fd, role | p in t.procs && fd in t.procs[p].fds && role in t.procs[p].fds[fd].slots
      ensures SlotOk(t, p, fd, role)
    {
      assert SlotOk(s, p, fd, role);
    }
  }

  lemma ContentsCauses(s: State, qid: Qid, q: Queue)
    requires BlockedOk(s) && CausesOk(s) && Alive(s) && s.running.value !in s.waiting && qid in s.queues
    ensures BlockedOk(s.(queues := s.queues[qid := q])) && CausesOk(s.(queues := s.queues[qid := q]))
  {
  }

  lemma TransferKeeps(s: State, grant: Grant)
    requires CoreInv(s) && Alive(s) && InCall(s, s.running.value) && SafeBlock(s) && UsableGrant(grant)
    requires |Payload(Self(s).pc.msg, s.queues[CallQueue(s, s.running.value)].msgSize)| <= MAX_MESSAGE_SIZE
    ensures CoreInv(Transfer(s, grant))
  {
    var p := s.running.value;
    var role, qid := Self(s).pc.role, CallQueue(s, p);
    if Room(s.queues[qid], role) <= 0 {
      TransferBlocks(s, grant);
      BlockKeeps(s, Failure(role));
    } else {
      RoomMeansUnparked(s);
      assert PcOk(s, p);
      if role == Writer && grant.None? {
        FailedSendKeeps(s);
      } else {
        var garbage := if grant.Some? then grant.value else [];
        ExchangeKeeps(s, qid, Exchange(s.queues[qid], role, Self(s).pc.msg, garbage));
      }
    }
  }

  lemma FailedSendKeeps(s: State)
    requires CoreInv(s) && Alive(s) && Self(s).pc.Calling? && s.running.value !in s.waiting
    ensures CoreInv(SetPhase(Return(s, DSOS_NO_MSG_SENT), Yield))
  {
    PhaseKeeps(s, DSOS_NO_MSG_SENT, Yield);
  }

  lemma PhaseKeeps(s: State, ret: int, phase: Phase)
    requires CoreInv(s) && Alive(s) && Self(s).pc.Calling? && s.running.value !in s.waiting
    ensures CoreInv(SetPhase(Return(s, ret), phase))
  {
    PhaseIsMove(s, ret, phase);
    assert PcOk(s, s.running.value);
    MoveKeeps(s, ret, Self(s).pc.(phase := phase));
  }

  lemma PhaseIsMove(s: State, ret: int, phase: Phase)
    requires Alive(s) && Self(s).pc.Calling?
    ensures SetPhase(Return(s, ret), phase) == Move(s, ret, Self(s).pc.(phase := phase))
  {
  }

  lemma ExchangeKeeps(s: State, qid: Qid, q: Queue)
    requires CoreInv(s) && Alive(s) && s.running.value !in s.waiting && Self(s).pc.Calling?
    requires qid in s.queues && SameLists(s.queues[qid], q)
    ensures CoreInv(SetPhase(Return(s.(queues := s.queues[qid := q]), 0), Wake))
  {
    var t := s.(queues := s.queues[qid := q]);
    ContentsKeep(s, qid, q);
    PhaseKeeps(t, 0, Wake);
  }

  // The wake-up.

  lemma WakeUserLists(s: State, b: Block)
    requires Placed(s) && TimersOk(s) && StatusOk(s) && Alive(s)
    requires b in s.users && Blocked(s, b) && s.users[b].pid != s.running.value
    ensures Placed(WakeUser(s, b)) && TimersOk(WakeUser(s, b)) && StatusOk(WakeUser(s, b))
  {
    NoDupConcatNew(s.ready, s.users[b].pid);
  }

  lemma WakeUserIpc(s: State, b: Block)
    requires EntriesOk(s) && PcsOk(s) && b in s.users
    ensures EntriesOk(WakeUser(s, b)) && PcsOk(WakeUser(s, b))
  {
    var t := WakeUser(s, b);
    forall p, fd, role | p in t.procs && fd in t.procs[p].fds && role in t.procs[p].fds[fd].slots
      ensures SlotOk(t, p, fd, role)
    {
      assert SlotOk(s, p, fd, role);
    }
    PcsFrame(s, t);
  }

  lemma WakeUserBlocked(s: State, b: Block)
    requires EntriesOk(s) && PcsOk(s) && BlockedOk(s) && b in s.users && Blocked(s, b)
    ensures BlockedOk(WakeUser(s, b))
  {
    var t := WakeUser(s, b);
    BlockedEntryIsCallEntry(s, b);
    forall c | c in t.users && t.users[c].status != Running ensures Blocked(t, c) {
      assert c != b && Blocked(s, c);
      BlockedEntryIsCallEntry(s, c);
    }
  }

  lemma WakeUserOthers(s: State, b: Block, q: Pid)
    requires EntriesOk(s) && PcsOk(s) && b in s.users && q != s.users[b].pid
    ensures AwaitsChild(s, q) ==> AwaitsChild(WakeUser(s, b), q)
    ensures OnQueue(s, q) ==> OnQueue(WakeUser(s, b), q)
  {
    if OnQueue(s, q) { CallFacts(s, q); }
  }

  lemma WakeUserCauses(s: State, b: Block)
    requires EntriesOk(s) && PcsOk(s) && CausesOk(s) && b in s.users && s.running != Some(s.users[b].pid)
    ensures CausesOk(WakeUser(s, b))
  {
    var t := WakeUser(s, b);
    forall q | q in t.waiting ensures q in Pids(t.timers) || AwaitsChild(t, q) || OnQueue(t, q) {
      assert q in s.waiting && q != s.users[b].pid;
      WakeUserOthers(s, b, q);
    }
    if t.running.Some? { WakeUserOthers(s, b, s.running.value); }
  }

  lemma WakeUserKeeps(s: State, b: Block)
    requires CoreInv(s) && Alive(s)
    requires b in s.users && Blocked(s, b) && s.users[b].pid != s.running.value
    ensures CoreInv(WakeUser(s, b))
  {
    WakeUserLists(s, b);
    WakeUserIpc(s, b);
    WakeUserBlocked(s, b);
    WakeUserCauses(s, b);
  }

  lemma WakeUpKeeps(s: State)
    requires CoreInv(s) && Alive(s) && InCall(s, s.running.value) && Self(s).pc.phase == Wake
    ensures CoreInv(WakeUpQueue(s))
  {
    UserIsUnparked(s);
    var q := s.queues[CallQueue(s, s.running.value)];
    var flag := if Self(s).pc.role == Reader then WakeupFlagRecv(q) else WakeupFlagSend(q);
    var waiter := FirstWaiter(s, Users(q, Opposite(Self(s).pc.role)));
    if flag && waiter.Some? {
      assert Blocked(s, waiter.value);
      WakeUserKeeps(s, waiter.value);
      BackToUserKeeps(WakeUser(s, waiter.value));
    } else {
      BackToUserKeeps(s);
    }
  }

  lemma BackToUserKeeps(s: State)
    requires CoreInv(s) && Alive(s) && s.running.value !in s.waiting
    ensures CoreInv(Move(s, 0, User))
  {
    assert PcOk(s, s.running.value);
    MoveKeeps(s, 0, User);
  }
}
