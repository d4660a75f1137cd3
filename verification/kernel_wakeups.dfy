/** No wake-up is lost, although a transfer and the wake-up it calls for are two system
    calls with any number of other steps between them. */
module KernelWakeups {
  import opened Seqs
  import opened Constants
  import opened Timers
  import opened Payloads
  import opened KernelModel
  import opened KernelRun
  import opened KernelInv
  import opened KernelSched
  import opened KernelIpc

  /** The process has served the opposite side and is about to wake a user of `role`. */
  predicate WillWake(s: State, p: Pid, q: Qid, role: Role) {
    && InCall(s, p) && CallQueue(s, p) == q
    && s.procs[p].pc.role == Opposite(role) && s.procs[p].pc.phase == Wake
  }

  /** The process came back from the kernel without a transfer, is not (or no longer)
      marked waiting, and will try again. */
  predicate WillRetry(s: State, p: Pid, q: Qid, role: Role) {
    && InCall(s, p) && CallQueue(s, p) == q
    && s.procs[p].pc.role == role && (s.procs[p].pc.phase == Yield || s.procs[p].pc.phase == Again)
    && s.users[CallEntry(s, p)].status == Running
  }

  function Wakers(s: State, q: Qid, role: Role): set<Pid> {
    set p | p in s.procs && WillWake(s, p, q, role)
  }

  function Retriers(s: State, q: Qid, role: Role): set<Pid> {
    set p | p in s.procs && WillRetry(s, p, q, role)
  }

  /** The wake-ups in flight. */
  function Pending(s: State, q: Qid, role: Role): set<Pid> {
    set p | p in s.procs && (WillWake(s, p, q, role) || WillRetry(s, p, q, role))
  }

  predicate SomeoneWaits(s: State, q: Qid, role: Role)
    requires q in s.queues
  {
    exists b :: b in Users(s.queues[q], role) && b in s.users && s.users[b].status == Waiting
  }

  /** While a user of `role` waits, the queue could serve at most as many users as there
      are wake-ups in flight. */
  predicate Covered(s: State, q: Qid, role: Role)
    requires q in s.queues
  {
    SomeoneWaits(s, q, role) ==> Room(s.queues[q], role) <= |Pending(s, q, role)|
  }

  predicate NoLostWakeup(s: State, role: Role) {
    forall q {:trigger s.queues[q]} :: q in s.queues ==> Covered(s, q, role)
  }

  /** The two kinds of pending wake-ups are counted apart. */
  lemma PendingIsSum(s: State, q: Qid, role: Role)
    requires role != NonBlock
    ensures |Pending(s, q, role)| == |Wakers(s, q, role)| + |Retriers(s, q, role)|
  {
    assert Pending(s, q, role) == Wakers(s, q, role) + Retriers(s, q, role);
    assert Wakers(s, q, role) !! Retriers(s, q, role);
  }

  /** The flag functions test for room and for users of the side to be woken. */
  lemma FlagsTestRoom(q: Queue)
    ensures WakeupFlagRecv(q) <==> Room(q, Writer) > 0 && Users(q, Writer) != []
    ensures WakeupFlagSend(q) <==> Room(q, Reader) > 0 && Users(q, Reader) != []
  {
  }

  lemma {:induction false} SubsetSize(a: set<Pid>, b: set<Pid>)
    requires a <= b
    ensures |a| <= |b|
  {
    if a != {} {
      var x :| x in a;
      SubsetSize(a - {x}, b - {x});
    }
  }

  // Frames.

  /** On this queue and side nobody new waits, there is no new room, and no pending
      wake-up is gone. */
  predicate NoWorse(s: State, t: State, q: Qid, role: Role)
    requires q in s.queues && q in t.queues
  {
    && (SomeoneWaits(t, q, role) ==> SomeoneWaits(s, q, role))
    && Room(t.queues[q], role) <= Room(s.queues[q], role)
    && Pending(s, q, role) <= Pending(t, q, role)
  }

  lemma NoWorseCovered(s: State, t: State, q: Qid, role: Role)
    requires q in s.queues && q in t.queues && NoWorse(s, t, q, role) && Covered(s, q, role)
    ensures Covered(t, q, role)
  {
    SubsetSize(Pending(s, q, role), Pending(t, q, role));
  }

  /** Calls in progress go on: same place up to the preemption, same entry, same mark. */
  ghost predicate CallsGoOn(s: State, t: State) {
    && (forall p {:trigger t.procs[p]} {:trigger s.procs[p]} :: p in s.procs && s.procs[p].pc.Calling? ==>
          && p in t.procs && t.procs[p].fds == s.procs[p].fds
          && (t.procs[p].pc == s.procs[p].pc
              || (s.procs[p].pc.phase == Yield && t.procs[p].pc == s.procs[p].pc.(phase := Again))))
    && (forall p {:trigger InCall(s, p)} :: InCall(s, p) ==>
          && CallQueue(s, p) in t.queues
          && CallEntry(s, p) in t.users && t.users[CallEntry(s, p)].status == s.users[CallEntry(s, p)].status)
  }

  lemma CallsPending(s: State, t: State, q: Qid, role: Role)
    requires CallsGoOn(s, t)
    ensures Pending(s, q, role) <= Pending(t, q, role)
  {
  }

  /** Nobody new is marked waiting in any list. */
  predicate NoNewWaiters(s: State, t: State) {
    forall q, role, b {:trigger b in Users(t.queues[q], role)} ::
      q in s.queues && q in t.queues && b in Users(t.queues[q], role) && b in t.users
          && t.users[b].status == Waiting ==>
        b in Users(s.queues[q], role) && b in s.users && s.users[b].status == Waiting
  }

  lemma FrameCovers(s: State, t: State, role: Role)
    requires CallsGoOn(s, t) && NoNewWaiters(s, t) && NoLostWakeup(s, role)
    requires forall q {:trigger t.queues[q]} :: q in t.queues && q in s.queues ==>
             Room(t.queues[q], role) <= Room(s.queues[q], role)
    requires forall q {:trigger t.queues[q]} :: q in t.queues && q !in s.queues ==> !SomeoneWaits(t, q, role)
    ensures NoLostWakeup(t, role)
  {
    forall q | q in t.queues ensures Covered(t, q, role) {
      if q in s.queues {
        CallsPending(s, t, q, role);
        assert Covered(s, q, role);
        NoWorseCovered(s, t, q, role);
      }
    }
  }

  // The transfer.

  /** Another queue, or the other side, sees nothing of a call that moves inside itself. */
  lemma OtherPending(s: State, t: State, q: Qid, role: Role)
    requires Alive(s) && t.procs.Keys == s.procs.Keys
    requires forall p {:trigger t.procs[p]} :: p in s.procs && p != s.running.value ==>
             t.procs[p].fds == s.procs[p].fds && t.procs[p].pc == s.procs[p].pc
    requires forall p {:trigger InCall(s, p)} :: InCall(s, p) && p != s.running.value ==>
               && CallQueue(s, p) in t.queues
               && CallEntry(s, p) in t.users && t.users[CallEntry(s, p)].status == s.users[CallEntry(s, p)].status
    ensures Pending(s, q, role) - {s.running.value} <= Pending(t, q, role)
  {
  }

  lemma OthersKeepEntries(s: State)
    requires EntriesOk(s) && PcsOk(s) && Alive(s) && Self(s).pc.Calling?
    ensures InCall(s, s.running.value)
    ensures forall p {:trigger InCall(s, p)} :: InCall(s, p) && p != s.running.value ==>
            CallEntry(s, p) != CallEntry(s, s.running.value)
  {
    CallFacts(s, s.running.value);
    forall p | InCall(s, p) && p != s.running.value ensures CallEntry(s, p) != CallEntry(s, s.running.value) {
      CallFacts(s, p);
    }
  }

  lemma RemovedOne(a: set<Pid>, b: set<Pid>, x: Pid)
    requires a - {x} <= b
    ensures |b| >= |a| - 1
    ensures x !in a ==> |b| >= |a|
    ensures x !in a && x in b ==> |b| >= |a| + 1
  {
    SubsetSize(a - {x}, b);
    if x !in a {
      assert a - {x} == a;
      if x in b { SubsetSize(a + {x}, b); }
    }
  }

  /** Blocking: the blocked side has no room, and every other side is as before. */
  lemma BlockCovers(s: State, ret: int, role: Role)
    requires EntriesOk(s) && PcsOk(s) && Alive(s) && InCall(s, s.running.value)
    requires Self(s).pc.phase == First || Self(s).pc.phase == Again
    requires Room(s.queues[CallQueue(s, s.running.value)], Self(s).pc.role) <= 0
    requires NoLostWakeup(s, role)
    ensures NoLostWakeup(BlockOn(s, ret), role)
  {
    var t, p := BlockOn(s, ret), s.running.value;
    OthersKeepEntries(s);
    CallFacts(s, p);
    forall q | q in t.queues ensures Covered(t, q, role) {
      assert Covered(s, q, role);
      if !(q == CallQueue(s, p) && role == Self(s).pc.role) {
        OtherPending(s, t, q, role);
        RemovedOne(Pending(s, q, role), Pending(t, q, role), p);
        BlockSparesOthers(s, ret, q, role);
      }
    }
  }

  /** Nobody waits on another queue, or on the other side, because of it. */
  lemma BlockSparesOthers(s: State, ret: int, q: Qid, role: Role)
    requires EntriesOk(s) && Alive(s) && InCall(s, s.running.value) && q in s.queues
    requires !(q == CallQueue(s, s.running.value) && role == Self(s).pc.role)
    ensures SomeoneWaits(BlockOn(s, ret), q, role) ==> SomeoneWaits(s, q, role)
  {
    var p := s.running.value;
    assert SlotOk(s, p, Self(s).pc.fd, Self(s).pc.role);
    assert CallEntry(s, p) !in Users(s.queues[q], role);
  }

  /** A send that gets no message block stays, or becomes, a pending retry. */
  lemma FailedSendCovers(s: State, role: Role)
    requires EntriesOk(s) && PcsOk(s) && Alive(s) && InCall(s, s.running.value)
    requires Self(s).pc.phase == First || Self(s).pc.phase == Again
    requires NoLostWakeup(s, role)
    ensures NoLostWakeup(SetPhase(Return(s, DSOS_NO_MSG_SENT), Yield), role)
  {
    var t := SetPhase(Return(s, DSOS_NO_MSG_SENT), Yield);
    forall q | q in t.queues ensures Covered(t, q, role) {
      assert Covered(s, q, role);
      forall p | p in Pending(s, q, role) ensures p in Pending(t, q, role) {
        assert p != s.running.value ==> t.procs[p] == s.procs[p];
      }
      NoWorseCovered(s, t, q, role);
    }
  }

  /** An exchange takes one unit of room from its own side, for which it was perhaps a
      pending retry, gives one to the opposite side, and is from now on a pending wake-up
      for that side. */
  lemma ExchangeCovers(s: State, q': Queue, role: Role)
    requires EntriesOk(s) && PcsOk(s) && Alive(s) && InCall(s, s.running.value)
    requires Self(s).pc.phase == First || Self(s).pc.phase == Again
    requires NoLostWakeup(s, role) && role != NonBlock
    requires SameLists(s.queues[CallQueue(s, s.running.value)], q')
    requires Room(q', Self(s).pc.role) == Room(s.queues[CallQueue(s, s.running.value)], Self(s).pc.role) - 1
    requires Room(q', Opposite(Self(s).pc.role)) ==
             Room(s.queues[CallQueue(s, s.running.value)], Opposite(Self(s).pc.role)) + 1
    ensures NoLostWakeup(SetPhase(Return(s.(queues := s.queues[CallQueue(s, s.running.value) := q']), 0), Wake), role)
  {
    var p := s.running.value;
    var q0, r := CallQueue(s, p), Self(s).pc.role;
    var t := SetPhase(Return(s.(queues := s.queues[q0 := q']), 0), Wake);
    CallFacts(s, p);
    assert PcOk(s, p);
    assert InCall(t, p) && CallQueue(t, p) == q0;
    forall q | q in t.queues ensures Covered(t, q, role) {
      assert Covered(s, q, role);
      OtherPending(s, t, q, role);
      RemovedOne(Pending(s, q, role), Pending(t, q, role), p);
      assert Users(t.queues[q], role) == Users(s.queues[q], role);
      assert SomeoneWaits(t, q, role) ==> SomeoneWaits(s, q, role);
      if q == q0 && role == Opposite(r) {
        assert WillWake(t, p, q, role);
      }
    }
  }

  lemma TransferCovers(s: State, grant: Grant, role: Role)
    requires CoreInv(s) && Enabled(s, TransferStep(grant)) && NoLostWakeup(s, role) && role != NonBlock
    ensures NoLostWakeup(Transfer(s, grant), role)
  {
    var p := s.running.value;
    var r, q0 := Self(s).pc.role, CallQueue(s, p);
    assert PcOk(s, p);
    if Room(s.queues[q0], r) <= 0 {
      TransferBlocks(s, grant);
      BlockCovers(s, Failure(r), role);
    } else if r == Writer && grant.None? {
      FailedSendCovers(s, role);
    } else {
      ExchangeCovers(s, Exchange(s.queues[q0], r, Self(s).pc.msg, if grant.Some? then grant.value else []), role);
    }
  }

  // The wake-up.

  /** The process found for the wake-up trades places with the one that performs it. */
  lemma WakeUserCovers(s: State, b: Block, role: Role)
    requires EntriesOk(s) && PcsOk(s) && BlockedOk(s) && Alive(s) && InCall(s, s.running.value)
    requires Self(s).pc.phase == Wake && NoLostWakeup(s, role) && role != NonBlock
    requires b in s.users && Blocked(s, b) && s.users[b].status == Waiting && s.users[b].pid != s.running.value
    requires b in Users(s.queues[CallQueue(s, s.running.value)], Opposite(Self(s).pc.role))
    ensures NoLostWakeup(Move(WakeUser(s, b), 0, User), role)
  {
    var p, w := s.running.value, s.users[b].pid;
    var q0 := CallQueue(s, p);
    var t := Move(WakeUser(s, b), 0, User);
    assert PcOk(s, p);
    BlockedEntryIsCallEntry(s, b);
    CallFacts(s, w);
    forall x | InCall(s, x) && x != w ensures CallEntry(s, x) != b {
      CallFacts(s, x);
    }
    forall q | q in t.queues ensures Covered(t, q, role) {
      assert Covered(s, q, role);
      WokenPending(s, b, q, role);
      assert SomeoneWaits(t, q, role) ==> SomeoneWaits(s, q, role);
    }
  }

  lemma WokenPending(s: State, b: Block, q: Qid, role: Role)
    requires EntriesOk(s) && PcsOk(s) && Alive(s) && InCall(s, s.running.value) && role != NonBlock
    requires Self(s).pc.phase == Wake && Self(s).pc.role != NonBlock
    requires b in s.users && Blocked(s, b) && s.users[b].status == Waiting && s.users[b].pid != s.running.value
    requires InCall(s, s.users[b].pid) && CallEntry(s, s.users[b].pid) == b
    requires CallQueue(s, s.users[b].pid) == CallQueue(s, s.running.value)
    requires s.procs[s.users[b].pid].pc.role == Opposite(Self(s).pc.role)
    requires forall x {:trigger InCall(s, x)} :: InCall(s, x) && x != s.users[b].pid ==> CallEntry(s, x) != b
    ensures |Pending(Move(WakeUser(s, b), 0, User), q, role)| >= |Pending(s, q, role)|
  {
    WakerBecomesRetrier(s, b, q, role);
    OthersStayPending(s, b, q, role);
    Swapped(Pending(s, q, role), Pending(Move(WakeUser(s, b), 0, User), q, role), s.running.value, s.users[b].pid);
  }

  /** When the caller was counted as a waker, the process it wakes is counted as a retrier. */
  lemma WakerBecomesRetrier(s: State, b: Block, q: Qid, role: Role)
    requires EntriesOk(s) && PcsOk(s) && Alive(s) && InCall(s, s.running.value) && role != NonBlock
    requires Self(s).pc.phase == Wake && Self(s).pc.role != NonBlock
    requires b in s.users && Blocked(s, b) && s.users[b].status == Waiting && s.users[b].pid != s.running.value
    requires InCall(s, s.users[b].pid) && CallEntry(s, s.users[b].pid) == b
    requires CallQueue(s, s.users[b].pid) == CallQueue(s, s.running.value)
    requires s.procs[s.users[b].pid].pc.role == Opposite(Self(s).pc.role)
    ensures s.users[b].pid !in Pending(s, q, role)
    ensures s.running.value in Pending(s, q, role) ==> s.users[b].pid in Pending(Move(WakeUser(s, b), 0, User), q, role)
  {
    var p, w := s.running.value, s.users[b].pid;
    assert p in Pending(s, q, role) ==> WillWake(s, p, q, role) && WillRetry(Move(WakeUser(s, b), 0, User), w, q, role);
  }

  lemma Swapped(was: set<Pid>, now: set<Pid>, p: Pid, w: Pid)
    requires w !in was && was - {p} <= now && (p in was ==> w in now)
    ensures |now| >= |was|
  {
    if p in was {
      SubsetSize(was - {p} + {w}, now);
    } else {
      assert was - {p} == was;
      SubsetSize(was, now);
    }
  }

  lemma OthersStayPending(s: State, b: Block, q: Qid, role: Role)
    requires Alive(s) && b in s.users
    requires forall x {:trigger InCall(s, x)} :: InCall(s, x) && x != s.users[b].pid ==> CallEntry(s, x) != b
    requires s.users[b].pid !in Pending(s, q, role)
    ensures Pending(s, q, role) - {s.running.value} <= Pending(Move(WakeUser(s, b), 0, User), q, role)
  {
  }

  /** When the search finds no waiter, no entry of the list is marked waiting. */
  lemma NobodyFound(s: State, q: Qid, role: Role)
    requires BlockedOk(s) && q in s.queues && FirstWaiter(s, Users(s.queues[q], role)).None?
    ensures !SomeoneWaits(s, q, role)
  {
    forall b | b in Users(s.queues[q], role) && b in s.users ensures s.users[b].status != Waiting {
      assert s.users[b].status != Running ==> Blocked(s, b);
    }
  }

  /** When nobody is woken, nobody on that side waits or there is nothing to wake for. */
  lemma NoWakeCovers(s: State, role: Role)
    requires CoreInv(s) && Alive(s) && InCall(s, s.running.value) && Self(s).pc.phase == Wake
    requires NoLostWakeup(s, role) && role != NonBlock
    requires var target := Opposite(Self(s).pc.role);
             var q0 := CallQueue(s, s.running.value);
             Room(s.queues[q0], target) <= 0 || !SomeoneWaits(s, q0, target)
    ensures NoLostWakeup(Move(s, 0, User), role)
  {
    assert PcOk(s, s.running.value);
    forall q | q in s.queues ensures Covered(Move(s, 0, User), q, role) {
      assert Covered(s, q, role);
      LeavingCovers(s, q, role);
    }
  }

  lemma LeavingCovers(s: State, q: Qid, role: Role)
    requires Alive(s) && InCall(s, s.running.value) && Self(s).pc.phase == Wake && Self(s).pc.role != NonBlock
    requires role != NonBlock && q in s.queues && Covered(s, q, role)
    requires var target := Opposite(Self(s).pc.role);
             var q0 := CallQueue(s, s.running.value);
             Room(s.queues[q0], target) <= 0 || !SomeoneWaits(s, q0, target)
    ensures Covered(Move(s, 0, User), q, role)
  {
    var p, t := s.running.value, Move(s, 0, User);
    LeaverPending(s, q, role);
    RemovedOne(Pending(s, q, role), Pending(t, q, role), p);
    assert SomeoneWaits(t, q, role) ==> SomeoneWaits(s, q, role);
  }

  lemma LeaverPending(s: State, q: Qid, role: Role)
    requires Alive(s)
    ensures Pending(s, q, role) - {s.running.value} <= Pending(Move(s, 0, User), q, role)
  {
    OtherPending(s, Move(s, 0, User), q, role);
  }

  lemma WakeUpCovers(s: State, role: Role)
    requires CoreInv(s) && Alive(s) && InCall(s, s.running.value) && Self(s).pc.phase == Wake
    requires NoLostWakeup(s, role) && role != NonBlock
    ensures NoLostWakeup(WakeUpQueue(s), role)
  {
    UserIsUnparked(s);
    var r, q0 := Self(s).pc.role, CallQueue(s, s.running.value);
    var q := s.queues[q0];
    var flag := if r == Reader then WakeupFlagRecv(q) else WakeupFlagSend(q);
    var waiter := FirstWaiter(s, Users(q, Opposite(r)));
    assert PcOk(s, s.running.value);
    FlagsTestRoom(q);
    if flag && waiter.Some? {
      assert Blocked(s, waiter.value);
      WakeUserCovers(s, waiter.value, role);
    } else {
      if flag { NobodyFound(s, q0, Opposite(r)); }
      NoWakeCovers(s, role);
    }
  }

  // The other steps.

  /** A step that neither touches a call in progress nor makes room on this side. */
  ghost predicate Calm(s: State, t: State, role: Role) {
    && CallsGoOn(s, t) && NoNewWaiters(s, t)
    && (forall q {:trigger t.queues[q]} :: q in t.queues && q in s.queues ==>
        Room(t.queues[q], role) <= Room(s.queues[q], role))
    && (forall q {:trigger t.queues[q]} :: q in t.queues && q !in s.queues ==> !SomeoneWaits(t, q, role))
  }

  /** Queues and entries untouched, and calls only moving past a preemption. */
  lemma SameIpcCalm(s: State, t: State, role: Role)
    requires t.queues == s.queues && t.users == s.users
    requires forall p {:trigger t.procs[p]} {:trigger s.procs[p]} :: p in s.procs && s.procs[p].pc.Calling? ==>
               && p in t.procs && t.procs[p].fds == s.procs[p].fds
               && (t.procs[p].pc == s.procs[p].pc
                   || (s.procs[p].pc.phase == Yield && t.procs[p].pc == s.procs[p].pc.(phase := Again)))
    ensures Calm(s, t, role)
  {
  }

  lemma TrapCovers(s: State, call: Call, role: Role)
    requires Alive(s) && NoLostWakeup(s, role)
    ensures NoLostWakeup(Trap(s, call), role)
  {
    SameIpcCalm(s, Trap(s, call), role);
    FrameCovers(s, Trap(s, call), role);
  }

  lemma ResumeCovers(s: State, role: Role)
    requires Alive(s) && NoLostWakeup(s, role) && (Self(s).pc.Calling? ==> Self(s).pc.phase == Yield)
    ensures NoLostWakeup(Resume(s), role)
  {
    SameIpcCalm(s, Resume(s), role);
    FrameCovers(s, Resume(s), role);
  }

  lemma ScheduleCovers(s: State, role: Role)
    requires s.running.Some? && NoLostWakeup(s, role)
    ensures NoLostWakeup(Schedule(s), role)
  {
    WakeDueCovers(s, role);
    RotateCovers(WakeDue(s), role);
  }

  lemma WakeDueCovers(s: State, role: Role)
    requires NoLostWakeup(s, role)
    ensures NoLostWakeup(WakeDue(s), role)
  {
    SameIpcCalm(s, WakeDue(s), role);
    FrameCovers(s, WakeDue(s), role);
  }

  lemma RotateCovers(s: State, role: Role)
    requires s.running.Some? && NoLostWakeup(s, role)
    ensures NoLostWakeup(Rotate(s), role)
  {
    RotateOnlyStatus(s);
    SameIpcCalm(s, Rotate(s), role);
    FrameCovers(s, Rotate(s), role);
  }

  lemma SleepCovers(s: State, cycles: int, role: Role)
    requires Alive(s) && NoLostWakeup(s, role)
    ensures NoLostWakeup(SleepFor(s, cycles), role)
  {
    var at := s.time + cycles;
    if |s.timers| < MAX_NUM_PROCESSES {
      SleepParks(s, cycles, at);
      ParkNextCovers(s, AddTimer(s.timers, Timer(at, s.running.value)), role);
    } else {
      ReturnCovers(s, DSOS_ESLEEP, role);
    }
  }

  lemma SleepParks(s: State, cycles: int, at: int)
    requires Alive(s) && |s.timers| < MAX_NUM_PROCESSES && at == s.time + cycles
    ensures SleepFor(s, cycles) == ParkNext(s, AddTimer(s.timers, Timer(at, s.running.value)))
  {
  }

  lemma WaitCovers(s: State, pid: int, role: Role)
    requires Alive(s) && PcsOk(s) && NoLostWakeup(s, role) && !Self(s).pc.Calling?
    ensures NoLostWakeup(WaitFor(s, pid), role)
  {
    if Self(s).children == [] {
      ReturnCovers(s, DSOS_EWAIT, role);
    } else {
      var c := Awaited(s, Self(s).children, pid);
      if StatusOf(s, c) == Some(Zombie) { ReapCovers(s, c, role); } else { ParkNextCovers(s, s.timers, role); }
    }
  }

  lemma ReapCovers(s: State, c: Pid, role: Role)
    requires Alive(s) && PcsOk(s) && NoLostWakeup(s, role) && !Self(s).pc.Calling? && StatusOf(s, c) == Some(Zombie)
    ensures NoLostWakeup(Reap(s, c), role)
  {
    assert PcOk(s, c);
    SameIpcCalm(s, Reap(s, c), role);
    FrameCovers(s, Reap(s, c), role);
  }

  lemma ParkNextCovers(s: State, timers: seq<Timer>, role: Role)
    requires Alive(s) && NoLostWakeup(s, role)
    ensures NoLostWakeup(ParkNext(s, timers), role)
  {
    SameIpcCalm(s, ParkNext(s, timers), role);
    FrameCovers(s, ParkNext(s, timers), role);
  }

  lemma SpawnCovers(s: State, role: Role)
    requires Alive(s) && Placed(s) && NoLostWakeup(s, role) && !Self(s).pc.Calling?
    ensures NoLostWakeup(Spawn(s), role)
  {
    assert s.lastPid !in s.procs;
    SameIpcCalm(s, Spawn(s), role);
    FrameCovers(s, Spawn(s), role);
  }

  /** The running process, which is in no call, changes; entries may go, new ones run. */
  predicate OwnChange(s: State, t: State)
    requires Alive(s)
  {
    !Self(s).pc.Calling? && OwnCalls(s, t) && OwnEntries(s, t) && OwnRooms(s, t)
  }

  predicate OwnCalls(s: State, t: State)
    requires Alive(s)
  {
    forall p {:trigger t.procs[p]} {:trigger s.procs[p]} ::
        p in s.procs && p != s.running.value && s.procs[p].pc.Calling? ==>
      p in t.procs && t.procs[p].fds == s.procs[p].fds && t.procs[p].pc == s.procs[p].pc
  }

  predicate OwnEntries(s: State, t: State) {
    && (forall b {:trigger t.users[b]} :: b in t.users ==>
        (b in s.users && t.users[b] == s.users[b]) || t.users[b].status == Running)
    && (forall q, role, b {:trigger b in Users(t.queues[q], role)} :: q in t.queues && b in Users(t.queues[q], role) ==>
          || (q in s.queues && b in Users(s.queues[q], role))
          || (b in t.users && t.users[b].status == Running))
  }

  predicate OwnRooms(s: State, t: State) {
    forall q {:trigger t.queues[q]} :: q in s.queues && q in t.queues ==>
      |t.queues[q].messages| == |s.queues[q].messages| && t.queues[q].maxMessages == s.queues[q].maxMessages
  }

  lemma SameQueuesOwn(s: State, t: State)
    requires Alive(s) && !Self(s).pc.Calling? && t.queues == s.queues && t.users == s.users && OwnCalls(s, t)
    ensures OwnChange(s, t)
  {
  }

  /** The queues and entries of the processes inside calls survive. */
  ghost predicate CallsSurvive(s: State, t: State) {
    forall p {:trigger InCall(s, p)} :: InCall(s, p) ==>
      CallQueue(s, p) in t.queues && CallEntry(s, p) in t.users && t.users[CallEntry(s, p)] == s.users[CallEntry(s, p)]
  }

  lemma OwnChangeCalm(s: State, t: State, role: Role)
    requires Alive(s) && OwnChange(s, t) && CallsSurvive(s, t)
    ensures Calm(s, t, role)
  {
  }

  lemma OwnChangeCovers(s: State, t: State, role: Role)
    requires Alive(s) && OwnChange(s, t) && CallsSurvive(s, t) && NoLostWakeup(s, role)
    ensures NoLostWakeup(t, role)
  {
    OwnChangeCalm(s, t, role);
    FrameCovers(s, t, role);
  }

  lemma ExitCovers(s: State, value: int, role: Role)
    requires CoreInv(s) && Alive(s) && Self(s).pc.User? && Self(s).parent.Some? && Self(s).children == []
    requires NoLostWakeup(s, role)
    ensures NoLostWakeup(Exit(s, value), role)
  {
    UserIsUnparked(s);
    ChildlessZombie(s, value);
    var parent := Self(s).parent.value;
    if ParentWaits(ZombieAlone(s, value), parent, s.running.value) {
      HandOverOwn(s, value, parent);
    } else {
      ExitParkOwn(s, value);
      ExitParkSurvive(s, value);
    }
    OwnChangeCovers(s, Exit(s, value), role);
  }

  lemma HandOverOwn(s: State, value: int, parent: Pid)
    requires Alive(s) && Self(s).pc.User? && parent in s.procs
    ensures OwnChange(s, HandOver(ZombieAlone(s, value), parent))
    ensures CallsSurvive(s, HandOver(ZombieAlone(s, value), parent))
  {
    HandOverCalls(s, value, parent);
    HandOverEntries(s, value, parent);
  }

  lemma HandOverCalls(s: State, value: int, parent: Pid)
    requires Alive(s) && Self(s).pc.User? && parent in s.procs
    ensures OwnCalls(s, HandOver(ZombieAlone(s, value), parent))
  {
  }

  lemma HandOverEntries(s: State, value: int, parent: Pid)
    requires Alive(s) && parent in s.procs
    ensures OwnEntries(s, HandOver(ZombieAlone(s, value), parent))
            && OwnRooms(s, HandOver(ZombieAlone(s, value), parent))
  {
  }

  lemma ExitParkOwn(s: State, value: int)
    requires Alive(s) && Self(s).pc.User?
    ensures OwnChange(s, DispatchHead(ZombieAlone(s, value)))
  {
    DispatchOnlyStatus(ZombieAlone(s, value));
    SameQueuesOwn(s, DispatchHead(ZombieAlone(s, value)));
  }

  lemma ExitParkSurvive(s: State, value: int)
    requires Alive(s)
    ensures CallsSurvive(s, DispatchHead(ZombieAlone(s, value)))
  {
  }

  lemma RegisterCovers(s: State, fd: Fd, slot: Role, b: Block, role: Role)
    requires Alive(s) && !Self(s).pc.Calling? && fd in Self(s).fds && Self(s).fds[fd].queue in s.queues && b !in s.users
    requires NoLostWakeup(s, role)
    ensures NoLostWakeup(Register(s, fd, slot, b), role)
  {
    OwnChangeCovers(s, Register(s, fd, slot, b), role);
  }

  lemma {:induction false} RegisterAllCovers(s: State, fd: Fd, order: seq<Role>,
                                               roles: set<Role>, got: map<Role, Block>, role: Role)
    requires Alive(s) && Self(s).pc.User? && fd in Self(s).fds && Self(s).fds[fd].queue in s.queues
    requires NoDup(order)
    requires forall i :: 0 <= i < |order| && order[i] in got ==> got[order[i]] !in s.users
    requires forall a, b :: a in got && b in got && a != b ==> got[a] != got[b]
    requires NoLostWakeup(s, role)
    ensures NoLostWakeup(RegisterAll(s, fd, order, roles, got), role)
    decreases order
  {
    if order == [] {
      ReturnCovers(s, fd, role);
    } else if order[0] !in roles {
      RegisterAllCovers(s, fd, order[1..], roles, got, role);
    } else if order[0] !in got {
      ReturnCovers(s, LIST_INSERTION_ERROR, role);
    } else {
      var t := Register(s, fd, order[0], got[order[0]]);
      RegisterCovers(s, fd, order[0], got[order[0]], role);
      RegisterAllCovers(t, fd, order[1..], roles, got, role);
    }
  }

  lemma ReturnCovers(s: State, ret: int, role: Role)
    requires Alive(s) && NoLostWakeup(s, role)
    ensures NoLostWakeup(Return(s, ret), role)
  {
    SameIpcCalm(s, Return(s, ret), role);
    FrameCovers(s, Return(s, ret), role);
  }

  lemma OpenFinishCovers(s: State, got: map<Role, Block>, role: Role)
    requires Alive(s) && Self(s).pc.Opening? && Self(s).pc.fd in Self(s).fds && PoolGrants(s, Self(s).pc.roles, got)
    requires NoLostWakeup(s, role)
    ensures NoLostWakeup(OpenQueue(s, got), role)
  {
    var q := Self(s).fds[Self(s).pc.fd].queue;
    if q !in s.queues && |s.queues| >= MAX_NUM_QUEUES {
      OpenFailsCovers(s, got, role);
    } else {
      OpenGoesCovers(s, got, role);
    }
  }

  lemma OpenFailsCovers(s: State, got: map<Role, Block>, role: Role)
    requires Alive(s) && Self(s).pc.Opening? && Self(s).pc.fd in Self(s).fds && NoLostWakeup(s, role)
    requires Self(s).fds[Self(s).pc.fd].queue !in s.queues && |s.queues| >= MAX_NUM_QUEUES
    ensures NoLostWakeup(OpenQueue(s, got), role)
  {
    SameQueuesOwn(s, OpenQueue(s, got));
    OwnChangeCovers(s, OpenQueue(s, got), role);
  }

  lemma OpenGoesCovers(s: State, got: map<Role, Block>, role: Role)
    requires Alive(s) && Self(s).pc.Opening? && Self(s).pc.fd in Self(s).fds && PoolGrants(s, Self(s).pc.roles, got)
    requires Self(s).fds[Self(s).pc.fd].queue in s.queues || |s.queues| < MAX_NUM_QUEUES
    requires NoLostWakeup(s, role)
    ensures NoLostWakeup(OpenQueue(s, got), role)
  {
    var fd, roles := Self(s).pc.fd, Self(s).pc.roles;
    var q := Self(s).fds[fd].queue;
    var done := SetSelf(s, Self(s).(pc := User));
    SameQueuesOwn(s, done);
    OwnChangeCovers(s, done, role);
    var s1 := if q in s.queues then done else done.(queues := done.queues[q := NEW_QUEUE]);
    NewQueueCovers(done, s1, q, role);
    RegisterAllCovers(s1, fd, ALL_ROLES, roles, got, role);
  }

  lemma NewQueueCovers(s: State, t: State, q: Qid, role: Role)
    requires Alive(s) && Self(s).pc.User? && NoLostWakeup(s, role)
    requires t == s || (q !in s.queues && t == s.(queues := s.queues[q := NEW_QUEUE]))
    ensures NoLostWakeup(t, role)
  {
    OwnChangeCovers(s, t, role);
  }

  lemma CloseCovers(s: State, role: Role)
    requires EntriesOk(s) && PcsOk(s) && Alive(s) && Self(s).pc.Closing? && Self(s).pc.fd in Self(s).fds
    requires NoLostWakeup(s, role)
    ensures NoLostWakeup(CloseStep(s), role)
  {
    var t := CloseStep(s);
    forall p | InCall(s, p)
      ensures CallQueue(s, p) in t.queues && CallEntry(s, p) in t.users
              && t.users[CallEntry(s, p)] == s.users[CallEntry(s, p)]
    {
      CallFacts(s, p);
      CloseSpares(s, CallEntry(s, p));
    }
    CloseOwn(s);
    OwnChangeCovers(s, t, role);
  }

  lemma CloseSpares(s: State, b: Block)
    requires EntriesOk(s) && Alive(s) && Self(s).pc.Closing? && Self(s).pc.fd in Self(s).fds
    requires b in s.users && s.users[b].pid != s.running.value
    ensures b in CloseStep(s).users && CloseStep(s).users[b] == s.users[b]
  {
    var fd, k := Self(s).pc.fd, Self(s).pc.done;
    if k < |ALL_ROLES| && ALL_ROLES[k] in Self(s).fds[fd].slots {
      assert SlotOk(s, s.running.value, fd, ALL_ROLES[k]);
    }
  }

  lemma CloseOwn(s: State)
    requires Alive(s) && Self(s).pc.Closing? && Self(s).pc.fd in Self(s).fds
    ensures OwnChange(s, CloseStep(s)) && CloseStep(s).queues.Keys == s.queues.Keys
  {
    CloseOwnEntries(s);
    CloseOwnCalls(s);
  }

  lemma CloseOwnCalls(s: State)
    requires Alive(s) && Self(s).pc.Closing? && Self(s).pc.fd in Self(s).fds
    ensures OwnCalls(s, CloseStep(s))
  {
  }

  lemma CloseOwnEntries(s: State)
    requires Alive(s) && Self(s).pc.Closing? && Self(s).pc.fd in Self(s).fds
    ensures OwnEntries(s, CloseStep(s)) && OwnRooms(s, CloseStep(s)) && CloseStep(s).queues.Keys == s.queues.Keys
  {
  }

  lemma UnlinkCovers(s: State, q: Qid, role: Role)
    requires EntriesOk(s) && PcsOk(s) && Alive(s) && Self(s).pc.User? && q in s.queues
    requires NoLostWakeup(s, role)
    ensures NoLostWakeup(Unlink(s, q), role)
  {
    if Referenced(s, q) {
      ReturnCovers(s, DSOS_ERESOURCEINUSE, role);
    } else {
      var t := Unlink(s, q);
      forall p | InCall(s, p)
        ensures CallQueue(s, p) in t.queues && CallEntry(s, p) in t.users
                && t.users[CallEntry(s, p)] == s.users[CallEntry(s, p)]
      {
        CallFacts(s, p);
        assert CallQueue(s, p) != q;
        UnlinkSpares(s, q, CallEntry(s, p));
      }
      UnlinkOwn(s, q);
      OwnChangeCovers(s, t, role);
    }
  }

  lemma UnlinkSpares(s: State, q: Qid, b: Block)
    requires EntriesOk(s) && Alive(s) && q in s.queues && !Referenced(s, q)
    requires b in s.users && s.users[b].queue != q
    ensures b in Unlink(s, q).users && Unlink(s, q).users[b] == s.users[b]
  {
    assert forall r :: b !in Users(s.queues[q], r);
    assert b !in Users(s.queues[q], Reader) && b !in Users(s.queues[q], Writer) && b !in Users(s.queues[q], NonBlock);
  }

  lemma UnlinkOwn(s: State, q: Qid)
    requires Alive(s) && Self(s).pc.User? && q in s.queues && !Referenced(s, q)
    ensures OwnChange(s, Unlink(s, q))
  {
  }

  /** Raising the limit of a queue is the one change that can strand a waiting writer. */
  predicate LimitIsSafe(s: State, step: Step, role: Role)
    requires Enabled(s, step)
  {
    role == Writer && step.MaxStep? ==>
      var q := Self(s).fds[step.fd].queue;
      step.newVal <= s.queues[q].maxMessages || step.newVal > MAX_NUM_MESSAGES_PER_QUEUE || !SomeoneWaits(s, q, Writer)
  }

  lemma AttributeCovers(s: State, qid: Qid, q: Queue, role: Role)
    requires Alive(s) && Self(s).pc.User? && NoLostWakeup(s, role) && qid in s.queues
    requires SameLists(s.queues[qid], q) && |q.messages| == |s.queues[qid].messages|
    requires Room(q, role) <= Room(s.queues[qid], role) || !SomeoneWaits(s, qid, role)
    ensures NoLostWakeup(s.(queues := s.queues[qid := q]), role)
  {
    var t := s.(queues := s.queues[qid := q]);
    forall r | r in t.queues ensures Covered(t, r, role) {
      assert Covered(s, r, role);
      AttributeSame(s, qid, q, role, r);
    }
  }

  lemma AttributeSame(s: State, qid: Qid, q: Queue, role: Role, r: Qid)
    requires qid in s.queues && r in s.queues && SameLists(s.queues[qid], q)
    ensures var t := s.(queues := s.queues[qid := q]);
            (SomeoneWaits(t, r, role) <==> SomeoneWaits(s, r, role)) && Pending(s, r, role) == Pending(t, r, role)
  {
    var t := s.(queues := s.queues[qid := q]);
    assert Users(t.queues[r], role) == Users(s.queues[r], role);
  }

  lemma StepKeepsWakeups(s: State, step: Step, role: Role)
    requires CoreInv(s) && Enabled(s, step) && role != NonBlock
    requires NoLostWakeup(s, role) && LimitIsSafe(s, step, role)
    ensures NoLostWakeup(Apply(s, step), role)
  {
    if step.Tick? || step.Preempt? || step.Sleep? || step.WaitPid? || step.ExitWith? || step.SpawnChild? {
      TimedCallCovers(s, step, role);
    } else if step.CallStart? || step.TransferStep? || step.WakeStep? || step.MaxStep? || step.SizeStep? {
      QueueCallCovers(s, step, role);
    } else {
      OpenCallCovers(s, step, role);
    }
  }

  lemma TimedCallCovers(s: State, step: Step, role: Role)
    requires CoreInv(s) && Enabled(s, step) && NoLostWakeup(s, role)
    requires step.Tick? || step.Preempt? || step.Sleep? || step.WaitPid? || step.ExitWith? || step.SpawnChild?
    ensures NoLostWakeup(Apply(s, step), role)
  {
    match step
    case Tick => LaterCovers(s, role); ScheduleCovers(Later(s), role);
    case Preempt =>
      TrapCovers(s, OtherCall, role);
      ResumeCovers(Trap(s, OtherCall), role);
      ScheduleCovers(Resume(Trap(s, OtherCall)), role);
    case Sleep(cycles) => TrapCovers(s, OtherCall, role); SleepCovers(Trap(s, OtherCall), cycles, role);
    case WaitPid(pid) =>
      TrapCovers(s, Wait(pid), role);
      TrapKeeps(s, Wait(pid));
      WaitCovers(Trap(s, Wait(pid)), pid, role);
    case ExitWith(value) =>
      TrapCovers(s, OtherCall, role);
      TrapKeeps(s, OtherCall);
      ExitCovers(Trap(s, OtherCall), value, role);
    case SpawnChild => TrapCovers(s, OtherCall, role); TrapKeeps(s, OtherCall); SpawnCovers(Trap(s, OtherCall), role);
  }

  lemma LaterCovers(s: State, role: Role)
    requires NoLostWakeup(s, role)
    ensures NoLostWakeup(Later(s), role)
  {
    SameIpcCalm(s, Later(s), role);
    FrameCovers(s, Later(s), role);
  }

  lemma QueueCallCovers(s: State, step: Step, role: Role)
    requires CoreInv(s) && Enabled(s, step) && role != NonBlock
    requires NoLostWakeup(s, role) && LimitIsSafe(s, step, role)
    requires step.CallStart? || step.TransferStep? || step.WakeStep? || step.MaxStep? || step.SizeStep?
    ensures NoLostWakeup(Apply(s, step), role)
  {
    match step
    case CallStart(r, fd, msg, size) => EnterCovers(s, Self(s).(pc := Calling(r, fd, First, msg, size)), role);
    case TransferStep(grant) =>
      TrapCovers(s, OtherCall, role);
      TrapKeeps(s, OtherCall);
      TransferCovers(Trap(s, OtherCall), grant, role);
    case WakeStep => TrapCovers(s, OtherCall, role); TrapKeeps(s, OtherCall); WakeUpCovers(Trap(s, OtherCall), role);
    case MaxStep(fd, newVal) =>
      var q := Self(s).fds[fd].queue;
      if newVal <= MAX_NUM_MESSAGES_PER_QUEUE {
        AttributeCovers(s, q, s.queues[q].(maxMessages := newVal), role);
      }
    case SizeStep(fd, newVal) =>
      var q := Self(s).fds[fd].queue;
      AttributeCovers(s, q, s.queues[q].(msgSize := newVal), role);
  }

  /** The running process leaves its own code for a call. */
  lemma EnterCovers(s: State, pr: Proc, role: Role)
    requires Alive(s) && Self(s).pc.User? && NoLostWakeup(s, role)
    ensures NoLostWakeup(SetSelf(s, pr), role)
  {
    OwnChangeCovers(s, SetSelf(s, pr), role);
  }

  lemma OpenStartCovers(s: State, q: Qid, roles: set<Role>, role: Role)
    requires Alive(s) && Self(s).pc.User? && NoLostWakeup(s, role)
    ensures NoLostWakeup(OpenResource(s, q, roles), role)
  {
    OwnChangeCovers(s, OpenResource(s, q, roles), role);
  }

  lemma OpenCallCovers(s: State, step: Step, role: Role)
    requires CoreInv(s) && Enabled(s, step) && NoLostWakeup(s, role)
    requires step.OpenStart? || step.OpenFinish? || step.CloseStart? || step.CloseContinue? || step.UnlinkStep?
    ensures NoLostWakeup(Apply(s, step), role)
  {
    match step
    case OpenStart(q, roles) => TrapCovers(s, OtherCall, role); OpenStartCovers(Trap(s, OtherCall), q, roles, role);
    case OpenFinish(got) => TrapCovers(s, OtherCall, role); OpenFinishCovers(Trap(s, OtherCall), got, role);
    case CloseStart(fd) => EnterCovers(s, Self(s).(pc := Closing(fd, 0)), role);
    case CloseContinue => CloseCovers(s, role);
    case UnlinkStep(q) =>
      TrapCovers(s, OtherCall, role);
      TrapKeeps(s, OtherCall);
      UnlinkCovers(Trap(s, OtherCall), q, role);
  }
}
