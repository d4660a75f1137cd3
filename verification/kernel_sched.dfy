/** The core invariant through scheduling, sleep, wait, exit and spawn. */
module KernelSched {
  import opened Seqs
  import opened Constants
  import opened Timers
  import opened KernelModel
  import opened KernelRun
  import opened KernelInv

  /** Queues and entries are the same, and every process has the descriptors it had, or none. */
  predicate SameEntries(s: State, t: State) {
    && t.queues == s.queues && t.users == s.users
    && forall p {:trigger t.procs[p]} :: p in t.procs ==>
         (p in s.procs && t.procs[p].fds == s.procs[p].fds) || t.procs[p].fds == map[]
  }

  lemma EntriesFrame(s: State, t: State)
    requires SameEntries(s, t) && EntriesOk(s)
    ensures EntriesOk(t)
  {
    forall p, fd, role | p in t.procs && fd in t.procs[p].fds && role in t.procs[p].fds[fd].slots
      ensures SlotOk(t, p, fd, role)
    {
      assert SlotOk(s, p, fd, role);
    }
  }

  /** Every process stands where it stood, and a new zombie stands in its own code. */
  predicate SamePcs(s: State, t: State) {
    forall p {:trigger t.procs[p]} :: p in t.procs ==>
      || (p in s.procs && t.procs[p].fds == s.procs[p].fds && t.procs[p].pc == s.procs[p].pc
          && t.procs[p].lastFd == s.procs[p].lastFd
          && (t.procs[p].status == Zombie ==> s.procs[p].status == Zombie || s.procs[p].pc.User?))
      || (t.procs[p].fds == map[] && t.procs[p].pc == User)
  }

  lemma PcsFrame(s: State, t: State)
    requires SamePcs(s, t) && PcsOk(s)
    ensures PcsOk(t)
  {
    forall p | p in t.procs ensures PcOk(t, p) {
      if p in s.procs { assert PcOk(s, p); }
    }
  }

  /** Nothing but status fields differs, and nobody became a zombie. */
  predicate OnlyStatus(a: map<Pid, Proc>, b: map<Pid, Proc>) {
    && b.Keys == a.Keys
    && forall p {:trigger b[p]} {:trigger a[p]} :: p in a ==>
         b[p] == a[p].(status := b[p].status) && (b[p].status == Zombie ==> a[p].status == Zombie)
  }

  lemma SetStatusOnly(procs: map<Pid, Proc>, p: Pid, status: Status)
    requires status != Zombie
    ensures OnlyStatus(procs, SetStatus(procs, p, status))
  {
  }

  lemma OnlyStatusTrans(a: map<Pid, Proc>, b: map<Pid, Proc>, c: map<Pid, Proc>)
    requires OnlyStatus(a, b) && OnlyStatus(b, c)
    ensures OnlyStatus(a, c)
  {
  }

  lemma RotateOnlyStatus(s: State)
    requires s.running.Some?
    ensures OnlyStatus(s.procs, Rotate(s).procs)
    ensures Rotate(s) == s.(running := Rotate(s).running, ready := Rotate(s).ready, procs := Rotate(s).procs)
  {
    if s.ready != [] {
      var prev, next := s.running.value, s.ready[0];
      SetStatusOnly(s.procs, prev, Ready);
      SetStatusOnly(SetStatus(s.procs, prev, Ready), next, Running);
      OnlyStatusTrans(s.procs, SetStatus(s.procs, prev, Ready),
          SetStatus(SetStatus(s.procs, prev, Ready), next, Running));
    }
  }

  lemma StatusEntries(s: State, t: State)
    requires EntriesOk(s) && t.queues == s.queues && t.users == s.users && OnlyStatus(s.procs, t.procs)
    ensures EntriesOk(t)
  {
    EntriesFrame(s, t);
  }

  lemma StatusPcs(s: State, t: State)
    requires PcsOk(s) && OnlyStatus(s.procs, t.procs)
    ensures PcsOk(t)
  {
    PcsFrame(s, t);
  }

  // Noting a system call, or its result, in the caller's control block.

  function Note(s: State, call: Call, ret: int): State
    requires Alive(s)
  {
    SetSelf(s, Self(s).(call := call, ret := ret))
  }

  lemma NoteIpc(s: State, call: Call, ret: int)
    requires EntriesOk(s) && Alive(s)
    ensures EntriesOk(Note(s, call, ret))
  {
    EntriesFrame(s, Note(s, call, ret));
  }

  lemma NotePcs(s: State, call: Call, ret: int)
    requires PcsOk(s) && Alive(s)
    ensures PcsOk(Note(s, call, ret))
  {
    PcsFrame(s, Note(s, call, ret));
  }

  lemma NoteLists(s: State, call: Call, ret: int)
    requires Placed(s) && TimersOk(s) && StatusOk(s) && Alive(s)
    ensures Placed(Note(s, call, ret)) && TimersOk(Note(s, call, ret)) && StatusOk(Note(s, call, ret))
  {
  }

  lemma NoteCauses(s: State, call: Call, ret: int)
    requires BlockedOk(s) && CausesOk(s) && Alive(s)
    ensures BlockedOk(Note(s, call, ret)) && CausesOk(Note(s, call, ret))
  {
  }

  lemma NoteKeeps(s: State, call: Call, ret: int)
    requires CoreInv(s) && Alive(s)
    ensures CoreInv(Note(s, call, ret))
  {
    NoteIpc(s, call, ret);
    NotePcs(s, call, ret);
    NoteLists(s, call, ret);
    NoteCauses(s, call, ret);
  }

  lemma TrapKeeps(s: State, call: Call)
    requires CoreInv(s) && Alive(s)
    ensures CoreInv(Trap(s, call))
  {
    NoteKeeps(s, call, Self(s).ret);
  }

  lemma ReturnKeeps(s: State, ret: int)
    requires CoreInv(s) && Alive(s)
    ensures CoreInv(Return(s, ret))
  {
    NoteKeeps(s, Self(s).call, ret);
  }

  // Waking the sleepers whose time has come.

  lemma DueAreAsleep(s: State)
    requires TimersOk(s)
    ensures forall p {:trigger p in Due(s.timers, s.time)} :: p in Due(s.timers, s.time) ==>
              p in Pids(s.timers) && Asleep(s, p) && p !in Pids(NotDue(s.timers, s.time))
    ensures forall p {:trigger p in Pids(NotDue(s.timers, s.time))} :: p in Pids(NotDue(s.timers, s.time)) ==>
              p in Pids(s.timers) && p !in Due(s.timers, s.time)
    ensures NoDup(Due(s.timers, s.time)) && NoDup(Pids(NotDue(s.timers, s.time))) && Sorted(NotDue(s.timers, s.time))
  {
    DueSplits(s.timers, s.time);
    DueIsExact(s.timers, s.time);
  }

  lemma WakeDuePlaced(s: State)
    requires Placed(s) && TimersOk(s)
    ensures Placed(WakeDue(s))
  {
    var due := Due(s.timers, s.time);
    DueAreAsleep(s);
    forall i | 0 <= i < |due| ensures due[i] !in s.ready { assert due[i] in due; }
    NoDupConcat(due, s.ready);
  }

  lemma WakeDueTimers(s: State)
    requires TimersOk(s)
    ensures TimersOk(WakeDue(s))
  {
    DueAreAsleep(s);
  }

  lemma WakeDueStatus(s: State)
    requires StatusOk(s) && Placed(s) && TimersOk(s)
    ensures StatusOk(WakeDue(s))
  {
    DueAreAsleep(s);
  }

  lemma WakeDueIpc(s: State)
    requires EntriesOk(s)
    ensures EntriesOk(WakeDue(s))
  {
    EntriesFrame(s, WakeDue(s));
  }

  lemma WakeDuePcs(s: State)
    requires PcsOk(s)
    ensures PcsOk(WakeDue(s))
  {
    PcsFrame(s, WakeDue(s));
  }

  lemma WakeDueBlocked(s: State)
    requires BlockedOk(s) && TimersOk(s)
    ensures BlockedOk(WakeDue(s))
  {
    DueAreAsleep(s);
  }

  lemma WakeDueCauses(s: State)
    requires CausesOk(s) && TimersOk(s)
    ensures CausesOk(WakeDue(s))
  {
    DueAreAsleep(s);
    DueSplits(s.timers, s.time);
  }

  lemma WakeDueKeeps(s: State)
    requires CoreInv(s)
    ensures CoreInv(WakeDue(s))
  {
    WakeDuePlaced(s);
    WakeDueTimers(s);
    WakeDueStatus(s);
    WakeDueIpc(s);
    WakeDuePcs(s);
    WakeDueBlocked(s);
    WakeDueCauses(s);
  }

  // Rotating the ready list.

  lemma RotatePlaced(s: State)
    requires Placed(s) && Alive(s)
    requires s.running.value in s.waiting ==> s.ready == [] || |s.waiting| >= 2
    ensures Placed(Rotate(s))
  {
    if s.ready != [] {
      var prev, next, tail := s.running.value, s.ready[0], s.ready[1..];
      assert s.ready == [next] + tail;
      assert next in s.ready && next !in tail;
      assert forall p :: p in tail ==> p in s.ready;
      var t := Rotate(s);
      if prev in s.waiting {
        assert t.ready == tail;
      } else {
        assert t.ready == tail + [prev];
        NoDupConcat(tail, [prev]);
      }
    }
  }

  lemma RotateTimers(s: State)
    requires TimersOk(s) && Placed(s) && Alive(s)
    ensures TimersOk(Rotate(s))
  {
    if s.ready != [] { assert s.ready[0] in s.ready; }
  }

  lemma RotateStatus(s: State)
    requires StatusOk(s) && Placed(s) && Alive(s)
    ensures StatusOk(Rotate(s))
  {
    if s.ready != [] { assert s.ready[0] in s.ready; }
  }

  lemma RotateIpc(s: State)
    requires EntriesOk(s) && Alive(s)
    ensures EntriesOk(Rotate(s))
  {
    RotateOnlyStatus(s);
    StatusEntries(s, Rotate(s));
  }

  lemma RotatePcs(s: State)
    requires PcsOk(s) && Alive(s)
    ensures PcsOk(Rotate(s))
  {
    RotateOnlyStatus(s);
    StatusPcs(s, Rotate(s));
  }

  lemma RotateBlocked(s: State)
    requires BlockedOk(s) && Placed(s) && Alive(s)
    ensures BlockedOk(Rotate(s))
  {
    if s.ready != [] { assert s.ready[0] in s.ready; }
  }

  lemma RotateCauses(s: State)
    requires CausesOk(s) && Placed(s) && Alive(s)
    ensures CausesOk(Rotate(s))
  {
    if s.ready != [] { assert s.ready[0] in s.ready; }
  }

  lemma RotateKeeps(s: State)
    requires CoreInv(s) && Alive(s)
    requires s.running.value in s.waiting ==> s.ready == [] || |s.waiting| >= 2
    ensures CoreInv(Rotate(s))
  {
    RotatePlaced(s);
    RotateTimers(s);
    RotateStatus(s);
    RotateIpc(s);
    RotatePcs(s);
    RotateBlocked(s);
    RotateCauses(s);
  }

  // Parking the running process and dispatching the next one: sleep and wait.

  /** A process that is not inside a blocked queue call is not in the waiting list. */
  lemma UserIsUnparked(s: State)
    requires CausesOk(s) && Alive(s)
    requires Self(s).pc.Calling? ==> Self(s).pc.phase == First || Self(s).pc.phase == Wake
    ensures s.running.value !in s.waiting
  {
  }

  function ParkNext(s: State, timers: seq<Timer>): State
    requires Alive(s)
  {
    TakeNext(Park(s.(timers := timers)))
  }

  lemma HeadFacts(ready: seq<Pid>)
    requires ready != [] && NoDup(ready)
    ensures NoDup(ready[1..])
    ensures forall p {:trigger p in ready} {:trigger p in ready[1..]} :: p in ready <==>
            p == ready[0] || p in ready[1..]
    ensures ready[0] !in ready[1..]
  {
    assert ready == [ready[0]] + ready[1..];
  }

  lemma ParkNextPlaced(s: State, timers: seq<Timer>)
    requires Placed(s) && Alive(s) && s.running.value !in s.waiting
    ensures Placed(ParkNext(s, timers))
    ensures ParkNext(s, timers).waiting == s.waiting + [s.running.value]
  {
    NoDupConcat(s.waiting, [s.running.value]);
    if s.ready != [] { HeadFacts(s.ready); }
  }

  lemma ParkNextStatus(s: State, timers: seq<Timer>)
    requires StatusOk(s) && Placed(s) && Alive(s) && s.running.value !in s.waiting
    ensures StatusOk(ParkNext(s, timers))
  {
  }

  lemma ParkNextIpc(s: State, timers: seq<Timer>)
    requires EntriesOk(s) && Alive(s)
    ensures EntriesOk(ParkNext(s, timers))
  {
    EntriesFrame(s, ParkNext(s, timers));
  }

  lemma ParkNextPcs(s: State, timers: seq<Timer>)
    requires PcsOk(s) && Alive(s)
    ensures PcsOk(ParkNext(s, timers))
  {
    PcsFrame(s, ParkNext(s, timers));
  }

  lemma ParkNextBlocked(s: State, timers: seq<Timer>)
    requires BlockedOk(s) && Placed(s) && Alive(s) && s.running.value !in s.waiting
    ensures BlockedOk(ParkNext(s, timers))
  {
  }

  /** Everyone who waited still waits for the same thing, and nobody that is dispatched
      was waiting. */
  lemma ParkNextOthers(s: State, timers: seq<Timer>)
    requires Placed(s) && Alive(s) && s.running.value !in s.waiting
    ensures var t := ParkNext(s, timers);
            && (t.running.Some? ==> t.running.value in s.ready && t.running.value !in t.waiting)
            && (forall p {:trigger t.procs[p]} :: p in s.procs && p != s.running.value ==> t.procs[p] == s.procs[p])
            && (forall p {:trigger Asleep(t, p)} :: Asleep(s, p) ==> Asleep(t, p))
            && (forall p {:trigger AwaitsChild(t, p)} :: AwaitsChild(s, p) ==> AwaitsChild(t, p))
            && (forall p {:trigger OnQueue(t, p)} :: OnQueue(s, p) ==> OnQueue(t, p))
  {
    if s.ready != [] { assert s.ready[0] in s.ready; }
  }

  lemma ParkNextKeeps(s: State, timers: seq<Timer>)
    requires CoreInv(s) && Alive(s) && s.running.value !in s.waiting
    requires TimersOk(ParkNext(s, timers)) && CausesOk(ParkNext(s, timers))
    ensures CoreInv(ParkNext(s, timers))
  {
    ParkNextPlaced(s, timers);
    ParkNextStatus(s, timers);
    ParkNextIpc(s, timers);
    ParkNextPcs(s, timers);
    ParkNextBlocked(s, timers);
  }

  lemma SleepKeeps(s: State, cycles: int)
    requires CoreInv(s) && Alive(s) && Self(s).pc.User? && !Self(s).call.Wait?
    ensures CoreInv(SleepFor(s, cycles))
  {
    if |s.timers| >= MAX_NUM_PROCESSES {
      assert SleepFor(s, cycles) == Return(s, DSOS_ESLEEP);
      ReturnKeeps(s, DSOS_ESLEEP);
    } else {
      assert SleepFor(s, cycles) == ParkNext(s, AddTimer(s.timers, Timer(s.time + cycles, s.running.value)));
      SleepParkKeeps(s, Timer(s.time + cycles, s.running.value));
    }
  }

  lemma SleepParkKeeps(s: State, timer: Timer)
    requires CoreInv(s) && Alive(s) && Self(s).pc.User? && !Self(s).call.Wait? && timer.pid == s.running.value
    ensures CoreInv(ParkNext(s, AddTimer(s.timers, timer)))
  {
    UserIsUnparked(s);
    SleepTimers(s, timer);
    SleepCauses(s, timer);
    ParkNextKeeps(s, AddTimer(s.timers, timer));
  }

  lemma SleepTimers(s: State, timer: Timer)
    requires Placed(s) && TimersOk(s) && Alive(s) && s.running.value !in s.waiting
    requires Self(s).pc.User? && !Self(s).call.Wait? && timer.pid == s.running.value
    ensures TimersOk(ParkNext(s, AddTimer(s.timers, timer)))
  {
    var ts := AddTimer(s.timers, timer);
    AddKeepsOrder(s.timers, timer);
    AddTimerPids(s.timers, timer);
    ParkNextPlaced(s, ts);
    ParkNextOthers(s, ts);
  }

  lemma SleepCauses(s: State, timer: Timer)
    requires Placed(s) && CausesOk(s) && Alive(s) && s.running.value !in s.waiting
    requires timer.pid == s.running.value
    ensures CausesOk(ParkNext(s, AddTimer(s.timers, timer)))
  {
    var ts := AddTimer(s.timers, timer);
    AddTimerPids(s.timers, timer);
    ParkNextPlaced(s, ts);
    ParkNextOthers(s, ts);
  }

  lemma WaitParkCauses(s: State)
    requires Placed(s) && TimersOk(s) && CausesOk(s) && Alive(s) && s.running.value !in s.waiting
    requires Self(s).pc.User? && Self(s).call.Wait?
    ensures TimersOk(ParkNext(s, s.timers)) && CausesOk(ParkNext(s, s.timers))
    ensures AwaitsChild(ParkNext(s, s.timers), s.running.value)
  {
    ParkNextPlaced(s, s.timers);
    ParkNextOthers(s, s.timers);
  }

  lemma WaitParkKeeps(s: State)
    requires CoreInv(s) && Alive(s) && Self(s).pc.User? && Self(s).call.Wait?
    ensures CoreInv(TakeNext(Park(s)))
  {
    UserIsUnparked(s);
    assert s.(timers := s.timers) == s;
    WaitParkCauses(s);
    ParkNextKeeps(s, s.timers);
  }

  // Freeing a zombie.

  lemma ReapLists(s: State, c: Pid)
    requires Placed(s) && TimersOk(s) && StatusOk(s) && Alive(s) && c in s.zombie
    ensures Placed(Reap(s, c)) && TimersOk(Reap(s, c)) && StatusOk(Reap(s, c))
  {
  }

  lemma ReapIpc(s: State, c: Pid)
    requires EntriesOk(s) && Alive(s) && c in s.procs && c != s.running.value
    ensures EntriesOk(Reap(s, c))
  {
    EntriesFrame(s, Reap(s, c));
  }

  lemma ReapPcs(s: State, c: Pid)
    requires PcsOk(s) && Alive(s) && c in s.procs && c != s.running.value
    ensures PcsOk(Reap(s, c))
  {
    PcsFrame(s, Reap(s, c));
  }

  lemma ReapCauses(s: State, c: Pid)
    requires Placed(s) && BlockedOk(s) && CausesOk(s) && Alive(s) && c in s.zombie
    ensures BlockedOk(Reap(s, c)) && CausesOk(Reap(s, c))
  {
  }

  lemma ReapKeeps(s: State, c: Pid)
    requires CoreInv(s) && Alive(s) && c in s.zombie
    ensures CoreInv(Reap(s, c))
  {
    ReapLists(s, c);
    ReapIpc(s, c);
    ReapPcs(s, c);
    ReapCauses(s, c);
  }

  lemma WaitKeeps(s: State, pid: int)
    requires CoreInv(s) && Alive(s) && Self(s).pc.User? && Self(s).call.Wait?
    ensures CoreInv(WaitFor(s, pid))
  {
    if Self(s).children == [] {
      ReturnKeeps(s, DSOS_EWAIT);
    } else {
      var c := Awaited(s, Self(s).children, pid);
      if StatusOf(s, c) == Some(Zombie) {
        assert s.procs[c].status == Zombie;
        ReapKeeps(s, c);
      } else {
        WaitParkKeeps(s);
      }
    }
  }

  // Spawning.

  lemma SpawnLists(s: State)
    requires Placed(s) && TimersOk(s) && StatusOk(s) && Alive(s)
    ensures Placed(Spawn(s)) && TimersOk(Spawn(s)) && StatusOk(Spawn(s))
  {
    assert s.lastPid !in s.procs;
    forall i | 0 <= i < |s.ready| ensures s.ready[i] != s.lastPid { assert s.ready[i] in s.ready; }
    NoDupConcat(s.ready, [s.lastPid]);
  }

  lemma SpawnIpc(s: State)
    requires EntriesOk(s) && Alive(s)
    ensures EntriesOk(Spawn(s))
  {
    EntriesFrame(s, Spawn(s));
  }

  lemma SpawnPcs(s: State)
    requires PcsOk(s) && Alive(s)
    ensures PcsOk(Spawn(s))
  {
    PcsFrame(s, Spawn(s));
  }

  lemma SpawnCauses(s: State)
    requires Placed(s) && BlockedOk(s) && CausesOk(s) && Alive(s)
    ensures BlockedOk(Spawn(s)) && CausesOk(Spawn(s))
  {
    assert s.lastPid !in s.procs;
  }

  lemma SpawnKeeps(s: State)
    requires CoreInv(s) && Alive(s)
    ensures CoreInv(Spawn(s))
  {
    SpawnLists(s);
    SpawnIpc(s);
    SpawnPcs(s);
    SpawnCauses(s);
  }

  // Exit.

  /** A parent that exit takes for a waiting one is parked in wait, not in sleep and not on
      a queue. */
  lemma OnlyWaitersAreWoken(s: State, parent: Pid, child: Pid)
    requires StatusOk(s) && TimersOk(s) && CausesOk(s) && BlockedOk(s) && EntriesOk(s)
    requires ParentWaits(s, parent, child) && s.running == Some(child) && parent != child
    ensures AwaitsChild(s, parent)
  {
    assert parent in s.waiting;
    assert parent in Pids(s.timers) ==> Asleep(s, parent);
    if OnQueue(s, parent) { QueuedIsNotParked(s, parent); }
  }

  /** A process that blocked on a queue and was rescheduled is marked ready, not waiting. */
  lemma QueuedIsNotParked(s: State, p: Pid)
    requires BlockedOk(s) && EntriesOk(s) && OnQueue(s, p) && s.running != Some(p)
    ensures s.procs[p].status != Waiting
  {
    assert SlotOk(s, p, s.procs[p].pc.fd, s.procs[p].pc.role);
    assert Blocked(s, CallEntry(s, p));
  }

  /** With no children to hand over, becoming a zombie is only that. */
  function ZombieAlone(s: State, value: int): State
    requires Alive(s)
  {
    var p := s.running.value;
    s.(procs := s.procs[p := Self(s).(value := value, status := Zombie)],
       zombie := s.zombie + [p],
       exits := s.exits[p := value])
  }

  lemma ChildlessZombie(s: State, value: int)
    requires Alive(s) && Self(s).children == [] && !Linked(s, s.running.value)
    ensures BecomeZombie(s, value) == ZombieAlone(s, value)
  {
    var p := s.running.value;
    assert Self(s).(children := [], value := value, status := Zombie) == Self(s).(value := value, status := Zombie);
    var procs1 := s.procs[p := Self(s).(value := value, status := Zombie)];
    if 0 in procs1 {
      assert procs1[0].children + [] == procs1[0].children;
      assert procs1[0 := procs1[0]] == procs1;
    }
  }

  function DispatchHead(z: State): State {
    var n := TakeNext(z);
    if n.running.Some? then n.(procs := SetStatus(n.procs, n.running.value, Running)) else n
  }

  lemma ZombieLists(s: State, value: int)
    requires Placed(s) && TimersOk(s) && StatusOk(s) && Alive(s) && s.running.value !in s.waiting
    ensures var z := ZombieAlone(s, value).(running := None);
            Placed(z) && TimersOk(z) && StatusOk(z)
  {
    NoDupConcat(s.zombie, [s.running.value]);
  }

  lemma DispatchLists(z: State)
    requires Placed(z.(running := None)) && TimersOk(z.(running := None)) && StatusOk(z.(running := None))
    ensures Placed(DispatchHead(z)) && TimersOk(DispatchHead(z)) && StatusOk(DispatchHead(z))
  {
    if z.ready != [] { HeadFacts(z.ready); }
  }

  lemma ExitParkLists(s: State, value: int)
    requires Placed(s) && TimersOk(s) && StatusOk(s) && Alive(s) && s.running.value !in s.waiting
    ensures var t := DispatchHead(ZombieAlone(s, value));
            Placed(t) && TimersOk(t) && StatusOk(t)
  {
    ZombieLists(s, value);
    DispatchLists(ZombieAlone(s, value));
  }

  lemma ZombieIpc(s: State, value: int)
    requires EntriesOk(s) && PcsOk(s) && Alive(s) && Self(s).pc.User?
    ensures EntriesOk(ZombieAlone(s, value)) && PcsOk(ZombieAlone(s, value))
  {
    EntriesFrame(s, ZombieAlone(s, value));
    PcsFrame(s, ZombieAlone(s, value));
  }

  lemma ExitParkIpc(s: State, value: int)
    requires EntriesOk(s) && PcsOk(s) && Alive(s) && Self(s).pc.User?
    ensures EntriesOk(DispatchHead(ZombieAlone(s, value))) && PcsOk(DispatchHead(ZombieAlone(s, value)))
  {
    ZombieIpc(s, value);
    DispatchEntries(ZombieAlone(s, value));
    DispatchPcs(ZombieAlone(s, value));
  }

  lemma DispatchOnlyStatus(z: State)
    ensures OnlyStatus(z.procs, DispatchHead(z).procs)
    ensures DispatchHead(z) == z.(running := DispatchHead(z).running, ready := DispatchHead(z).ready,
            procs := DispatchHead(z).procs)
  {
    if z.ready != [] { SetStatusOnly(z.procs, z.ready[0], Running); }
  }

  lemma DispatchEntries(z: State)
    requires EntriesOk(z)
    ensures EntriesOk(DispatchHead(z))
  {
    DispatchOnlyStatus(z);
    StatusEntries(z, DispatchHead(z));
  }

  lemma DispatchPcs(z: State)
    requires PcsOk(z)
    ensures PcsOk(DispatchHead(z))
  {
    DispatchOnlyStatus(z);
    StatusPcs(z, DispatchHead(z));
  }

  lemma ExitParkCauses(s: State, value: int)
    requires Placed(s) && BlockedOk(s) && CausesOk(s) && Alive(s) && s.running.value !in s.waiting
    ensures var t := DispatchHead(ZombieAlone(s, value));
            BlockedOk(t) && CausesOk(t)
  {
    if s.ready != [] { HeadFacts(s.ready); }
  }

  lemma HandOverPlaced(s: State, value: int, parent: Pid)
    requires Placed(s) && Alive(s) && s.running.value !in s.waiting && AwaitsChild(s, parent)
    ensures Placed(HandOver(ZombieAlone(s, value), parent))
  {
    NoDupConcat(s.zombie, [s.running.value]);
  }

  lemma HandOverTimers(s: State, value: int, parent: Pid)
    requires TimersOk(s) && Alive(s) && s.running.value !in s.waiting && AwaitsChild(s, parent)
    ensures TimersOk(HandOver(ZombieAlone(s, value), parent))
  {
    DropTimersNone(s.timers, s.running.value);
  }

  lemma HandOverStatus(s: State, value: int, parent: Pid)
    requires StatusOk(s) && Placed(s) && Alive(s) && s.running.value !in s.waiting && AwaitsChild(s, parent)
    ensures StatusOk(HandOver(ZombieAlone(s, value), parent))
  {
  }

  lemma HandOverIpc(s: State, value: int, parent: Pid)
    requires EntriesOk(s) && Alive(s) && parent in s.procs && parent != s.running.value
    ensures EntriesOk(HandOver(ZombieAlone(s, value), parent))
  {
    var p := s.running.value;
    var t := HandOver(ZombieAlone(s, value), parent);
    var held := HeldBlocks(Self(s));
    forall q, role | q in t.queues
      ensures Users(t.queues[q], role) == Without(Users(s.queues[q], role), held)
    {
    }
    forall p', fd, role | p' in t.procs && fd in t.procs[p'].fds && role in t.procs[p'].fds[fd].slots
      ensures SlotOk(t, p', fd, role)
    {
      assert SlotOk(s, p', fd, role);
      var b := s.procs[p'].fds[fd].slots[role];
      forall fd1, role1 | fd1 in Self(s).fds && role1 in Self(s).fds[fd1].slots
        ensures Self(s).fds[fd1].slots[role1] != b
      {
        assert SlotOk(s, p, fd1, role1);
      }
    }
  }

  lemma HandOverPcs(s: State, value: int, parent: Pid)
    requires PcsOk(s) && Alive(s) && Self(s).pc.User? && parent in s.procs && parent != s.running.value
    ensures PcsOk(HandOver(ZombieAlone(s, value), parent))
  {
    PcsFrame(s, HandOver(ZombieAlone(s, value), parent));
  }

  lemma HandOverBlocked(s: State, value: int, parent: Pid)
    requires Placed(s) && BlockedOk(s) && Alive(s) && s.running.value !in s.waiting && AwaitsChild(s, parent)
    ensures BlockedOk(HandOver(ZombieAlone(s, value), parent))
  {
  }

  lemma HandOverCauses(s: State, value: int, parent: Pid)
    requires TimersOk(s) && CausesOk(s) && Alive(s) && s.running.value !in s.waiting && AwaitsChild(s, parent)
    ensures CausesOk(HandOver(ZombieAlone(s, value), parent))
  {
    DropTimersNone(s.timers, s.running.value);
  }

  lemma ExitKeeps(s: State, value: int)
    requires CoreInv(s) && Alive(s) && Self(s).pc.User? && Self(s).parent.Some? && Self(s).children == []
    ensures CoreInv(Exit(s, value))
  {
    UserIsUnparked(s);
    ChildlessZombie(s, value);
    var parent := Self(s).parent.value;
    var z := ZombieAlone(s, value);
    if ParentWaits(z, parent, s.running.value) {
      OnlyWaitersAreWoken(s, parent, s.running.value);
      HandOverPlaced(s, value, parent);
      HandOverTimers(s, value, parent);
      HandOverStatus(s, value, parent);
      HandOverIpc(s, value, parent);
      HandOverPcs(s, value, parent);
      HandOverBlocked(s, value, parent);
      HandOverCauses(s, value, parent);
    } else {
      ExitParkLists(s, value);
      ExitParkIpc(s, value);
      ExitParkCauses(s, value);
    }
  }
}
