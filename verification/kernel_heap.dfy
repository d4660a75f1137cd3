/** The kernel on the heap: the process lists are intrusive lists over the items of the
    process control blocks, and the timer list is the sorted one. Every system call does
    to the heap what its function in `KernelModel` does to the state. Control block contents,
    queues, user lists and messages are maps and sequences here as well, so the calls that change
    only those (open, close, attributes, unlink, the checks of send and receive) are the
    functions of the model in statement form. */
module KernelHeap {
  import opened Seqs
  import opened Constants
  import opened LinkedList
  import opened Timers
  import opened TimerHeap
  import opened Payloads
  import opened KernelModel
  import opened KernelRun
  import opened KernelInv
  import opened KernelSched
  import L = ProcessLists

  class Kernel {
    var running: Option<Pid>
    const lists: L.Lists
    const timers: TimerList
    var time: int
    var procs: map<Pid, Proc>
    var lastPid: Pid
    var queues: map<Qid, Queue>
    var users: map<Block, QueueUser>
    var reports: seq<Report>
    var exits: map<Pid, int>
    var orphans: set<Qid>
    var unlinked: set<Qid>

    /** Timer items are no control blocks. */
    ghost predicate TimersApart()
      reads lists, timers.head
    {
      && timers.head != lists.ready && timers.head != lists.waiting && timers.head != lists.zombie
      && timers.head.Nodes() !! lists.items.Values
    }

    ghost predicate Valid()
      reads this, lists, lists.ready, lists.waiting, lists.zombie
      reads lists.ready.Items, lists.waiting.Items, lists.zombie.Items, lists.items.Values
      reads timers, timers.head, timers.head.Items
    {
      TimersApart() && lists.items.Keys == procs.Keys && lists.Valid() && timers.Valid()
    }

    /** The state that the heap stands for. */
    ghost function Abs(): State
      requires timers.Valid()
      reads this, lists.ready, lists.waiting, lists.zombie, timers, timers.head, timers.head.Items
    {
      State(running, lists.Of(lists.ready), lists.Of(lists.waiting), lists.Of(lists.zombie), timers.Contents(), time,
            procs, lastPid, queues, users, reports, exits, orphans, unlinked)
    }

    /** disastrOS_start: the first process control block, in no list. */
    constructor ()
      ensures Valid() && Abs() == BOOT
    {
      running := Some(0);
      lists := new L.Lists(0);
      timers := new TimerList();
      time := 0;
      procs := map[0 := NEW_PROC.(status := Running)];
      lastPid := 1;
      queues, users, reports, exits := map[], map[], [], map[];
      orphans, unlinked := {}, {};
    }

    // One change at a time.

    /** Work on control blocks leaves the timers alone. */
    lemma OutOfReach()
      requires Valid()
      ensures forall x {:trigger x in timers.head.Items} :: x in timers.head.Items ==> x !in lists.items.Values
    {
      assert forall x {:trigger x in timers.head.Items} :: x in timers.head.Items ==> x in timers.head.Nodes();
    }

    /** The state with another content of one list. */
    ghost function With(s: State, l: ListHead, ps: seq<Pid>): State {
      if l == lists.ready then s.(ready := ps)
      else if l == lists.waiting then s.(waiting := ps)
      else s.(zombie := ps)
    }

    /** The process has a neighbour or is in no list, so that the link guard is enough. */
    ghost predicate Guarded(p: Pid)
      reads lists.ready, lists.waiting, lists.zombie
    {
      lists.Chained(p) || lists.Nowhere(p)
    }

    /** What a list holds now, when the others and the timers are as they were. */
    twostate function Relisted(new l: ListHead): Option<seq<Pid>>
      reads this, lists, lists.ready, lists.waiting, lists.zombie, l
      reads lists.ready.Items, lists.waiting.Items, lists.zombie.Items, lists.items.Values
      reads timers.head, timers.head.Items
    {
      if && lists.Valid() && lists.items == old(lists.items)
         && (l != lists.ready ==> lists.Of(lists.ready) == old(lists.Of(lists.ready)))
         && (l != lists.waiting ==> lists.Of(lists.waiting) == old(lists.Of(lists.waiting)))
         && (l != lists.zombie ==> lists.Of(lists.zombie) == old(lists.Of(lists.zombie)))
         && timers.head.Same()
      then Some(lists.Of(l))
      else None
    }

    twostate lemma RelistedIs(new l: ListHead, new ps: seq<Pid>)
      requires old(allocated(l))
      requires old(Valid()) && lists.IsList(l) && unchanged(this) && unchanged(timers) && Relisted(l) == Some(ps)
      ensures Valid() && Abs() == With(old(Abs()), l, ps)
    {
      timers.StillValid();
    }

    method RelistPut(l: ListHead, p: Pid)
      requires Valid() && lists.IsList(l) && p in procs && Guarded(p)
      modifies lists`home, l, lists.items.Values
      ensures Relisted(l) == Some(if old(lists.Chained(p)) then old(lists.Of(l)) else old(lists.Of(l)) + [p])
    {
      OutOfReach();
      assert timers.head != l;
      lists.Append(l, p);
      assert timers.head.SameHead();
      assert timers.head.Same();
    }

    /** List_insert of a process at the end of a list. */
    method Put(l: ListHead, p: Pid)
      requires Valid() && lists.IsList(l) && p in procs && Guarded(p)
      modifies lists`home, l, lists.items.Values
      ensures Valid() && lists.items == old(lists.items)
      ensures Abs() == With(old(Abs()), l, if KernelModel.Linked(old(Abs()), p) then old(lists.Of(l))
              else old(lists.Of(l)) + [p])
    {
      ghost var now := if lists.Chained(p) then lists.Of(l) else lists.Of(l) + [p];
      RelistPut(l, p);
      RelistedIs(l, now);
    }

    method RelistPutBehind(l: ListHead, prev: ListItem?, p: Pid, ghost k: nat)
      requires Valid() && lists.IsList(l) && p in procs && lists.Nowhere(p)
      requires k <= |lists.Of(l)| && prev == l.Before(k)
      modifies lists`home, l, lists.items.Values
      ensures Relisted(l) == Some(old(lists.Of(l))[..k] + [p] + old(lists.Of(l))[k..])
    {
      OutOfReach();
      assert timers.head != l;
      lists.Place(l, prev, p, k);
      assert timers.head.SameHead();
      assert timers.head.Same();
    }

    /** List_insert of a process that is in no list, behind `prev`. */
    method PutBehind(l: ListHead, prev: ListItem?, p: Pid, ghost k: nat)
      requires Valid() && lists.IsList(l) && p in procs && lists.Nowhere(p)
      requires k <= |lists.Of(l)| && prev == l.Before(k)
      modifies lists`home, l, lists.items.Values
      ensures Valid() && lists.items == old(lists.items)
      ensures Abs() == With(old(Abs()), l, old(lists.Of(l))[..k] + [p] + old(lists.Of(l))[k..])
    {
      ghost var now := lists.Of(l)[..k] + [p] + lists.Of(l)[k..];
      RelistPutBehind(l, prev, p, k);
      RelistedIs(l, now);
    }

    lemma StandsAt(l: ListHead, p: Pid, k: nat)
      requires Valid() && lists.IsList(l) && k < |lists.Of(l)| && lists.Of(l)[k] == p && p in procs
      ensures l.Before(k + 1) == lists.items[p]
    {
      lists.Listed(l, p);
    }

    method RelistTake(l: ListHead, p: Pid)
      requires Valid() && lists.IsList(l) && p in procs && p in lists.Of(l)
      modifies lists`home, l, lists.items.Values
      ensures Relisted(l) == Some(Without(old(lists.Of(l)), {p})) && lists.Nowhere(p)
    {
      OutOfReach();
      assert timers.head != l;
      ghost var now := Without(lists.Of(l), {p});
      lists.Remove(l, p);
      assert lists.Of(l) == now;
      assert timers.head.SameHead();
      assert timers.head.Same();
    }

    /** List_detach of a process. */
    method Take(l: ListHead, p: Pid)
      requires Valid() && lists.IsList(l) && p in procs && p in lists.Of(l)
      modifies lists`home, l, lists.items.Values
      ensures Valid() && lists.items == old(lists.items) && lists.Nowhere(p)
      ensures Abs() == With(old(Abs()), l, Without(old(lists.Of(l)), {p}))
    {
      ghost var now := Without(lists.Of(l), {p});
      RelistTake(l, p);
      RelistedIs(l, now);
    }

    method RelistTakeFirst(l: ListHead) returns (p: Pid)
      requires Valid() && lists.IsList(l) && lists.Of(l) != []
      modifies lists`home, l, lists.items.Values
      ensures Relisted(l) == Some(old(lists.Of(l))[1..]) && lists.Nowhere(p) && p in procs && p == old(lists.Of(l))[0]
    {
      ghost var now := lists.Of(l)[1..];
      p := PopOnly(l);
      assert lists.Of(l) == now;
    }

    /** The timer list is out of reach. */
    method PopOnly(l: ListHead) returns (p: Pid)
      requires Valid() && lists.IsList(l) && lists.Of(l) != []
      modifies lists`home, l, lists.items.Values
      ensures lists.Valid() && timers.head.Same() && lists.Nowhere(p) && p in lists.items && p == old(lists.Of(l))[0]
      ensures lists.Of(l) == old(lists.Of(l))[1..]
      ensures forall m {:trigger lists.Of(m)} :: lists.IsList(m) && m != l ==> lists.Of(m) == old(lists.Of(m))
    {
      OutOfReach();
      assert timers.head != l;
      p := lists.Pop(l);
      assert timers.head.SameHead();
    }

    /** List_detach of the first process. */
    method TakeFirst(l: ListHead) returns (p: Pid)
      requires Valid() && lists.IsList(l) && lists.Of(l) != []
      modifies lists`home, l, lists.items.Values
      ensures Valid() && lists.items == old(lists.items) && lists.Nowhere(p) && p in procs
      ensures p == old(lists.Of(l))[0] && Abs() == With(old(Abs()), l, old(lists.Of(l))[1..])
    {
      ghost var now := lists.Of(l)[1..];
      p := RelistTakeFirst(l);
      RelistedIs(l, now);
    }

    /** The process lists stand when only timers have changed. */
    twostate lemma ListsStand()
      requires old(Valid()) && unchanged(lists) && unchanged(lists.ready) && unchanged(lists.waiting)
               && unchanged(lists.zombie)
      requires forall x {:trigger x in lists.items.Values} :: x in lists.items.Values ==>
               x.prev == old(x.prev) && x.next == old(x.next)
      ensures lists.Valid()
    {
      forall p | p in lists.items
        ensures lists.items[p].prev == old(lists.items[p].prev) && lists.items[p].next == old(lists.items[p].next)
      {
        assert lists.items[p] in lists.items.Values;
      }
      lists.Undisturbed();
    }

    /** TimerList_add with a new item for a live process. */
    method AddTimer(at: int, p: Pid)
      requires Valid()
      modifies timers, timers.head, timers.head.Nodes()
      ensures Valid() && Abs() == old(Abs()).(timers := Timers.AddTimer(old(Abs()).timers, Timer(at, p)))
      ensures fresh(timers.head.Nodes() - old(timers.head.Nodes()))
    {
      var item := new ListItem(p);
      timers.Add(at, item);
      ListsStand();
    }

    /** TimerList_removeCurrent. */
    method DropTimer()
      requires Valid()
      modifies timers.head, timers.head.Nodes()
      ensures Valid() && Abs() == old(Abs()).(timers := if old(Abs()).timers == [] then [] else old(Abs()).timers[1..])
      ensures timers.head.Nodes() <= old(timers.head.Nodes())
    {
      var r := timers.RemoveCurrent();
      ListsStand();
    }

    method CancelTimers(p: Pid)
      requires Valid()
      modifies timers.head, timers.head.Nodes()
      ensures Valid() && Abs() == old(Abs()).(timers := DropTimers(old(Abs()).timers, p))
      ensures timers.head.Nodes() <= old(timers.head.Nodes())
    {
      timers.Cancel(p);
      ListsStand();
    }

    /** Fields of control blocks change. */
    method Write(now: map<Pid, Proc>)
      requires Valid() && now.Keys == procs.Keys
      modifies this`procs
      ensures Valid() && Abs() == old(Abs()).(procs := now)
    {
      procs := now;
    }

    method WriteSelf(pr: Proc)
      requires Valid() && Alive(Abs())
      modifies this`procs
      ensures Valid() && Abs() == SetSelf(old(Abs()), pr)
    {
      Write(procs[running.value := pr]);
    }

    method Dispatch(next: Option<Pid>)
      requires Valid()
      modifies this`running
      ensures Valid() && Abs() == old(Abs()).(running := next)
    {
      running := next;
    }

    method Later()
      requires Valid()
      modifies this`time
      ensures Valid() && Abs() == KernelRun.Later(old(Abs()))
    {
      time := time + 1;
    }

    method SetQueues(now: map<Qid, Queue>)
      requires Valid()
      modifies this`queues
      ensures Valid() && Abs() == old(Abs()).(queues := now)
    {
      queues := now;
    }

    method SetUsers(now: map<Block, QueueUser>)
      requires Valid()
      modifies this`users
      ensures Valid() && Abs() == old(Abs()).(users := now)
    {
      users := now;
    }

    method SetUnlinked(now: set<Qid>)
      requires Valid()
      modifies this`unlinked
      ensures Valid() && Abs() == old(Abs()).(unlinked := now)
    {
      unlinked := now;
    }

    /** An exit value is handed to a parent, and queues are left open behind. */
    method HandOut(report: Report, left: set<Qid>)
      requires Valid()
      modifies this`reports, this`orphans
      ensures Valid() && Abs() == old(Abs()).(reports := old(reports) + [report], orphans := old(orphans) + left)
    {
      reports := reports + [report];
      orphans := orphans + left;
    }

    /** PCB_alloc and PCB_free. */
    method Allocate(p: Pid, pr: Proc)
      requires Valid() && p !in procs
      modifies this`procs, this`lastPid, lists`items
      ensures Valid() && Abs() == old(Abs()).(procs := old(procs)[p := pr], lastPid := p + 1)
      ensures p in lists.items && fresh(lists.items[p]) && lists.items == old(lists.items)[p := lists.items[p]]
              && lists.Nowhere(p)
    {
      lists.Enroll(p);
      procs := procs[p := pr];
      lastPid := p + 1;
    }

    method Release(p: Pid)
      requires Valid() && p in procs && lists.Nowhere(p)
      modifies this`procs, lists`items
      ensures Valid() && Abs() == old(Abs()).(procs := old(procs) - {p})
      ensures lists.items == old(lists.items) - {p}
    {
      lists.Dismiss(p);
      procs := procs - {p};
    }

    // disastrOS_sleep.c and what wait and exit share with it.

    /** The running process goes to the end of the waiting list. */
    method Park()
      requires Valid() && Alive(Abs()) && Guarded(running.value)
      modifies this`procs, lists`home, lists.waiting, lists.items.Values
      ensures Valid() && lists.items == old(lists.items)
      ensures Abs() == KernelModel.Park(old(Abs()))
    {
      var p := running.value;
      Write(procs[p := procs[p].(status := Waiting)]);
      Put(lists.waiting, p);
    }

    /** The head of the ready list runs next, or nobody. */
    method TakeNext()
      requires Valid()
      modifies this`running, lists`home, lists.ready, lists.items.Values
      ensures Valid() && lists.items == old(lists.items)
      ensures Abs() == KernelModel.TakeNext(old(Abs()))
    {
      if lists.ready.first != null {
        var p := TakeFirst(lists.ready);
        Dispatch(Some(p));
      } else {
        Dispatch(None);
      }
    }

    method ParkAndSwitch()
      requires Valid() && Alive(Abs()) && Guarded(running.value)
      modifies this`procs, this`running, lists`home, lists.ready, lists.waiting, lists.items.Values
      ensures Valid() && lists.items == old(lists.items)
      ensures Abs() == KernelModel.TakeNext(KernelModel.Park(old(Abs())))
    {
      Park();
      TakeNext();
    }

    /** TimerList_add for the running process, which is parked until `wakeTime`. */
    method SleepUntil(wakeTime: int)
      requires Valid() && Alive(Abs()) && Guarded(running.value)
      modifies this`procs, this`running, lists`home, lists.ready, lists.waiting, lists.items.Values
      modifies timers, timers.head, timers.head.Nodes()
      ensures Valid() && lists.items == old(lists.items) && fresh(timers.head.Nodes() - old(timers.head.Nodes()))
      ensures Abs() == ParkedUntil(old(Abs()), wakeTime)
    {
      AddTimer(wakeTime, running.value);
      ParkAndSwitch();
    }

    /** internal_sleep. */
    method Sleep(cycles: int)
      requires Valid() && Alive(Abs()) && Guarded(running.value)
      modifies this`procs, this`running, lists`home, lists.ready, lists.waiting, lists.items.Values
      modifies timers, timers.head, timers.head.Nodes()
      ensures Valid() && lists.items == old(lists.items) && fresh(timers.head.Nodes() - old(timers.head.Nodes()))
      ensures Abs() == SleepFor(old(Abs()), cycles)
    {
      if timers.head.size >= MAX_NUM_PROCESSES {
        WriteSelf(procs[running.value].(ret := DSOS_ESLEEP));
      } else {
        var wakeTime := time + cycles;
        ParkedUntilIsSleep(Abs(), wakeTime, cycles);
        SleepUntil(wakeTime);
      }
    }

    // disastrOS_schedule.c

    /** A sleeper goes from the waiting list to the ready list, behind `previous`. */
    method Rouse(p: Pid, previous: ListItem?, ghost k: nat)
      requires Valid() && k <= |lists.Of(lists.ready)| && p in procs && p in lists.Of(lists.waiting)
      requires previous == lists.ready.Before(k)
      modifies this`procs, lists`home, lists.ready, lists.waiting, lists.items.Values
      ensures Valid() && lists.items == old(lists.items)
      ensures Abs() == Roused(old(Abs()), p, k)
    {
      Take(lists.waiting, p);
      Write(procs[p := procs[p].(status := Ready)]);
      PutBehind(lists.ready, previous, p, k);
    }

    /** The same, and the item of the process, behind which the next one will be put. */
    method RouseItem(p: Pid, previous: ListItem?, ghost k: nat) returns (woken: ListItem)
      requires Valid() && k <= |lists.Of(lists.ready)| && p in procs && p in lists.Of(lists.waiting)
      requires previous == lists.ready.Before(k)
      modifies this`procs, lists`home, lists.ready, lists.waiting, lists.items.Values
      ensures Valid() && lists.items == old(lists.items)
      ensures Abs() == Roused(old(Abs()), p, k)
      ensures k < |lists.Of(lists.ready)| && woken == lists.ready.Before(k + 1)
    {
      Rouse(p, previous, k);
      woken := lists.items[p];
      StandsAt(lists.ready, p, k);
    }

    lemma FirstTimer()
      requires Valid() && timers.Contents() != []
      ensures timers.head.first != null && timers.head.first.owner == Abs().timers[0].pid
    {
    }

    /** One round of the timer loop: the first timer's process is roused, behind the process
        that was woken before it. */
    method WakeFirst(previous: ListItem?, ghost k: nat) returns (woken: ListItem)
      requires Valid() && timers.Contents() != [] && k <= |lists.Of(lists.ready)|
      requires timers.Contents()[0].pid in procs && timers.Contents()[0].pid in lists.Of(lists.waiting)
      requires previous == lists.ready.Before(k)
      modifies this`procs, lists`home, lists.ready, lists.waiting, lists.items.Values, timers.head, timers.head.Nodes()
      ensures Valid() && lists.items == old(lists.items) && timers.head.Nodes() <= old(timers.head.Nodes())
      ensures Abs() == Woken(old(Abs()), k)
      ensures k < |lists.Of(lists.ready)| && woken == lists.ready.Before(k + 1)
    {
      FirstTimer();
      woken := RouseItem(timers.head.first.owner, previous, k);
      DropTimer();
    }

    /** The state that the timer loop ends in, when `k` processes have been woken and
        `previous` is the last of them. */
    ghost function Outcome(previous: ListItem?, k: nat): Option<State>
      reads this, lists, lists.ready, lists.waiting, lists.zombie, timers, timers.head
      reads lists.ready.Items, lists.waiting.Items, lists.zombie.Items, lists.items.Values, timers.head.Items
    {
      if Valid() && Sleepers(Abs()) && k <= |lists.Of(lists.ready)| && previous == lists.ready.Before(k)
      then Some(InTurn(Abs(), k))
      else None
    }

    /** The body of the timer loop. */
    method WakeNext(previous: ListItem?, ghost k: nat) returns (woken: ListItem)
      requires Outcome(previous, k).Some? && timers.Current(time) != null
      modifies this`procs, lists`home, lists.ready, lists.waiting, lists.items.Values, timers.head, timers.head.Nodes()
      ensures Outcome(woken, k + 1) == old(Outcome(previous, k))
      ensures lists.items == old(lists.items) && timers.head.Nodes() <= old(timers.head.Nodes())
      ensures |timers.head.Items| < old(|timers.head.Items|)
    {
      InTurnNext(Abs(), k);
      woken := WakeFirst(previous, k);
    }

    lemma NoneServed()
      requires Valid() && TimersOk(Abs())
      ensures Outcome(null, 0) == Some(WakeDue(Abs()))
    {
      WokenInTurn(Abs());
    }

    lemma AllServed(previous: ListItem?, k: nat)
      requires Outcome(previous, k).Some? && timers.Valid() && timers.Current(time) == null
      ensures Valid() && Outcome(previous, k) == Some(Abs())
    {
    }

    /** The timer loop of internal_schedule. */
    method WakeSleepers()
      requires Valid() && TimersOk(Abs())
      modifies this`procs, lists`home, lists.ready, lists.waiting, lists.items.Values, timers.head, timers.head.Nodes()
      ensures Valid() && lists.items == old(lists.items) && timers.head.Nodes() <= old(timers.head.Nodes())
      ensures Abs() == WakeDue(old(Abs()))
    {
      ghost var k: nat, goal := 0, Some(WakeDue(Abs()));
      var previous: ListItem? := null;
      NoneServed();
      while timers.Current(time) != null
        invariant Outcome(previous, k) == goal
        invariant lists.items == old(lists.items) && timers.head.Nodes() <= old(timers.head.Nodes())
        decreases |timers.head.Items|
      {
        previous := WakeNext(previous, k);
        k := k + 1;
      }
      AllServed(previous, k);
    }

    lemma StillGuarded(s: State)
      requires timers.Valid() && Alive(s) && s.ready != [] && Detachable(s)
      requires Abs() == s.(ready := s.ready[1..])
      ensures Guarded(running.value)
    {
    }

    /** The head of the ready list runs, the process that ran goes to the end. */
    method SwitchTo()
      requires Valid() && Alive(Abs()) && lists.Of(lists.ready) != [] && Detachable(Abs())
      modifies this`running, this`procs, lists`home, lists.ready, lists.items.Values
      ensures Valid() && lists.items == old(lists.items)
      ensures Abs() == Switched(old(Abs()))
    {
      ghost var s := Abs();
      var prev := running.value;
      var next := TakeFirst(lists.ready);
      StillGuarded(s);
      Put(lists.ready, prev);
      Mark(prev, next);
    }

    /** The process that ran is ready, the next one is running. */
    method Mark(prev: Pid, next: Pid)
      requires Valid() && prev in procs && next in procs
      modifies this`running, this`procs
      ensures Valid()
      ensures var marked := old(procs)[prev := old(procs)[prev].(status := Ready)];
              Abs() == old(Abs()).(running := Some(next), procs := marked[next := marked[next].(status := Running)])
    {
      var marked := procs[prev := procs[prev].(status := Ready)];
      procs, running := marked[next := marked[next].(status := Running)], Some(next);
    }

    method RotateReady()
      requires Valid() && Alive(Abs())
      requires lists.Of(lists.ready) != [] ==> Detachable(Abs())
      modifies this`running, this`procs, lists`home, lists.ready, lists.items.Values
      ensures Valid() && lists.items == old(lists.items)
      ensures Abs() == Rotate(old(Abs()))
    {
      if lists.ready.first != null {
        SwitchedIsRotate(Abs());
        SwitchTo();
      }
    }

    /** internal_schedule. */
    method Reschedule()
      requires Valid() && Alive(Abs()) && Placed(Abs()) && TimersOk(Abs()) && SafeSchedule(Abs())
      modifies this`running, this`procs, lists`home, lists.ready, lists.waiting, lists.items.Values, timers.head,
               timers.head.Nodes()
      ensures Valid() && lists.items == old(lists.items) && timers.head.Nodes() <= old(timers.head.Nodes())
      ensures Abs() == Schedule(old(Abs()))
    {
      SafeIsDetachable(Abs());
      WakeSleepers();
      RotateReady();
    }

    // disastrOS_wait.c

    /** The scan over the children: it stops at the first zombie, or at the given pid, and
        is left on the last child when there is none. */
    method FindChild(pid: int) returns (c: Pid)
      requires Valid() && Alive(Abs()) && Self(Abs()).children != []
      ensures Valid() && Abs() == old(Abs())
      ensures c == Awaited(Abs(), Self(Abs()).children, pid)
    {
      var children := procs[running.value].children;
      ghost var s := Abs();
      c := children[0];
      var i := 0;
      while i < |children|
        invariant 0 <= i <= |children| && Valid() && Abs() == s
        invariant Awaited(s, children, pid) == if i < |children| then Awaited(s, children[i..], pid) else c
      {
        c := children[i];
        assert children[i..][1..] == children[i + 1..];
        if pid == 0 && c in procs && procs[c].status == Zombie { return; }
        if pid != 0 && c == pid { return; }
        i := i + 1;
      }
    }

    /** The zombie `c` is detached from the list of children and from the zombie list, and
        its control block is freed. */
    method ReapChild(c: Pid)
      requires Valid() && Alive(Abs()) && c in procs && c != running.value
      requires c in lists.Of(lists.zombie)
      modifies this`procs, this`reports, this`orphans, lists`home, lists`items, lists.zombie, lists.items.Values
      ensures Valid() && lists.items == old(lists.items) - {c}
      ensures Abs() == Reap(old(Abs()), c)
    {
      var p, child := running.value, procs[c];
      WriteSelf(procs[p].(children := Without(procs[p].children, {c}), ret := c));
      Disappear(c);
      HandOut(Report(p, c, child.value, true), QueuesOf(child));
    }

    /** internal_wait. */
    method WaitChild(pid: int)
      requires Valid() && Alive(Abs()) && Guarded(running.value) && StatusOk(Abs())
      requires Self(Abs()).status != Zombie
      modifies this`running, this`procs, this`reports, this`orphans
      modifies lists`home, lists`items, lists.ready, lists.waiting, lists.zombie, lists.items.Values
      ensures Valid() && lists.items.Values <= old(lists.items.Values)
      ensures Abs() == WaitFor(old(Abs()), pid)
    {
      if procs[running.value].children == [] {
        WriteSelf(procs[running.value].(ret := DSOS_EWAIT));
      } else {
        var c := FindChild(pid);
        if c in procs && procs[c].status == Zombie {
          ReapChild(c);
        } else {
          ParkAndSwitch();
        }
      }
    }

    // disastrOS_spawn.c

    method SpawnProcess()
      requires Valid() && Alive(Abs()) && lastPid !in procs
      modifies this`procs, this`lastPid, lists`home, lists`items, lists.ready, lists.items.Values
      ensures Valid() && Abs() == Spawn(old(Abs()))
      ensures lastPid - 1 in lists.items && fresh(lists.items[lastPid - 1])
      ensures lists.items == old(lists.items)[lastPid - 1 := lists.items[lastPid - 1]]
    {
      var p, c := running.value, lastPid;
      WriteSelf(procs[p].(children := procs[p].children + [c], ret := c));
      AddReady(c, NEW_PROC.(parent := Some(p)));
    }

    /** A new control block at the end of the ready list. */
    method AddReady(c: Pid, pr: Proc)
      requires Valid() && c == lastPid && c !in procs
      modifies this`procs, this`lastPid, lists`home, lists`items, lists.ready, lists.items.Values
      ensures Valid() && Abs() == old(Abs()).(procs := old(procs)[c := pr], ready := old(Abs()).ready + [c],
              lastPid := c + 1)
      ensures c in lists.items && fresh(lists.items[c]) && lists.items == old(lists.items)[c := lists.items[c]]
    {
      Allocate(c, pr);
      Put(lists.ready, c);
    }

    // disastrOS_exit.c

    /** The children of the running process are handed to init. */
    method Reparent()
      requires Valid() && Alive(Abs())
      requires Self(Abs()).children != [] ==> 0 in procs && running.value != 0
      modifies this`procs
      ensures Valid() && Abs() == Reparented(old(Abs()))
    {
      var p := running.value;
      if procs[p].children == [] {
        NobodyToReparent(Abs());
      } else {
        var now := HandChildren(procs, p);
        Write(now);
      }
    }

    method Bury(value: int)
      requires Valid() && Alive(Abs()) && lists.Nowhere(running.value)
      requires Self(Abs()).children != [] ==> 0 in procs && running.value != 0
      modifies this`procs, this`exits, lists`home, lists.zombie, lists.items.Values
      ensures Valid() && lists.items == old(lists.items)
      ensures Abs() == BecomeZombie(old(Abs()), value)
    {
      var p := running.value;
      ZombieSteps(Abs(), value);
      Reparent();
      WriteSelf(procs[p].(value := value, status := Zombie));
      Put(lists.zombie, p);
      Note(p, value);
    }

    method Note(p: Pid, value: int)
      requires Valid()
      modifies this`exits
      ensures Valid() && Abs() == old(Abs()).(exits := old(exits)[p := value])
    {
      exits := exits[p := value];
    }

    /** The parent leaves its wait with the exit value of the running process. */
    method Notify(parent: Pid)
      requires Valid() && Alive(Abs()) && parent in procs && parent in lists.Of(lists.waiting)
               && parent != running.value
      modifies this`procs, this`reports, lists`home, lists.waiting, lists.items.Values
      ensures Valid() && lists.items == old(lists.items)
      ensures Abs() == Notified(old(Abs()), parent)
    {
      Take(lists.waiting, parent);
      Tell(parent);
    }

    /** The parent's result is the child's pid, and the child leaves its list. */
    method Tell(parent: Pid)
      requires Valid() && Alive(Abs()) && parent in procs
      modifies this`procs, this`reports
      ensures Valid() && Abs() == Told(old(Abs()), parent)
    {
      var p, pr := running.value, procs[parent];
      reports := reports + [Report(parent, p, procs[p].value, false)];
      procs := procs[parent := pr.(status := Running, children := Without(pr.children, {p}), ret := p)];
    }

    /** The timers and the queue entries of the process go. */
    method LetGo()
      requires Valid() && Alive(Abs())
      modifies this`queues, timers.head, timers.head.Nodes()
      ensures Valid() && timers.head.Nodes() <= old(timers.head.Nodes())
      ensures Abs() == LetGoOf(old(Abs()))
    {
      var p, held := running.value, HeldBlocks(procs[running.value]);
      CancelTimers(p);
      SetQueues(map q | q in queues :: DropEntries(queues[q], held));
    }

    /** What the process still has goes, and its control block with it. */
    method Vanish()
      requires Valid() && Alive(Abs()) && running.value in lists.Of(lists.zombie)
      modifies this`procs, this`queues, lists`home, lists`items, lists.zombie, lists.items.Values, timers.head,
               timers.head.Nodes()
      ensures Valid() && lists.items == old(lists.items) - {running.value}
              && timers.head.Nodes() <= old(timers.head.Nodes())
      ensures Abs() == Vanished(old(Abs()))
    {
      LetGo();
      Disappear(running.value);
    }

    /** A zombie leaves its list and its control block is freed. */
    method Disappear(p: Pid)
      requires Valid() && p in procs && p in lists.Of(lists.zombie)
      modifies this`procs, lists`home, lists`items, lists.zombie, lists.items.Values
      ensures Valid() && lists.items == old(lists.items) - {p}
      ensures Abs() == old(Abs()).(zombie := Without(old(Abs()).zombie, {p}), procs := old(procs) - {p})
    {
      Take(lists.zombie, p);
      Release(p);
    }

    method LeaveTo(parent: Pid)
      requires Valid() && Alive(Abs()) && running.value in lists.Of(lists.zombie)
      requires parent in procs && parent in lists.Of(lists.waiting) && parent != running.value
      modifies this`procs, this`queues, this`reports
      modifies lists`home, lists`items, lists.waiting, lists.zombie, lists.items.Values, timers.head,
               timers.head.Nodes()
      ensures Valid() && lists.items == old(lists.items) - {running.value}
              && timers.head.Nodes() <= old(timers.head.Nodes())
      ensures Abs() == Vanished(Notified(old(Abs()), parent))
    {
      Notify(parent);
      Vanish();
    }

    method ReportTo(parent: Pid)
      requires Valid() && Alive(Abs()) && running.value in lists.Of(lists.zombie)
      requires parent in procs && parent in lists.Of(lists.waiting) && parent != running.value
      modifies this`running, this`procs, this`queues, this`reports
      modifies lists`home, lists`items, lists.waiting, lists.zombie, lists.items.Values, timers.head,
               timers.head.Nodes()
      ensures Valid() && lists.items == old(lists.items) - {old(running.value)}
              && timers.head.Nodes() <= old(timers.head.Nodes())
      ensures Abs() == HandOver(old(Abs()), parent)
    {
      HandOverSteps(Abs(), parent);
      LeaveTo(parent);
      Dispatch(Some(parent));
    }

    /** The next ready process runs, marked as running. */
    method DispatchNext()
      requires Valid() && (lists.Of(lists.ready) != [] ==> lists.Of(lists.ready)[0] in procs)
      modifies this`running, this`procs, lists`home, lists.ready, lists.items.Values
      ensures Valid() && lists.items == old(lists.items)
      ensures Abs() == DispatchHead(old(Abs()))
    {
      TakeNext();
      if running.Some? {
        Write(procs[running.value := procs[running.value].(status := Running)]);
      }
    }

    /** internal_exit. */
    method ExitProcess(value: int)
      requires Valid() && Alive(Abs()) && StatusOk(Abs()) && Self(Abs()).parent.Some?
      requires lists.Nowhere(running.value)
      requires Self(Abs()).children != [] ==> 0 in procs && running.value != 0
      modifies this`running, this`procs, this`queues, this`reports, this`orphans, this`exits
      modifies lists`home, lists`items, lists.ready, lists.waiting, lists.zombie, lists.items.Values, timers.head,
               timers.head.Nodes()
      ensures Valid() && lists.items.Values <= old(lists.items.Values)
              && timers.head.Nodes() <= old(timers.head.Nodes())
      ensures Abs() == Exit(old(Abs()), value)
    {
      var p, parent := running.value, procs[running.value].parent.value;
      ghost var s := Abs();
      ExitSteps(s, value);
      Bury(value);
      if parent in procs && procs[parent].status == Waiting && procs[parent].call.Wait?
         && (procs[parent].call.pid == 0 || procs[parent].call.pid == p) {
        ReportTo(parent);
      } else {
        HeadIsAlive();
        DispatchNext();
      }
    }

    lemma HeadIsAlive()
      requires Valid()
      ensures lists.Of(lists.ready) != [] ==> lists.Of(lists.ready)[0] in procs
    {
      if lists.Of(lists.ready) != [] {
        assert lists.ready.Items[0] in lists.ready.Items;
      }
    }

    // disastrOS_send_msg.c, disastrOS_receive_msg.c

    /** Back to the code of dmq_send or dmq_receive. */
    method Resume(ret: int, phase: Phase)
      requires Valid() && Alive(Abs()) && Self(Abs()).pc.Calling?
      modifies this`procs
      ensures Valid() && Abs() == SetPhase(Return(old(Abs()), ret), phase)
    {
      var pr := procs[running.value];
      WriteSelf(pr.(ret := ret, pc := pr.pc.(phase := phase)));
    }

    /** Back from the preemption that follows a call without a transfer. */
    method GoOn()
      requires Valid() && Alive(Abs())
      modifies this`procs
      ensures Valid() && Abs() == KernelRun.Resume(old(Abs()))
    {
      var pr := procs[running.value];
      if pr.pc.Calling? {
        WriteSelf(pr.(pc := pr.pc.(phase := Again)));
      }
    }

    /** The entry is marked, the process is parked, and stays the running one. */
    method BlockOnEntry(entry: Block, failure: int)
      requires Valid() && Alive(Abs()) && Self(Abs()).pc.Calling? && entry in users && Guarded(running.value)
      modifies this`procs, this`users, lists`home, lists.waiting, lists.items.Values
      ensures Valid() && lists.items == old(lists.items)
      ensures Abs() == BlockedOn(old(Abs()), entry, failure)
    {
      SetUsers(users[entry := users[entry].(status := Waiting)]);
      Park();
      Resume(failure, Yield);
    }

    /** The copy loop of internal_sendMessage, into the string block from the pool. */
    method FillBlock(garbage: Bytes, msg: Bytes, len: int) returns (block: Bytes)
      requires Valid() && len <= |msg| && len <= |garbage|
      ensures Valid() && Abs() == old(Abs())
      ensures |Payload(msg, len)| <= |garbage| && block == Overwritten(garbage, Payload(msg, len))
    {
      var cells := new Byte[|garbage|](i requires 0 <= i < |garbage| => garbage[i]);
      assert cells[..] == garbage;
      CopyBytes(cells, msg, len);
      block := cells[..];
    }

    /** internal_sendMessage. */
    method Send(grant: Grant)
      requires Valid() && Alive(Abs()) && InCall(Abs(), running.value) && Guarded(running.value)
      requires Self(Abs()).pc.role == Writer && |Self(Abs()).pc.msg| == MAX_MESSAGE_SIZE && UsableGrant(grant)
      requires queues[CallQueue(Abs(), running.value)].msgSize <= MAX_MESSAGE_SIZE
      modifies this`procs, this`users, this`queues, lists`home, lists.waiting, lists.items.Values
      ensures Valid() && lists.items == old(lists.items)
      ensures |Payload(old(Self(Abs())).pc.msg,
              old(queues)[CallQueue(old(Abs()), old(running.value))].msgSize)| <= MAX_MESSAGE_SIZE
      ensures Abs() == Transfer(old(Abs()), grant)
    {
      var pr := procs[running.value];
      var qid, entry := pr.fds[pr.pc.fd].queue, pr.fds[pr.pc.fd].slots[Writer];
      var q := queues[qid];
      PayloadMeaning(pr.pc.msg, q.msgSize);
      SendSteps(Abs(), grant);
      if |q.messages| < q.maxMessages {
        if grant.None? {
          Resume(DSOS_NO_MSG_SENT, Yield);
        } else {
          var block := FillBlock(grant.value, pr.pc.msg, q.msgSize);
          SetQueues(queues[qid := q.(messages := q.messages + [Message(block, q.msgSize)],
                                     sent := q.sent + [Payload(pr.pc.msg, q.msgSize)])]);
          Resume(0, Wake);
        }
      } else {
        BlockOnEntry(entry, DSOS_NO_MSG_SENT);
      }
    }

    /** The copy loop of internal_recvMessage, into the caller's buffer. */
    method CopyOut(buffer: array<Byte>, m: Message)
      requires Valid() && m.len <= |m.block| && m.len <= buffer.Length
      modifies buffer
      ensures Valid() && Abs() == old(Abs())
      ensures |Payload(m.block, m.len)| <= buffer.Length
      ensures buffer[..] == Overwritten(old(buffer[..]), Payload(m.block, m.len))
    {
      CopyBytes(buffer, m.block, m.len);
    }

    /** internal_recvMessage. When there is a message the buffer gets what the receiver is
        recorded to have got, and nothing behind it changes. */
    method Receive(buffer: array<Byte>)
      requires Valid() && Alive(Abs()) && InCall(Abs(), running.value) && Guarded(running.value)
      requires Self(Abs()).pc.role == Reader && Self(Abs()).pc.msg == []
      requires var q := queues[CallQueue(Abs(), running.value)];
               q.messages != [] ==> q.messages[0].len <= |q.messages[0].block| && q.messages[0].len <= buffer.Length
      modifies this`procs, this`users, this`queues, lists`home, lists.waiting, lists.items.Values, buffer
      ensures Valid() && lists.items == old(lists.items)
      ensures Abs() == Transfer(old(Abs()), None)
      ensures var q := old(queues)[CallQueue(old(Abs()), old(running.value))];
              if q.messages == [] then buffer[..] == old(buffer[..])
              else
                && |Payload(q.messages[0].block, q.messages[0].len)| <= buffer.Length
                && buffer[..] == Overwritten(old(buffer[..]), Payload(q.messages[0].block, q.messages[0].len))
    {
      var pr := procs[running.value];
      var qid, entry := pr.fds[pr.pc.fd].queue, pr.fds[pr.pc.fd].slots[Reader];
      var q := queues[qid];
      ReceiveSteps(Abs());
      if q.messages != [] {
        var m := q.messages[0];
        CopyOut(buffer, m);
        SetQueues(queues[qid := q.(messages := q.messages[1..], delivered := q.delivered + [Payload(m.block, m.len)])]);
        Resume(0, Wake);
      } else {
        BlockOnEntry(entry, DSOS_NO_MSG_RECEIVED);
      }
    }

    // disastrOS_wake_queue.c

    /** The inner loop: is there a control block with this pid in the waiting list? */
    method FindParked(pid: Pid) returns (found: bool)
      requires Valid()
      ensures Valid() && Abs() == old(Abs())
      ensures found <==> pid in lists.Of(lists.waiting)
    {
      var aux := lists.waiting.first;
      ghost var k := 0;
      found := false;
      while aux != null && !found
        invariant 0 <= k <= |lists.waiting.Items| && lists.waiting.Valid()
        invariant found ==> pid in lists.Of(lists.waiting)
        invariant !found ==> aux == if k < |lists.waiting.Items| then lists.waiting.Items[k] else null
        invariant !found ==> pid !in lists.Of(lists.waiting)[..k]
        decreases |lists.waiting.Items| - k, !found
      {
        assert lists.Of(lists.waiting)[k] == aux.owner;
        if aux.owner == pid {
          found := true;
        } else {
          aux := aux.next;
          k := k + 1;
        }
      }
      assert lists.Of(lists.waiting)[..|lists.waiting.Items|] == lists.Of(lists.waiting);
    }

    /** The outer loop: the first user that is marked waiting and found there. */
    method FindUser(entries: seq<Block>) returns (r: Option<Block>)
      requires Valid()
      ensures Valid() && Abs() == old(Abs())
      ensures r == FirstWaiter(Abs(), entries)
    {
      ghost var s := Abs();
      var i := 0;
      while i < |entries|
        invariant 0 <= i <= |entries| && Valid() && Abs() == s
        invariant FirstWaiter(s, entries) == FirstWaiter(s, entries[i..])
      {
        var b := entries[i];
        assert entries[i..][1..] == entries[i + 1..];
        if b in users && users[b].status == Waiting {
          var found := FindParked(users[b].pid);
          if found { return Some(b); }
        }
        i := i + 1;
      }
      return None;
    }

    /** The user's process goes from the waiting list to the end of the ready list. */
    method MakeReady(b: Block)
      requires Valid() && b in users && users[b].pid in procs && users[b].pid in lists.Of(lists.waiting)
      modifies this`users, lists`home, lists.ready, lists.waiting, lists.items.Values
      ensures Valid() && lists.items == old(lists.items)
      ensures Abs() == WakeUser(old(Abs()), b)
    {
      var p := users[b].pid;
      SetUsers(users[b := users[b].(status := Running)]);
      Take(lists.waiting, p);
      Put(lists.ready, p);
    }

    /** internal_wakeUpQueue with the flag function and the list that the caller passes. */
    method WakeUp()
      requires Valid() && Alive(Abs()) && InCall(Abs(), running.value)
      modifies this`procs, this`users, lists`home, lists.ready, lists.waiting, lists.items.Values
      ensures Valid() && lists.items == old(lists.items)
      ensures Abs() == WakeUpQueue(old(Abs()))
    {
      var pr := procs[running.value];
      var q, role := queues[pr.fds[pr.pc.fd].queue], pr.pc.role;
      if if role == Reader then WakeupFlagRecv(q) else WakeupFlagSend(q) {
        var waiter := FindUser(Users(q, Opposite(role)));
        if waiter.Some? {
          WaiterIsAlive(users[waiter.value].pid);
          MakeReady(waiter.value);
        }
      }
      WriteSelf(procs[running.value].(ret := 0, pc := User));
    }

    lemma WaiterIsAlive(p: Pid)
      requires Valid() && p in lists.Of(lists.waiting)
      ensures p in procs
    {
      var k :| 0 <= k < |lists.waiting.Items| && lists.Of(lists.waiting)[k] == p;
      assert lists.waiting.Items[k] in lists.waiting.Items;
    }

    // disastrOS_queue.c, disastrOS_open_queue.c, and what they need of the resources: on the
    // same maps and sequences as in the model

    /** The checks at the start of dmq_receive and dmq_send. */
    method Admit(role: Role, fd: Fd, size: int) returns (code: int)
      requires Valid() && Alive(Abs())
      ensures Valid() && Abs() == old(Abs())
      ensures code == Admission(Abs(), role, fd, size)
    {
      var fds := procs[running.value].fds;
      if fd !in fds || fds[fd].queue !in queues { return INVALID_FD; }
      var q, slots := queues[fds[fd].queue], fds[fd].slots;
      if role == Reader && q.msgSize > size { return BUFFER_TOO_SMALL; }
      if role == Writer && q.msgSize < size { return MSG_TOO_BIG; }
      if role !in slots || slots[role] !in Users(q, role) { return ACTION_NOT_ALLOWED; }
      if NonBlock in slots {
        if role == Reader && |q.messages| == 0 { return EAGAIN; }
        if role != Reader && |q.messages| == q.maxMessages { return EAGAIN; }
      }
      return 0;
    }

    /** The process goes on at another place of its own code. */
    method MoveTo(pc: Pc)
      requires Valid() && Alive(Abs())
      modifies this`procs
      ensures Valid() && Abs() == SetSelf(old(Abs()), Self(old(Abs())).(pc := pc))
    {
      WriteSelf(procs[running.value].(pc := pc));
    }

    method SetResult(ret: int)
      requires Valid() && Alive(Abs())
      modifies this`procs
      ensures Valid() && Abs() == Return(old(Abs()), ret)
    {
      WriteSelf(procs[running.value].(ret := ret));
    }

    /** internal_openResource, as far as a queue needs it: a new descriptor. */
    method AddDescriptor(q: Qid, roles: set<Role>)
      requires Valid() && Alive(Abs())
      modifies this`procs
      ensures Valid() && Abs() == OpenResource(old(Abs()), q, roles)
    {
      var pr := procs[running.value];
      var fd := pr.lastFd;
      WriteSelf(pr.(lastFd := fd + 1, fds := pr.fds[fd := Handle(q, map[])], pc := Opening(fd, roles), ret := fd));
    }

    /** One section of Queue_add_pid, with a block from the pool. */
    method AddUser(fd: Fd, role: Role, b: Block)
      requires Valid() && Alive(Abs()) && fd in Self(Abs()).fds && Self(Abs()).fds[fd].queue in queues
      modifies this`procs, this`users, this`queues
      ensures Valid() && Abs() == Register(old(Abs()), fd, role, b)
    {
      var p, pr := running.value, procs[running.value];
      var h := pr.fds[fd];
      var q := queues[h.queue];
      WriteSelf(pr.(fds := pr.fds[fd := h.(slots := h.slots[role := b])]));
      SetUsers(users[b := QueueUser(p, Running, fd, h.queue, role)]);
      SetQueues(queues[h.queue := WithUsers(q, role, Users(q, role) + [b])]);
    }

    /** Queue_add_pid: the sections that the mode names, up to the first one without a block. */
    method AddUsers(fd: Fd, roles: set<Role>, got: map<Role, Block>)
      requires Valid() && Alive(Abs()) && fd in Self(Abs()).fds && Self(Abs()).fds[fd].queue in queues
      modifies this`procs, this`users, this`queues
      ensures Valid() && Abs() == RegisterAll(old(Abs()), fd, ALL_ROLES, roles, got)
    {
      ghost var s := Abs();
      var order := ALL_ROLES;
      while order != []
        invariant Valid() && Alive(Abs()) && fd in Self(Abs()).fds && Self(Abs()).fds[fd].queue in queues
        invariant RegisterAll(Abs(), fd, order, roles, got) == RegisterAll(s, fd, ALL_ROLES, roles, got)
        decreases order
      {
        var role := order[0];
        if role in roles {
          if role !in got {
            SetResult(LIST_INSERTION_ERROR);
            return;
          }
          AddUser(fd, role, got[role]);
        }
        order := order[1..];
      }
      SetResult(fd);
    }

    /** Some descriptor refers to the queue: what the list of pointers of its resource tells. */
    predicate InUse(q: Qid)
      reads this
    {
      q in orphans || exists p, fd :: p in procs && fd in procs[p].fds && procs[p].fds[fd].queue == q
    }

    lemma InUseIff(q: Qid)
      requires Valid()
      ensures InUse(q) <==> Referenced(Abs(), q)
    {
    }

    /** The descriptor goes. */
    method DropDescriptor(fd: Fd)
      requires Valid() && Alive(Abs())
      modifies this`procs
      ensures Valid() && Abs() == SetSelf(old(Abs()), Self(old(Abs())).(fds := Self(old(Abs())).fds - {fd}, pc := User))
    {
      var pr := procs[running.value];
      WriteSelf(pr.(fds := pr.fds - {fd}, pc := User));
    }

    /** The branch of internal_openQueue in which no queue could be allocated. */
    method UndoOpen(fd: Fd, q: Qid)
      requires Valid() && Alive(Abs())
      modifies this`procs
      ensures Valid() && Abs() == Undone(old(Abs()), fd, q)
    {
      DropDescriptor(fd);
      InUseIff(q);
      SetResult(if InUse(q) then DSOS_ERESOURCEINUSE else DSOS_EQUEUEOPEN);
    }

    /** internal_openQueue: the queue is created when it is opened first. */
    method OpenQueueCall(got: map<Role, Block>)
      requires Valid() && Alive(Abs()) && Self(Abs()).pc.Opening? && Self(Abs()).pc.fd in Self(Abs()).fds
      modifies this`procs, this`users, this`queues
      ensures Valid() && Abs() == OpenQueue(old(Abs()), got)
    {
      var pr := procs[running.value];
      var fd, roles := pr.pc.fd, pr.pc.roles;
      var q := pr.fds[fd].queue;
      if q !in queues && |queues| >= MAX_NUM_QUEUES {
        UndoneIsOpen(Abs(), got);
        UndoOpen(fd, q);
      } else {
        MoveTo(User);
        if q !in queues {
          SetQueues(queues[q := NEW_QUEUE]);
        }
        AddUsers(fd, roles, got);
      }
    }

    /** One detach of dmq_close, with the release of the block. */
    method CloseEntry(fd: Fd, role: Role)
      requires Valid() && Alive(Abs()) && fd in Self(Abs()).fds
      modifies this`procs, this`users, this`queues
      ensures Valid() && Abs() == CloseSlot(old(Abs()), fd, role)
    {
      var pr := procs[running.value];
      var h := pr.fds[fd];
      if role in h.slots && h.queue in queues {
        var b, q := h.slots[role], queues[h.queue];
        WriteSelf(pr.(fds := pr.fds[fd := h.(slots := h.slots - {role})]));
        SetUsers(users - {b});
        SetQueues(queues[h.queue := WithUsers(q, role, Without(Users(q, role), {b}))]);
      }
    }

    /** One step of dmq_close. */
    method CloseNext()
      requires Valid() && Alive(Abs()) && Self(Abs()).pc.Closing? && Self(Abs()).pc.fd in Self(Abs()).fds
      modifies this`procs, this`users, this`queues
      ensures Valid() && Abs() == CloseStep(old(Abs()))
    {
      var fd, k := procs[running.value].pc.fd, procs[running.value].pc.done;
      CloseForms(Abs());
      if k < |ALL_ROLES| {
        CloseEntry(fd, ALL_ROLES[k]);
        MoveTo(Closing(fd, k + 1));
      } else {
        DropDescriptor(fd);
        SetResult(0);
      }
    }

    /** The two attributes that dmq_setattr changes. */
    method SetMaxMessages(q: Qid, newVal: int) returns (ret: int)
      requires Valid() && q in queues
      modifies this`queues
      ensures Valid() && (Abs(), ret) == SetMax(old(Abs()), q, newVal)
    {
      if newVal > MAX_NUM_MESSAGES_PER_QUEUE { return INVALID_VALUE; }
      SetQueues(queues[q := queues[q].(maxMessages := newVal)]);
      return 0;
    }

    method SetMessageSize(q: Qid, newVal: int) returns (ret: int)
      requires Valid() && q in queues
      modifies this`queues
      ensures Valid() && (Abs(), ret) == SetMsgSize(old(Abs()), q, newVal)
    {
      if |queues[q].messages| > 0 { return OPERATION_NOT_AVAILABLE; }
      SetQueues(queues[q := queues[q].(msgSize := newVal)]);
      return 0;
    }

    /** dmq_unlink of a queue. */
    method UnlinkQueue(q: Qid)
      requires Valid() && Alive(Abs()) && q in queues
      modifies this`procs, this`users, this`queues, this`unlinked
      ensures Valid() && Abs() == Unlink(old(Abs()), q)
    {
      if InUse(q) {
        SetResult(DSOS_ERESOURCEINUSE);
      } else {
        var gone := Elems(queues[q].readers) + Elems(queues[q].writers) + Elems(queues[q].nonBlock);
        SetResult(0);
        SetQueues(queues - {q});
        SetUsers(users - gone);
        SetUnlinked(unlinked + {q});
      }
    }
  }

  lemma CloseForms(s: State)
    requires Alive(s) && Self(s).pc.Closing? && Self(s).pc.fd in Self(s).fds
    ensures var fd, k := Self(s).pc.fd, Self(s).pc.done;
            if k < |ALL_ROLES| then
              var c := CloseSlot(s, fd, ALL_ROLES[k]);
              Alive(c) && CloseStep(s) == SetSelf(c, Self(c).(pc := Closing(fd, k + 1)))
            else CloseStep(s) == Return(SetSelf(s, Self(s).(fds := Self(s).fds - {fd}, pc := User)), 0)
  {
  }

  function Undone(s: State, fd: Fd, q: Qid): State
    requires Alive(s)
  {
    var closed := SetSelf(s, Self(s).(fds := Self(s).fds - {fd}, pc := User));
    Return(closed, if Referenced(closed, q) then DSOS_ERESOURCEINUSE else DSOS_EQUEUEOPEN)
  }

  lemma UndoneIsOpen(s: State, got: map<Role, Block>)
    requires Alive(s) && Self(s).pc.Opening? && Self(s).pc.fd in Self(s).fds
    requires Self(s).fds[Self(s).pc.fd].queue !in s.queues && |s.queues| >= MAX_NUM_QUEUES
    ensures OpenQueue(s, got) == Undone(s, Self(s).pc.fd, Self(s).fds[Self(s).pc.fd].queue)
  {
    var done := SetSelf(s, Self(s).(pc := User));
    var fds := Self(s).fds - {Self(s).pc.fd};
    assert SetSelf(done, Self(done).(fds := fds)) == SetSelf(s, Self(s).(fds := fds, pc := User));
  }

  lemma ReceiveSteps(s: State)
    requires Alive(s) && InCall(s, s.running.value) && Self(s).pc.role == Reader && Self(s).pc.msg == []
    ensures var qid, entry := CallQueue(s, s.running.value), CallEntry(s, s.running.value);
            var q := s.queues[qid];
            Transfer(s, None) ==
              if q.messages == [] then BlockedOn(s, entry, DSOS_NO_MSG_RECEIVED)
              else SetPhase(Return(s.(queues := s.queues[qid :=
                     q.(messages := q.messages[1..],
                        delivered := q.delivered + [Payload(q.messages[0].block, q.messages[0].len)])]), 0), Wake)
  {
  }

  function BlockedOn(s: State, entry: Block, failure: int): State
    requires Alive(s) && Self(s).pc.Calling? && entry in s.users
  {
    SetPhase(Return(Park(s.(users := s.users[entry := s.users[entry].(status := Waiting)])), failure), Yield)
  }

  lemma SendSteps(s: State, grant: Grant)
    requires Alive(s) && InCall(s, s.running.value) && Self(s).pc.role == Writer && UsableGrant(grant)
    requires |Payload(Self(s).pc.msg, s.queues[CallQueue(s, s.running.value)].msgSize)| <= MAX_MESSAGE_SIZE
    ensures var qid, entry, msg := CallQueue(s, s.running.value), CallEntry(s, s.running.value), Self(s).pc.msg;
            var q := s.queues[qid];
            Transfer(s, grant) ==
              if |q.messages| >= q.maxMessages then BlockedOn(s, entry, DSOS_NO_MSG_SENT)
              else if grant.None? then SetPhase(Return(s, DSOS_NO_MSG_SENT), Yield)
              else SetPhase(Return(s.(queues := s.queues[qid :=
                     q.(messages := q.messages + [Message(Overwritten(grant.value, Payload(msg, q.msgSize)),
                         q.msgSize)],
                        sent := q.sent + [Payload(msg, q.msgSize)])]), 0), Wake)
  {
  }

  lemma ExitSteps(s: State, value: int)
    requires Alive(s) && StatusOk(s) && Self(s).parent.Some? && !Linked(s, s.running.value)
    requires Self(s).children != [] ==> 0 in s.procs && s.running.value != 0
    ensures var p, z, parent := s.running.value, BecomeZombie(s, value), Self(s).parent.value;
            && Alive(z) && p in z.zombie
            && (ParentWaits(z, parent, p) ==> parent in z.waiting && parent != p)
            && Exit(s, value) == if ParentWaits(z, parent, p) then HandOver(z, parent) else DispatchHead(z)
  {
  }

  function Told(s: State, parent: Pid): State
    requires Alive(s) && parent in s.procs
  {
    var p, pr := s.running.value, s.procs[parent];
    s.(procs := s.procs[parent := pr.(status := Running, children := Without(pr.children, {p}), ret := p)],
       reports := s.reports + [Report(parent, p, s.procs[p].value, false)])
  }

  function Notified(s: State, parent: Pid): State
    requires Alive(s) && parent in s.procs
  {
    Told(s.(waiting := Without(s.waiting, {parent})), parent)
  }

  function LetGoOf(s: State): State
    requires Alive(s)
  {
    var held := HeldBlocks(Self(s));
    s.(timers := DropTimers(s.timers, s.running.value),
       queues := map q | q in s.queues :: DropEntries(s.queues[q], held))
  }

  function Vanished(s: State): State
    requires Alive(s)
  {
    var p := s.running.value;
    LetGoOf(s).(zombie := Without(s.zombie, {p}), procs := s.procs - {p})
  }

  lemma HandOverSteps(s: State, parent: Pid)
    requires Alive(s) && parent in s.procs && parent != s.running.value
    ensures HandOver(s, parent) == Vanished(Notified(s, parent)).(running := Some(parent))
  {
  }

  lemma ZombieSteps(s: State, value: int)
    requires Alive(s) && (Self(s).children != [] ==> 0 in s.procs && s.running.value != 0)
    ensures var p, r := s.running.value, Reparented(s);
            var z := SetSelf(r, Self(r).(value := value, status := Zombie));
            BecomeZombie(s, value) == z.(zombie := if Linked(z, p) then z.zombie else z.zombie + [p],
                                            exits := z.exits[p := value])
  {
    var p, r := s.running.value, Reparented(s);
    var z := SetSelf(r, Self(r).(value := value, status := Zombie));
    assert BecomeZombie(s, value).procs == z.procs;
  }

  /** The children of the running process are children of init. */
  function Reparented(s: State): State
    requires Alive(s)
  {
    var procs1 := s.procs[s.running.value := Self(s).(children := [])];
    s.(procs := if 0 in procs1 then procs1[0 := procs1[0].(children := procs1[0].children + Self(s).children)]
        else procs1)
  }

  /** The first child leaves the list of `p` and is appended to that of init. */
  function HandFirst(procs: map<Pid, Proc>, p: Pid): map<Pid, Proc>
    requires p in procs && 0 in procs && p != 0 && procs[p].children != []
  {
    var c := procs[p].children[0];
    var detached := procs[p := procs[p].(children := procs[p].children[1..])];
    detached[0 := detached[0].(children := detached[0].children + [c])]
  }

  /** The first `k` children of `p` are children of init. */
  function Adopted(procs: map<Pid, Proc>, p: Pid, k: nat): map<Pid, Proc>
    requires p in procs && 0 in procs && p != 0 && k <= |procs[p].children|
  {
    var all := procs[p].children;
    procs[p := procs[p].(children := all[k..])][0 := procs[0].(children := procs[0].children + all[..k])]
  }

  lemma AdoptedNone(procs: map<Pid, Proc>, p: Pid)
    requires p in procs && 0 in procs && p != 0
    ensures Adopted(procs, p, 0) == procs
  {
    assert procs[p].children[0..] == procs[p].children
           && procs[0].children + procs[p].children[..0] == procs[0].children;
  }

  lemma AdoptedOneMore(procs: map<Pid, Proc>, p: Pid, k: nat)
    requires p in procs && 0 in procs && p != 0 && k <= |procs[p].children|
    requires Adopted(procs, p, k)[p].children != []
    ensures k < |procs[p].children| && HandFirst(Adopted(procs, p, k), p) == Adopted(procs, p, k + 1)
  {
    var all := procs[p].children;
    assert all[k..][0] == all[k] && all[k..][1..] == all[k + 1..];
    assert (procs[0].children + all[..k]) + [all[k]] == procs[0].children + all[..k + 1];
  }

  lemma AdoptedAll(procs: map<Pid, Proc>, p: Pid, k: nat)
    requires p in procs && 0 in procs && p != 0 && k <= |procs[p].children|
    requires Adopted(procs, p, k)[p].children == []
    ensures Adopted(procs, p, k) ==
              procs[p := procs[p].(children := [])][0 := procs[0].(children := procs[0].children + procs[p].children)]
  {
    assert procs[p].children[..k] == procs[p].children;
  }

  /** The loop of internal_exit that hands the children of `p` to init, one at a time. */
  method HandChildren(procs: map<Pid, Proc>, p: Pid) returns (now: map<Pid, Proc>)
    requires p in procs && 0 in procs && p != 0
    ensures now == procs[p := procs[p].(children := [])][0 :=
            procs[0].(children := procs[0].children + procs[p].children)]
  {
    now := procs;
    ghost var k := 0;
    AdoptedNone(procs, p);
    while now[p].children != []
      invariant p in now && 0 in now && k <= |procs[p].children|
      invariant now == Adopted(procs, p, k)
      decreases |procs[p].children| - k
    {
      AdoptedOneMore(procs, p, k);
      now := HandFirst(now, p);
      k := k + 1;
    }
    AdoptedAll(procs, p, k);
  }

  lemma NobodyToReparent(s: State)
    requires Alive(s) && Self(s).children == []
    ensures Reparented(s) == s
  {
    assert s.procs[s.running.value := Self(s).(children := [])] == s.procs;
    if 0 in s.procs {
      assert s.procs[0].children + [] == s.procs[0].children;
      assert s.procs[0 := s.procs[0].(children := s.procs[0].children + [])] == s.procs;
    }
  }

  function ParkedUntil(s: State, wakeTime: int): State
    requires Alive(s)
  {
    TakeNext(Park(s.(timers := Timers.AddTimer(s.timers, Timer(wakeTime, s.running.value)))))
  }

  lemma ParkedUntilIsSleep(s: State, wakeTime: int, cycles: int)
    requires Alive(s) && |s.timers| < MAX_NUM_PROCESSES && wakeTime == s.time + cycles
    ensures SleepFor(s, cycles) == ParkedUntil(s, wakeTime)
  {
  }

  /** A waiting process becomes the ready process at position `k`. */
  function Roused(s: State, p: Pid, k: nat): State
    requires p in s.procs && k <= |s.ready|
  {
    s.(waiting := Without(s.waiting, {p}),
       ready := s.ready[..k] + [p] + s.ready[k..],
       procs := s.procs[p := s.procs[p].(status := Ready)])
  }

  /** The first timer's process is roused and the timer goes. */
  function Woken(s: State, k: nat): State
    requires s.timers != [] && k <= |s.ready| && s.timers[0].pid in s.procs
  {
    Roused(s, s.timers[0].pid, k).(timers := s.timers[1..])
  }

  /** Every timer belongs to a process of its own that is waiting. */
  predicate Sleepers(s: State) {
    NoDup(Pids(s.timers)) && forall p {:trigger p in Pids(s.timers)} :: p in Pids(s.timers) ==>
        p in s.waiting && p in s.procs
  }

  lemma SleepersOf(s: State)
    requires TimersOk(s)
    ensures Sleepers(s)
  {
    forall p | p in Pids(s.timers) ensures p in s.waiting && p in s.procs { assert Asleep(s, p); }
  }

  lemma FirstSleeper(s: State)
    requires Sleepers(s) && s.timers != []
    ensures s.timers[0].pid in s.waiting && s.timers[0].pid in s.procs
  {
    assert Pids(s.timers)[0] in Pids(s.timers);
  }

  lemma WokenSleepers(s: State, k: nat)
    requires Sleepers(s) && s.timers != [] && k <= |s.ready| && s.timers[0].pid in s.procs
    ensures Sleepers(Woken(s, k)) && k + 1 <= |Woken(s, k).ready|
  {
    var rest := Pids(s.timers[1..]);
    assert Pids(s.timers) == [s.timers[0].pid] + rest;
    NoDupSplit(Pids(s.timers), [s.timers[0].pid], rest);
    assert forall p {:trigger p in rest} :: p in rest ==> p in Pids(s.timers) && p != s.timers[0].pid;
  }

  /** The timers that are due are served one after the other, `k` of them having been served. */
  function InTurn(s: State, k: nat): State
    requires Sleepers(s) && k <= |s.ready|
    decreases |s.timers|
  {
    if s.timers == [] || s.timers[0].at > s.time then s
    else
      FirstSleeper(s);
      WokenSleepers(s, k);
      InTurn(Woken(s, k), k + 1)
  }

  /** What the loop needs to know when a timer is due. */
  lemma InTurnNext(s: State, k: nat)
    requires Sleepers(s) && k <= |s.ready| && DueCount(s.timers, s.time) > 0
    ensures s.timers[0].pid in s.waiting && s.timers[0].pid in s.procs
    ensures Sleepers(Woken(s, k)) && k + 1 <= |Woken(s, k).ready| && InTurn(s, k) == InTurn(Woken(s, k), k + 1)
  {
    FirstSleeper(s);
    WokenSleepers(s, k);
  }

  /** The state after the first `k` timers have been served. */
  function WokenUpTo(s: State, k: nat): State
    requires k <= |s.timers|
  {
    var woken := Pids(s.timers[..k]);
    s.(waiting := Without(s.waiting, Elems(woken)),
       ready := woken + s.ready,
       timers := s.timers[k..],
       procs := WithStatus(s.procs, Elems(woken), Ready))
  }

  lemma WokenNone(s: State)
    ensures WokenUpTo(s, 0) == s
  {
    assert Pids(s.timers[..0]) == [];
    assert Elems<Pid>([]) == {};
    WithoutNone(s.waiting, {});
    assert WithStatus(s.procs, {}, Ready) == s.procs;
    assert [] + s.ready == s.ready && s.timers[0..] == s.timers;
  }

  lemma WokenAll(s: State)
    ensures WokenUpTo(s, DueCount(s.timers, s.time)) == WakeDue(s)
  {
  }

  lemma WokenOneMore(s: State, k: nat)
    requires TimersOk(s) && k < |s.timers|
    ensures WokenUpTo(s, k).timers[0].pid in WokenUpTo(s, k).procs
    ensures WokenUpTo(s, k).timers[0].pid in WokenUpTo(s, k).waiting
    ensures WokenUpTo(s, k + 1) == Woken(WokenUpTo(s, k), k)
  {
    var p := s.timers[k].pid;
    assert Asleep(s, p) by { assert Pids(s.timers)[k] in Pids(s.timers); }
    var a, b := Pids(s.timers[..k]), Pids(s.timers[..k + 1]);
    assert b == a + [p];
    forall i | 0 <= i < k ensures a[i] != p {
      assert a[i] == Pids(s.timers)[i] && p == Pids(s.timers)[k];
    }
    assert Elems(b) == Elems(a) + {p};
    WithoutTwice(s.waiting, Elems(a), {p});
    assert WithStatus(s.procs, Elems(b), Ready) ==
           WithStatus(s.procs, Elems(a), Ready)[p := s.procs[p].(status := Ready)];
    assert b + s.ready == (a + s.ready)[..k] + [p] + (a + s.ready)[k..];
  }

  /** One after the other is all at once. */
  lemma WokenInTurn(s: State)
    requires TimersOk(s)
    ensures Sleepers(s) && InTurn(s, 0) == WakeDue(s)
  {
    SleepersOf(s);
    WokenNone(s);
    InTurnFrom(s, 0);
  }

  lemma {:induction false} InTurnFrom(s: State, k: nat)
    requires TimersOk(s) && k <= DueCount(s.timers, s.time)
    requires Sleepers(WokenUpTo(s, k))
    ensures k <= |WokenUpTo(s, k).ready| && InTurn(WokenUpTo(s, k), k) == WakeDue(s)
    decreases |s.timers| - k
  {
    if k < DueCount(s.timers, s.time) {
      NextInTurn(s, k);
      InTurnFrom(s, k + 1);
    } else {
      LastInTurn(s);
    }
  }

  lemma NextInTurn(s: State, k: nat)
    requires TimersOk(s) && k < DueCount(s.timers, s.time) && Sleepers(WokenUpTo(s, k))
    ensures k <= |WokenUpTo(s, k).ready| && Sleepers(WokenUpTo(s, k + 1)) && k + 1 <= |WokenUpTo(s, k + 1).ready|
    ensures InTurn(WokenUpTo(s, k), k) == InTurn(WokenUpTo(s, k + 1), k + 1)
  {
    WokenOneMore(s, k);
    StillDue(s, k);
    InTurnNext(WokenUpTo(s, k), k);
  }

  lemma StillDue(s: State, k: nat)
    requires TimersOk(s) && k < DueCount(s.timers, s.time)
    ensures k <= |WokenUpTo(s, k).ready| && DueCount(WokenUpTo(s, k).timers, WokenUpTo(s, k).time) > 0
  {
    DueIsExact(s.timers, s.time);
  }

  lemma LastInTurn(s: State)
    requires TimersOk(s) && Sleepers(WokenUpTo(s, DueCount(s.timers, s.time)))
    ensures var k := DueCount(s.timers, s.time);
            k <= |WokenUpTo(s, k).ready| && InTurn(WokenUpTo(s, k), k) == WakeDue(s)
  {
    WokenAll(s);
  }

  /** Once the head of the ready list is taken, the link guard decides rightly. */
  predicate Detachable(s: State)
    requires Alive(s) && s.ready != []
  {
    && NoDup(s.ready) && s.ready[0] in s.procs
    && s.running.value !in s.ready && s.running.value !in s.zombie
    && (s.running.value in s.waiting ==> |s.waiting| >= 2)
  }

  lemma SafeIsDetachable(s: State)
    requires Placed(s) && TimersOk(s) && Alive(s) && SafeSchedule(s)
    ensures WakeDue(s).ready != [] ==> Detachable(WakeDue(s))
    ensures Alive(WakeDue(s))
  {
    WakeDuePlaced(s);
    var w := WakeDue(s);
    if w.ready != [] { assert w.ready[0] in w.ready; }
  }

  function Switched(s: State): State
    requires Alive(s) && s.ready != [] && s.ready[0] in s.procs
  {
    var prev, next := s.running.value, s.ready[0];
    var popped := s.(ready := s.ready[1..]);
    var procs1 := s.procs[prev := s.procs[prev].(status := Ready)];
    s.(ready := if Linked(popped, prev) then popped.ready else popped.ready + [prev],
       running := Some(next),
       procs := procs1[next := procs1[next].(status := Running)])
  }

  lemma SwitchedIsRotate(s: State)
    requires Alive(s) && s.ready != [] && s.ready[0] in s.procs
    ensures Switched(s) == Rotate(s)
  {
    var prev, next := s.running.value, s.ready[0];
  }
}
