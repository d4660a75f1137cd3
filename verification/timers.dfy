/** The sorted timer list of disastrOS_timer.c. */
module Timers {
  import opened Seqs
  import opened Constants

  datatype Timer = Timer(at: int, pid: Pid)

  predicate Sorted(ts: seq<Timer>) {
    forall i, j :: 0 <= i < j < |ts| ==> ts[i].at <= ts[j].at
  }

  /** How many timers stand before the first one that is strictly later than `t`. */
  function AddPosition(ts: seq<Timer>, t: Timer): (k: nat)
    ensures k <= |ts|
    ensures forall i :: 0 <= i < k ==> ts[i].at <= t.at
    ensures k < |ts| ==> t.at < ts[k].at
  {
    if ts == [] || t.at < ts[0].at then 0
    else
      var rest := AddPosition(ts[1..], t);
      assert forall i :: 1 <= i < 1 + rest ==> ts[i] == ts[1..][i - 1];
      1 + rest
  }

  /** The list with `t` placed there. */
  function AddTimer(ts: seq<Timer>, t: Timer): (r: seq<Timer>)
    ensures |r| == |ts| + 1
  {
    var k := AddPosition(ts, t);
    ts[..k] + [t] + ts[k..]
  }

  /** `r` is the list with `t` behind all timers that are not later, and before all that are. */
  predicate StandsBehind(ts: seq<Timer>, t: Timer, r: seq<Timer>, k: nat) {
    && k <= |ts| && r == ts[..k] + [t] + ts[k..]
    && (forall i :: 0 <= i < k ==> ts[i].at <= t.at) && forall i :: k <= i < |ts| ==> t.at < ts[i].at
  }

  /** Adding keeps a sorted list sorted; a timer lands behind all those of the same time, so
      ties keep their order of arrival. */
  lemma AddKeepsOrder(ts: seq<Timer>, t: Timer)
    requires Sorted(ts)
    ensures Sorted(AddTimer(ts, t))
    ensures forall i :: 0 <= i < |ts| ==> (i < AddPosition(ts, t) <==> ts[i].at <= t.at)
    ensures exists k :: StandsBehind(ts, t, AddTimer(ts, t), k)
  {
    assert StandsBehind(ts, t, AddTimer(ts, t), AddPosition(ts, t));
  }

  /** How many timers at the front are due. */
  function DueCount(ts: seq<Timer>, now: int): (k: nat)
    ensures k <= |ts|
    ensures forall i :: 0 <= i < k ==> ts[i].at <= now
    ensures k < |ts| ==> ts[k].at > now
  {
    if ts != [] && now >= ts[0].at then
      var rest := DueCount(ts[1..], now);
      assert forall i :: 1 <= i < 1 + rest ==> ts[i] == ts[1..][i - 1];
      1 + rest
    else 0
  }

  /** The processes the timers belong to, in list order. */
  function Pids(ts: seq<Timer>): (r: seq<Pid>)
    ensures |r| == |ts|
    ensures forall i :: 0 <= i < |ts| ==> r[i] == ts[i].pid
  {
    seq(|ts|, i requires 0 <= i < |ts| => ts[i].pid)
  }

  function Due(ts: seq<Timer>, now: int): seq<Pid> {
    Pids(ts[..DueCount(ts, now)])
  }

  function NotDue(ts: seq<Timer>, now: int): seq<Timer> {
    ts[DueCount(ts, now)..]
  }

  /** In a sorted list the due timers are exactly those at the front. */
  lemma DueIsExact(ts: seq<Timer>, now: int)
    requires Sorted(ts)
    ensures forall i :: 0 <= i < |ts| ==> (i < DueCount(ts, now) <==> ts[i].at <= now)
    ensures forall t :: t in NotDue(ts, now) <==> t in ts && t.at > now
    ensures Sorted(NotDue(ts, now))
  {
    var k := DueCount(ts, now);
    var rest := ts[k..];
    assert forall j :: 0 <= j < |rest| ==> rest[j] == ts[k + j];
    forall i | k <= i < |ts| ensures ts[i].at > now { assert ts[k].at <= ts[i].at; }
    forall t | t in ts && t.at > now ensures t in rest {
      var i :| 0 <= i < |ts| && ts[i] == t;
      assert rest[i - k] == t;
    }
  }

  /** The process has a timer whose time has come. */
  predicate Overdue(ts: seq<Timer>, now: int, p: Pid) {
    exists t :: t in ts && t.pid == p && t.at <= now
  }

  lemma DueIffOverdue(ts: seq<Timer>, now: int, p: Pid)
    requires Sorted(ts)
    ensures p in Due(ts, now) <==> Overdue(ts, now, p)
  {
    DueIsExact(ts, now);
    var due := Due(ts, now);
    if p in due {
      var i :| 0 <= i < |due| && due[i] == p;
      assert ts[i] in ts && ts[i].pid == p;
    }
    if Overdue(ts, now, p) {
      var t :| t in ts && t.pid == p && t.at <= now;
      var i :| 0 <= i < |ts| && ts[i] == t;
      assert due[i] == p;
    }
  }

  /** The sleepers are those that are due, followed by the others. */
  lemma DueSplits(ts: seq<Timer>, now: int)
    requires NoDup(Pids(ts))
    ensures Pids(ts) == Due(ts, now) + Pids(NotDue(ts, now))
    ensures NoDup(Due(ts, now)) && NoDup(Pids(NotDue(ts, now)))
    ensures forall p {:trigger p in Due(ts, now)} :: p in Due(ts, now) ==> p in Pids(ts) && p !in Pids(NotDue(ts, now))
    ensures forall p {:trigger p in Pids(NotDue(ts, now))} :: p in Pids(NotDue(ts, now)) ==> p in Pids(ts)
  {
    NoDupSplit(Pids(ts), Due(ts, now), Pids(NotDue(ts, now)));
  }

  /** The list without the timers of process `p`. */
  function DropTimers(ts: seq<Timer>, p: Pid): (r: seq<Timer>)
    ensures |r| <= |ts|
  {
    if ts == [] then []
    else if ts[0].pid == p then DropTimers(ts[1..], p)
    else [ts[0]] + DropTimers(ts[1..], p)
  }

  /** A process without timers loses none. */
  lemma {:induction false} DropTimersNone(ts: seq<Timer>, p: Pid)
    requires p !in Pids(ts)
    ensures DropTimers(ts, p) == ts
  {
    if ts != [] {
      assert Pids(ts)[0] == ts[0].pid;
      forall i | 0 <= i < |ts[1..]| ensures Pids(ts[1..])[i] != p { assert Pids(ts)[i + 1] == Pids(ts[1..])[i]; }
      DropTimersNone(ts[1..], p);
    }
  }

  /** Exactly the timers of the process go, and the others stay in order. */
  lemma {:induction false} DropTimersExact(ts: seq<Timer>, p: Pid)
    ensures forall t {:trigger t in DropTimers(ts, p)} :: t in DropTimers(ts, p) <==> t in ts && t.pid != p
    ensures Sorted(ts) ==> Sorted(DropTimers(ts, p))
  {
    if ts != [] {
      DropTimersExact(ts[1..], p);
      if ts[0].pid != p && Sorted(ts) { SortedFront(ts, DropTimers(ts[1..], p)); }
    }
  }

  lemma SortedFront(ts: seq<Timer>, rest: seq<Timer>)
    requires ts != [] && Sorted(ts) && Sorted(rest) && forall t {:trigger t in rest} :: t in rest ==> t in ts[1..]
    ensures Sorted([ts[0]] + rest)
  {
    forall i | 0 <= i < |rest| ensures ts[0].at <= rest[i].at { assert rest[i] in rest; }
  }

  /** Their processes stay in order as well. */
  lemma {:induction false} DropTimersPids(ts: seq<Timer>, p: Pid)
    ensures Pids(DropTimers(ts, p)) == Without(Pids(ts), {p})
  {
    if ts != [] {
      DropTimersPids(ts[1..], p);
      assert Pids(ts) == [ts[0].pid] + Pids(ts[1..]);
      assert Pids(ts)[1..] == Pids(ts[1..]);
      assert Pids([ts[0]] + DropTimers(ts[1..], p)) == [ts[0].pid] + Pids(DropTimers(ts[1..], p));
    }
  }

  /** The timers of `pid` are gone from position `k` on. */
  function DropFrom(ts: seq<Timer>, k: nat, pid: Pid): seq<Timer>
    requires k <= |ts|
  {
    ts[..k] + DropTimers(ts[k..], pid)
  }

  lemma DropFromNone(ts: seq<Timer>, pid: Pid)
    ensures DropFrom(ts, 0, pid) == DropTimers(ts, pid)
  {
    assert ts[0..] == ts && ts[..0] == [];
  }

  lemma DropFromAll(ts: seq<Timer>, pid: Pid)
    ensures DropFrom(ts, |ts|, pid) == ts
  {
  }

  lemma DropFromNext(ts: seq<Timer>, k: nat, pid: Pid)
    requires k < |ts|
    ensures ts[k].pid == pid ==> DropFrom(ts[..k] + ts[k + 1..], k, pid) == DropFrom(ts, k, pid)
    ensures ts[k].pid != pid ==> DropFrom(ts, k + 1, pid) == DropFrom(ts, k, pid)
  {
    var front, t, rest := ts[..k], ts[k], ts[k + 1..];
    DropHead(t, rest, pid);
    assert ts == front + ([t] + rest) && ts == (front + [t]) + rest;
    DropFromSplit(ts, front, [t] + rest, pid);
    DropFromSplit(front + rest, front, rest, pid);
    DropFromSplit(ts, front + [t], rest, pid);
  }

  lemma DropFromSplit(ts: seq<Timer>, front: seq<Timer>, back: seq<Timer>, pid: Pid)
    requires ts == front + back
    ensures DropFrom(ts, |front|, pid) == front + DropTimers(back, pid)
  {
    assert ts[..|front|] == front && ts[|front|..] == back;
  }

  lemma DropHead(t: Timer, rest: seq<Timer>, pid: Pid)
    ensures DropTimers([t] + rest, pid) == if t.pid == pid then DropTimers(rest, pid) else [t] + DropTimers(rest, pid)
  {
    assert ([t] + rest)[1..] == rest;
  }

  /** The processes with a timer after an insertion. */
  lemma AddTimerPids(ts: seq<Timer>, t: Timer)
    ensures forall p :: p in Pids(AddTimer(ts, t)) <==> p in Pids(ts) || p == t.pid
    ensures NoDup(Pids(ts)) && t.pid !in Pids(ts) ==> NoDup(Pids(AddTimer(ts, t)))
  {
    var k := AddPosition(ts, t);
    var a, b := Pids(ts), Pids(AddTimer(ts, t));
    assert b == a[..k] + [t.pid] + a[k..];
    assert a == a[..k] + a[k..];
    if NoDup(a) && t.pid !in a {
      NoDupInserted(a, k, t.pid);
    }
  }
}

/** The same list on real list items. */
module TimerHeap {
  import opened Seqs
  import opened Constants
  import opened LinkedList
  import opened Timers

  /** The timers that a sequence of timer items stands for; an item is owned by the
      process that sleeps on it. */
  ghost function TimersOf(items: seq<ListItem>, at: map<ListItem, int>): (ts: seq<Timer>)
    requires forall i :: 0 <= i < |items| ==> items[i] in at
    ensures |ts| == |items|
    ensures forall i :: 0 <= i < |items| ==> ts[i] == Timer(at[items[i]], items[i].owner)
  {
    seq(|items|, i requires 0 <= i < |items| => Timer(at[items[i]], items[i].owner))
  }

  lemma TimersOfInserted(items: seq<ListItem>, at: map<ListItem, int>, k: nat, item: ListItem, time: int)
    requires forall i :: 0 <= i < |items| ==> items[i] in at
    requires item !in items && k <= |items|
    ensures var now := items[..k] + [item] + items[k..];
            var ts := TimersOf(items, at);
            && (forall i :: 0 <= i < |now| ==> now[i] in at[item := time])
            && TimersOf(now, at[item := time]) == ts[..k] + [Timer(time, item.owner)] + ts[k..]
  {
    var now := items[..k] + [item] + items[k..];
    forall i | 0 <= i < |now| && i != k ensures now[i] == items[if i < k then i else i - 1] {}
  }

  class TimerList {
    const head: ListHead
    var awakening_time: map<ListItem, int>

    ghost predicate Valid()
      reads this, head, head.Items
    {
      && head.Valid()
      && forall i :: 0 <= i < |head.Items| ==> head.Items[i] in awakening_time
    }

    /** The timers, first to last. */
    ghost function Contents(): (ts: seq<Timer>)
      requires Valid()
      reads this, head, head.Items
      ensures |ts| == |head.Items|
    {
      TimersOf(head.Items, awakening_time)
    }

    /** The timers stand while their items and their times do. */
    twostate lemma StillValid()
      requires old(Valid()) && unchanged(this) && head.Same()
      ensures Valid() && Contents() == old(Contents())
    {
      head.SameValid();
    }

    constructor ()
      ensures Valid() && Contents() == [] && fresh(head)
    {
      head := new ListHead();
      awakening_time := map[];
    }

    /** The scan of TimerList_add: the last item that is not strictly later than `time`. */
    method Place(time: int, ghost pid: Pid) returns (previous: ListItem?, ghost k: nat)
      requires Valid()
      ensures k == AddPosition(Contents(), Timer(time, pid))
      ensures previous == head.Before(k)
    {
      ghost var t := Timer(time, pid);
      ghost var was := Contents();
      var aux := head.first;
      previous := null;
      k := 0;
      while aux != null
        invariant 0 <= k <= |head.Items|
        invariant aux == if k < |head.Items| then head.Items[k] else null
        invariant previous == head.Before(k)
        invariant AddPosition(was, t) == k + AddPosition(was[k..], t)
        decreases |head.Items| - k
      {
        assert was[k].at == awakening_time[aux];
        if time < awakening_time[aux] { break; }
        assert was[k..][1..] == was[k + 1..];
        previous := aux;
        aux := aux.next;
        k := k + 1;
      }
    }

    /** TimerList_add, with a fresh item from the timer pool. */
    method Add(time: int, item: ListItem)
      requires Valid() && item !in head.Items && !item.Linked()
      modifies this, head, head.Nodes(), item
      ensures Valid() && Contents() == AddTimer(old(Contents()), Timer(time, item.owner))
      ensures head.Nodes() == old(head.Nodes()) + {item}
    {
      var previous, k := Place(time, item.owner);
      PutAt(time, item, previous, k);
    }

    /** The insertion at that place. */
    method PutAt(time: int, item: ListItem, previous: ListItem?, ghost k: nat)
      requires Valid() && item !in head.Items && !item.Linked()
      requires k <= |head.Items| && previous == head.Before(k)
      modifies this, head, head.Nodes(), item
      ensures Valid()
      ensures Contents() == old(Contents())[..k] + [Timer(time, item.owner)] + old(Contents())[k..]
      ensures head.Nodes() == old(head.Nodes()) + {item}
    {
      ghost var items := head.Items;
      var r := head.Insert(previous, item, k);
      awakening_time := awakening_time[item := time];
      ElemsInserted(items, k, item);
      TimersOfInserted(items, old(awakening_time), k, item, time);
    }

    /** TimerList_current: the first timer if it is due. */
    function Current(current_time: int): (r: ListItem?)
      requires Valid()
      reads this, head, head.Items
      ensures r == if DueCount(Contents(), current_time) > 0 then head.Items[0] else null
    {
      if head.first == null then null
      else
        assert Contents()[0].at == awakening_time[head.first];
        if current_time >= awakening_time[head.first] then head.first else null
    }

    /** List_detach of the timer at position `k`. */
    method Take(timer: ListItem, ghost k: nat)
      requires Valid() && k < |head.Items| && head.Items[k] == timer
      modifies head, head.Nodes()
      ensures Valid() && Contents() == old(Contents())[..k] + old(Contents())[k + 1..]
      ensures head.Items == old(head.Items)[..k] + old(head.Items)[k + 1..]
      ensures head.Nodes() <= old(head.Nodes())
    {
      var r := head.Detach(timer, k);
    }

    /** A timer of `pid` is taken out, another one is passed over. */
    method Skip(timer: ListItem, pid: Pid, ghost k: nat) returns (next: ListItem?, ghost k': nat)
      requires Valid() && k < |head.Items| && head.Items[k] == timer
      modifies head, head.Nodes()
      ensures Valid() && head.Nodes() <= old(head.Nodes())
      ensures k' <= |head.Items| && next == if k' < |head.Items| then head.Items[k'] else null
      ensures |head.Items| - k' < |old(head.Items)| - k
      ensures DropFrom(Contents(), k', pid) == DropFrom(old(Contents()), k, pid)
    {
      DropFromNext(Contents(), k, pid);
      next := timer.next;
      if timer.owner == pid {
        Take(timer, k);
        k' := k;
      } else {
        k' := k + 1;
      }
    }

    /** The loop of internal_exit that takes out every timer of a process. */
    method Cancel(pid: Pid)
      requires Valid()
      modifies head, head.Nodes()
      ensures Valid() && Contents() == DropTimers(old(Contents()), pid)
      ensures head.Nodes() <= old(head.Nodes())
    {
      ghost var k := 0;
      var aux := head.first;
      DropFromNone(Contents(), pid);
      while aux != null
        invariant Valid() && head.Nodes() <= old(head.Nodes())
        invariant 0 <= k <= |head.Items| && aux == if k < |head.Items| then head.Items[k] else null
        invariant DropFrom(Contents(), k, pid) == DropTimers(old(Contents()), pid)
        decreases |head.Items| - k
      {
        aux, k := Skip(aux, pid, k);
      }
      DropFromAll(Contents(), pid);
    }

    /** TimerList_removeCurrent. */
    method RemoveCurrent() returns (res: int)
      requires Valid()
      modifies head, head.Nodes()
      ensures Valid()
      ensures old(Contents()) == [] ==> res == -1 && Contents() == []
      ensures old(Contents()) != [] ==> res == 0 && Contents() == old(Contents())[1..]
      ensures head.Nodes() <= old(head.Nodes())
    {
      var item := head.Pop();
      if item == null { return -1; }
      return 0;
    }
  }
}
