/** What the scheduling steps and the calls on queues change, in terms of the state before. */
module KernelEffects {
  import opened Seqs
  import opened Constants
  import opened Timers
  import opened Payloads
  import opened KernelModel
  import opened KernelRun
  import opened KernelInv
  import opened KernelSched
  import opened KernelIpc
  import opened KernelOpen
  import opened KernelCore
  import opened KernelQueues
  import opened KernelSizes
  import opened KernelTheorems

  lemma SetTwice(s: State, a: Proc, b: Proc)
    requires Alive(s)
    ensures s.procs[s.running.value := a][s.running.value := b] == s.procs[s.running.value := b]
  {
  }

  // Scheduling.

  /** Exactly the first `k` timers have a deadline that `now` has reached. */
  predicate FirstDue(ts: seq<Timer>, now: int, k: int) {
    && 0 <= k <= |ts|
    && (forall i {:trigger ts[i]} :: 0 <= i < k ==> ts[i].at <= now)
    && (forall i {:trigger ts[i]} :: k <= i < |ts| ==> now < ts[i].at)
  }

  /** The sleepers of the first `k` timers are woken and stand, in the order of the timers, before
      those that were ready. The head of this line runs; `me`, the process that ran, is ready and
      stands behind it, unless it has just blocked: then it stays where it is parked. When the line
      is empty it goes on running. Nothing else changes but the time. */
  ghost predicate Scheduled(s: State, t: State, k: int, me: Proc)
    requires Alive(s) && 0 <= k <= |s.timers|
  {
    var p, woken := s.running.value, Pids(s.timers[..k]);
    var line := woken + s.ready;
    && t == s.(running := t.running, ready := t.ready, waiting := t.waiting, timers := s.timers[k..], time := t.time,
               procs := t.procs)
    && t.waiting == Without(s.waiting, Elems(woken)) && t.procs.Keys == s.procs.Keys
    && if line == [] then t.running == Some(p) && t.ready == [] && t.procs == s.procs[p := me]
       else
         && t.running == Some(line[0]) && t.ready == line[1..] + (if p in s.waiting then [] else [p])
         && t.procs[p] == me.(status := Ready)
         && line[0] in s.procs && t.procs[line[0]] == s.procs[line[0]].(status := Running)
         && forall x {:trigger t.procs[x]} :: x in s.procs && x != p && x != line[0] ==>
              t.procs[x] == if x in woken then s.procs[x].(status := Ready) else s.procs[x]
  }

  lemma DueFront(ts: seq<Timer>, now: int, k: int)
    requires FirstDue(ts, now, k)
    ensures Due(ts, now) == Pids(ts[..k]) && NotDue(ts, now) == ts[k..]
  {
    var c := DueCount(ts, now);
    assert c < |ts| ==> now < ts[c].at;
    assert k < |ts| ==> now < ts[k].at;
  }

  /** In a sorted list there is such a `k`. */
  lemma DueFrontExists(ts: seq<Timer>, now: int) returns (k: int)
    requires Sorted(ts)
    ensures FirstDue(ts, now, k)
  {
    k := DueCount(ts, now);
    DueIsExact(ts, now);
  }

  /** After the wake-ups. */
  lemma WokenForm(s: State, k: int)
    requires TimersOk(s) && Alive(s) && FirstDue(s.timers, s.time, k)
    ensures WakeDue(s) ==
              s.(waiting := Without(s.waiting, Elems(Pids(s.timers[..k]))), ready := Pids(s.timers[..k]) + s.ready,
                 timers := s.timers[k..], procs := WithStatus(s.procs, Elems(Pids(s.timers[..k])), Ready))
    ensures forall x {:trigger x in Pids(s.timers[..k])} :: x in Pids(s.timers[..k]) ==> Asleep(s, x)
  {
    DueFront(s.timers, s.time, k);
    forall x | x in Pids(s.timers[..k]) ensures Asleep(s, x) {
      var i :| 0 <= i < k && Pids(s.timers[..k])[i] == x;
      assert Pids(s.timers)[i] == x;
      assert x in Pids(s.timers);
    }
  }

  /** The rotation, when the process that runs is parked or in no list. */
  lemma RotateForm(w: State)
    requires Alive(w) && w.running.value !in w.ready && w.running.value !in w.zombie
    requires w.ready != [] && (w.running.value in w.waiting ==> |w.waiting| >= 2)
    ensures var p, next := w.running.value, w.ready[0];
            Rotate(w) ==
              w.(running := Some(next), ready := w.ready[1..] + (if p in w.waiting then [] else [p]),
                 procs := SetStatus(SetStatus(w.procs, p, Ready), next, Running))
  {
    assert forall x :: x in w.ready[1..] ==> x in w.ready;
    assert w.ready[1..] + [] == w.ready[1..];
  }

  lemma ScheduleForm(s: State, k: int)
    requires Placed(s) && TimersOk(s) && Alive(s) && SafeSchedule(s) && FirstDue(s.timers, s.time, k)
    ensures Scheduled(s, Schedule(s), k, Self(s))
  {
    var p, woken, w := s.running.value, Pids(s.timers[..k]), WakeDue(s);
    WokenForm(s, k);
    assert !Asleep(s, p);
    if w.ready == [] {
      assert woken == [];
      assert w.procs == s.procs && s.procs[p := Self(s)] == s.procs;
    } else {
      assert w.ready[0] in woken || w.ready[0] in s.ready;
      RotateForm(w);
    }
  }

  /** The timer interrupt. */
  lemma TickOutcome(s: State) returns (k: int)
    requires CoreInv(s) && Enabled(s, Tick)
    ensures FirstDue(s.timers, s.time + 1, k)
    ensures Scheduled(s, Apply(s, Tick), k, Self(s)) && Apply(s, Tick).time == s.time + 1
  {
    var l := Later(s);
    LaterKeeps(s);
    k := DueFrontExists(s.timers, s.time + 1);
    ScheduleForm(l, k);
    LaterScheduled(s, Schedule(l), k);
  }

  lemma LaterScheduled(s: State, t: State, k: int)
    requires Alive(s) && 0 <= k <= |s.timers| && Scheduled(Later(s), t, k, Self(s)) && t.time == s.time + 1
    ensures Scheduled(s, t, k, Self(s))
  {
  }

  /** What the preempted process finds when it runs again. */
  function Preempted(pr: Proc): Proc {
    pr.(call := OtherCall, pc := if pr.pc.Calling? then pr.pc.(phase := Again) else pr.pc)
  }

  /** disastrOS_preempt. */
  lemma PreemptOutcome(s: State) returns (k: int)
    requires CoreInv(s) && Enabled(s, Preempt)
    ensures FirstDue(s.timers, s.time, k)
    ensures Scheduled(s, Apply(s, Preempt), k, Preempted(Self(s))) && Apply(s, Preempt).time == s.time
  {
    var r := Resume(Trap(s, OtherCall));
    PreemptedForm(s);
    PreemptedKeeps(s);
    k := DueFrontExists(s.timers, s.time);
    ScheduleForm(r, k);
    PreemptScheduled(s, r, Schedule(r), k);
  }

  lemma PreemptedForm(s: State)
    requires Alive(s)
    ensures Resume(Trap(s, OtherCall)) == SetSelf(s, Preempted(Self(s)))
  {
    SetTwice(s, Self(s).(call := OtherCall), Preempted(Self(s)));
  }

  lemma PreemptScheduled(s: State, r: State, t: State, k: int)
    requires Alive(s) && s.running.value !in s.ready && s.running.value !in Pids(s.timers)
    requires r == SetSelf(s, Preempted(Self(s)))
    requires 0 <= k <= |s.timers| && Scheduled(r, t, k, Self(r)) && t.time == s.time
    ensures Scheduled(s, t, k, Preempted(Self(s)))
  {
    SetTwice(s, Preempted(Self(s)), Preempted(Self(s)));
    var line := Pids(s.timers[..k]) + s.ready;
    assert forall x :: x in Pids(s.timers[..k]) ==> x in Pids(s.timers);
    if line != [] { assert line[0] in Pids(s.timers[..k]) || line[0] in s.ready; }
  }

  // The transfer of a message.

  /** The queue of the call that the running process is in. */
  function Channel(s: State): Queue
    requires Alive(s) && InCall(s, s.running.value)
  {
    s.queues[CallQueue(s, s.running.value)]
  }

  /** A receiver finds the queue empty, or a sender finds it at its limit. */
  predicate NoRoom(s: State)
    requires Alive(s) && InCall(s, s.running.value)
  {
    if Self(s).pc.role == Reader then Channel(s).messages == []
    else Channel(s).maxMessages <= |Channel(s).messages|
  }

  function TransferError(role: Role): int {
    if role == Reader then DSOS_NO_MSG_RECEIVED else DSOS_NO_MSG_SENT
  }

  /** The caller after a transfer, with a result, and with what it does next. */
  function Answered(pr: Proc, ret: int, phase: Phase): Proc
    requires pr.pc.Calling?
  {
    pr.(call := OtherCall, ret := ret, pc := pr.pc.(phase := phase))
  }

  /** The call from inside the kernel on. */
  lemma TrapCall(s: State)
    requires Alive(s) && InCall(s, s.running.value)
    ensures var r := Trap(s, OtherCall);
            && Alive(r) && InCall(r, s.running.value) && Channel(r) == Channel(s)
            && CallQueue(r, s.running.value) == CallQueue(s, s.running.value)
            && CallEntry(r, s.running.value) == CallEntry(s, s.running.value)
            && Self(r) == Self(s).(call := OtherCall)
            && r == s.(procs := s.procs[s.running.value := Self(s).(call := OtherCall)])
  {
  }

  lemma NoRoomForm(s: State, grant: Grant)
    requires Alive(s) && InCall(s, s.running.value) && UsableGrant(grant) && NoRoom(s)
    requires |Payload(Self(s).pc.msg, Channel(s).msgSize)| <= MAX_MESSAGE_SIZE
    requires s.running.value in s.waiting <==> Linked(s, s.running.value)
    ensures Transfer(s, grant) ==
              s.(waiting := if s.running.value in s.waiting then s.waiting else s.waiting + [s.running.value],
                 users := s.users[CallEntry(s, s.running.value) :=
                     s.users[CallEntry(s, s.running.value)].(status := Waiting)],
                 procs := s.procs[s.running.value := Self(s).(status := Waiting, ret := TransferError(Self(s).pc.role),
                                                              pc := Self(s).pc.(phase := Yield))])
  {
    TransferBlocks(s, grant);
    SetTwice(s, Self(s).(status := Waiting), Self(s).(status := Waiting, ret := TransferError(Self(s).pc.role)));
    SetTwice(s, Self(s).(status := Waiting, ret := TransferError(Self(s).pc.role)),
             Self(s).(status := Waiting, ret := TransferError(Self(s).pc.role), pc := Self(s).pc.(phase := Yield)));
  }

  /** Without room the caller is parked, its entry is marked waiting, and it gets the error; a caller
      that is parked already keeps its place. Nothing else changes. */
  lemma BlockingOutcome(s: State, grant: Grant)
    requires Placed(s) && Enabled(s, TransferStep(grant)) && NoRoom(s)
    ensures Apply(s, TransferStep(grant)) ==
              s.(waiting := if s.running.value in s.waiting then s.waiting else s.waiting + [s.running.value],
                 users := s.users[CallEntry(s, s.running.value) :=
                     s.users[CallEntry(s, s.running.value)].(status := Waiting)],
                 procs := s.procs[s.running.value := Answered(Self(s), TransferError(Self(s).pc.role), Yield)
                                                       .(status := Waiting)])
  {
    TrapCall(s);
    NoRoomForm(Trap(s, OtherCall), grant);
    SetTwice(s, Self(s).(call := OtherCall),
             Answered(Self(s), TransferError(Self(s).pc.role), Yield).(status := Waiting));
  }

  /** A send that finds room but no free block gets the error and is not parked. */
  lemma RefusedOutcome(s: State)
    requires Enabled(s, TransferStep(None)) && !NoRoom(s) && Self(s).pc.role == Writer
    ensures Apply(s, TransferStep(None)) ==
              s.(procs := s.procs[s.running.value := Answered(Self(s), DSOS_NO_MSG_SENT, Yield)])
  {
    TrapCall(s);
    SetTwice(s, Self(s).(call := OtherCall), Self(s).(call := OtherCall, ret := DSOS_NO_MSG_SENT));
    SetTwice(s, Self(s).(call := OtherCall, ret := DSOS_NO_MSG_SENT), Answered(Self(s), DSOS_NO_MSG_SENT, Yield));
  }

  lemma ExchangedForm(s: State, grant: Grant)
    requires Alive(s) && InCall(s, s.running.value) && UsableGrant(grant) && !NoRoom(s)
    requires |Payload(Self(s).pc.msg, Channel(s).msgSize)| <= MAX_MESSAGE_SIZE
    requires Self(s).pc.role == Writer ==> grant.Some?
    ensures Transfer(s, grant) ==
              s.(queues := s.queues[CallQueue(s, s.running.value) :=
                   Exchange(Channel(s), Self(s).pc.role, Self(s).pc.msg, if grant.Some? then grant.value else [])],
                 procs := s.procs[s.running.value := Self(s).(ret := 0, pc := Self(s).pc.(phase := Wake))])
  {
    SetTwice(s, Self(s).(ret := 0), Self(s).(ret := 0, pc := Self(s).pc.(phase := Wake)));
  }

  /** A receive takes the oldest message out and gets its payload; next comes the wake-up call. */
  lemma ReceiveOutcome(s: State, grant: Grant)
    requires Enabled(s, TransferStep(grant)) && !NoRoom(s) && Self(s).pc.role == Reader
    ensures var q := Channel(s);
            Apply(s, TransferStep(grant)) ==
              s.(queues := s.queues[CallQueue(s, s.running.value) :=
                   q.(messages := q.messages[1..],
                      delivered := q.delivered + [Payload(q.messages[0].block, q.messages[0].len)])],
                 procs := s.procs[s.running.value := Answered(Self(s), 0, Wake)])
  {
    TrapCall(s);
    ExchangedForm(Trap(s, OtherCall), grant);
    SetTwice(s, Self(s).(call := OtherCall), Answered(Self(s), 0, Wake));
  }

  /** The new queue holds one message more, behind the others, and whoever receives it gets `msg` up
      to its first NUL, or up to the message size of the queue. */
  predicate Enqueued(q: Queue, r: Queue, msg: Bytes) {
    && |r.messages| == |q.messages| + 1 && r == q.(messages := r.messages, sent := r.sent)
    && r.messages[..|q.messages|] == q.messages && r.messages[|q.messages|].len == q.msgSize
    && |r.messages[|q.messages|].block| == MAX_MESSAGE_SIZE
    && Payload(r.messages[|q.messages|].block, q.msgSize) == Payload(msg, q.msgSize)
    && r.sent == q.sent + [Payload(msg, q.msgSize)]
  }

  lemma SendForm(q: Queue, msg: Bytes, garbage: Bytes)
    requires |garbage| == MAX_MESSAGE_SIZE && |msg| == MAX_MESSAGE_SIZE && q.msgSize <= MAX_MESSAGE_SIZE
    requires |Payload(msg, q.msgSize)| <= |garbage|
    ensures Enqueued(q, Exchange(q, Writer, msg, garbage), msg)
  {
    PayloadSurvives(msg, q.msgSize, garbage);
  }

  /** A send with a block puts the message behind the others. */
  lemma SendOutcome(s: State, grant: Grant)
    requires QueuesOk(s) && PcsOk(s) && Enabled(s, TransferStep(grant)) && !NoRoom(s)
    requires Self(s).pc.role == Writer && grant.Some?
    ensures var t, qid := Apply(s, TransferStep(grant)), CallQueue(s, s.running.value);
            && qid in t.queues && Enqueued(Channel(s), t.queues[qid], Self(s).pc.msg)
            && t == s.(queues := s.queues[qid := t.queues[qid]],
                       procs := s.procs[s.running.value := Answered(Self(s), 0, Wake)])
  {
    assert PcOk(s, s.running.value);
    assert QueueOk(Channel(s));
    TrapCall(s);
    ExchangedForm(Trap(s, OtherCall), grant);
    SendForm(Channel(s), Self(s).pc.msg, grant.value);
    SetTwice(s, Self(s).(call := OtherCall), Answered(Self(s), 0, Wake));
  }

  // One call.

  /** The step is a transfer of the process, and it succeeds. */
  predicate Succeeds(s: State, step: Step, p: Pid) {
    && s.running == Some(p) && InCall(s, p) && step.TransferStep? && !NoRoom(s)
    && (Self(s).pc.role == Writer ==> step.grant.Some?)
  }

  /** No other process changes, and the running process goes on in its call. */
  predicate OnlyPhase(s: State, t: State, phase: Phase)
    requires Alive(s) && Self(s).pc.Calling?
  {
    && s.running.value in t.procs && t.procs == s.procs[s.running.value := t.procs[s.running.value]]
    && t.procs[s.running.value].fds == Self(s).fds
    && t.procs[s.running.value].pc == Self(s).pc.(phase := phase)
  }

  lemma TransferFails(s: State, grant: Grant)
    requires Placed(s) && Enabled(s, TransferStep(grant)) && !Succeeds(s, TransferStep(grant), s.running.value)
    ensures OnlyPhase(s, Apply(s, TransferStep(grant)), Yield)
  {
    if NoRoom(s) { BlockingOutcome(s, grant); } else { RefusedOutcome(s); }
  }

  lemma TransferSucceeds(s: State, grant: Grant)
    requires QueuesOk(s) && PcsOk(s) && Enabled(s, TransferStep(grant))
    requires Succeeds(s, TransferStep(grant), s.running.value)
    ensures OnlyPhase(s, Apply(s, TransferStep(grant)), Wake)
  {
    assert PcOk(s, s.running.value);
    if Self(s).pc.role == Reader { ReceiveOutcome(s, grant); } else { SendOutcome(s, grant); }
  }

  /** A call goes on with its arguments, and is done with its transfer exactly after one. */
  lemma CallGoesOn(s: State, step: Step, p: Pid)
    requires CoreInv(s) && QueuesOk(s) && Enabled(s, step) && p in s.procs && p in Apply(s, step).procs
    requires s.procs[p].pc.Calling? && Apply(s, step).procs[p].pc.Calling?
    ensures var a, b := s.procs[p], Apply(s, step).procs[p];
            && b.pc == a.pc.(phase := b.pc.phase) && b.fds == a.fds
            && (b.pc.phase == Wake <==> a.pc.phase == Wake || Succeeds(s, step, p))
            && (Succeeds(s, step, p) ==> a.pc.phase != Wake)
  {
    if !step.TransferStep? {
      StepKeepsCall(s, step, p);
    } else if Succeeds(s, step, s.running.value) {
      TransferSucceeds(s, step.grant);
    } else {
      TransferFails(s, step.grant);
    }
  }

  /** How many transfers of the process succeed among the steps from `i` up to `j`. */
  function Transfers(states: seq<State>, steps: seq<Step>, i: nat, j: nat, p: Pid): (n: nat)
    requires i <= j <= |steps| && |states| == |steps| + 1
  {
    if i == j then 0
    else Transfers(states, steps, i, j - 1, p) + if Succeeds(states[j - 1], steps[j - 1], p) then 1 else 0
  }

  /** Step `i` enters dmq_receive or dmq_send, and the process is inside until state `j`. */
  ghost predicate Inside(states: seq<State>, steps: seq<Step>, i: nat, j: nat, p: Pid) {
    && i < j <= |steps| && |states| == |steps| + 1
    && steps[i].CallStart? && states[i].running == Some(p) && p in states[i].procs
    && forall k {:trigger states[k]} :: i < k <= j ==> p in states[k].procs && states[k].procs[p].pc.Calling?
  }

  /** The process is in the call of the step, with descriptors `fds`, before or after its transfer. */
  predicate InCallOf(pr: Proc, step: Step, fds: map<Fd, Handle>, done: bool)
    requires step.CallStart?
  {
    && pr.fds == fds && pr.pc.Calling? && (pr.pc.phase == Wake <==> done)
    && pr.pc == Calling(step.role, step.fd, pr.pc.phase, step.msg, step.size)
  }

  lemma CallEntered(states: seq<State>, steps: seq<Step>, i: nat, p: Pid)
    requires Path(states, steps) && i < |steps| && steps[i].CallStart?
    requires states[i].running == Some(p) && p in states[i].procs && p in states[i + 1].procs
    ensures InCallOf(states[i + 1].procs[p], steps[i], states[i].procs[p].fds, false)
  {
    RunStep(states, steps, i);
  }

  lemma CallNext(states: seq<State>, steps: seq<Step>, k: nat, p: Pid, step: Step, fds: map<Fd, Handle>, done: bool)
    requires Run(states, steps) && k < |steps| && step.CallStart?
    requires p in states[k].procs && InCallOf(states[k].procs[p], step, fds, done)
    requires p in states[k + 1].procs && states[k + 1].procs[p].pc.Calling?
    ensures InCallOf(states[k + 1].procs[p], step, fds, done || Succeeds(states[k], steps[k], p))
    ensures Succeeds(states[k], steps[k], p) ==> !done
  {
    RunStep(states, steps, k);
    RunInv(states, steps, k);
    CallGoesOn(states[k], steps[k], p);
  }

  /** From state `i` + 1 to state `j` every step takes the call on. */
  ghost predicate GoesOn(states: seq<State>, steps: seq<Step>, i: nat, j: nat, p: Pid, fds: map<Fd, Handle>)
    requires Inside(states, steps, i, j, p)
  {
    forall k {:trigger states[k]} :: i < k < j ==> StepGoesOn(states[k], steps[k], states[k + 1], p, steps[i], fds)
  }

  ghost predicate StepGoesOn(s: State, step: Step, t: State, p: Pid, start: Step, fds: map<Fd, Handle>)
    requires p in s.procs && p in t.procs && start.CallStart?
  {
    forall done {:trigger InCallOf(s.procs[p], start, fds, done)} :: InCallOf(s.procs[p], start, fds, done) ==>
      InCallOf(t.procs[p], start, fds, done || Succeeds(s, step, p)) && (Succeeds(s, step, p) ==> !done)
  }

  lemma {:induction false} CountTransfers(states: seq<State>, steps: seq<Step>, i: nat, j: nat, p: Pid,
                                          fds: map<Fd, Handle>)
    requires Inside(states, steps, i, j, p) && GoesOn(states, steps, i, j, p, fds)
    requires InCallOf(states[i + 1].procs[p], steps[i], fds, false)
    ensures Transfers(states, steps, i + 1, j, p) <= 1
    ensures InCallOf(states[j].procs[p], steps[i], fds, Transfers(states, steps, i + 1, j, p) == 1)
    decreases j
  {
    if i + 1 < j {
      InsideBefore(states, steps, i, j, p);
      CountTransfers(states, steps, i, j - 1, p, fds);
      assert StepGoesOn(states[j - 1], steps[j - 1], states[j], p, steps[i], fds);
    }
  }

  /** Over every run a call keeps its arguments and its descriptor; and when it comes to its wake-up,
      which is its last step, exactly one transfer has succeeded, and before that none. */
  lemma OneTransferPerCall(states: seq<State>, steps: seq<Step>, i: nat, j: nat, p: Pid)
    requires Run(states, steps) && Inside(states, steps, i, j, p)
    ensures Transfers(states, steps, i + 1, j, p) <= 1
    ensures InCallOf(states[j].procs[p], steps[i], states[i].procs[p].fds, Transfers(states, steps, i + 1, j, p) == 1)
  {
    var fds := states[i].procs[p].fds;
    CallEntered(states, steps, i, p);
    forall k {:trigger states[k]} | i < k < j
      ensures StepGoesOn(states[k], steps[k], states[k + 1], p, steps[i], fds)
    {
      CallSteps(states, steps, k, p, steps[i], fds);
    }
    CountTransfers(states, steps, i, j, p, fds);
  }

  lemma CallSteps(states: seq<State>, steps: seq<Step>, k: nat, p: Pid, start: Step, fds: map<Fd, Handle>)
    requires Run(states, steps) && k < |steps| && start.CallStart?
    requires p in states[k].procs && p in states[k + 1].procs && states[k + 1].procs[p].pc.Calling?
    ensures StepGoesOn(states[k], steps[k], states[k + 1], p, start, fds)
  {
    forall done | InCallOf(states[k].procs[p], start, fds, done)
      ensures InCallOf(states[k + 1].procs[p], start, fds, done || Succeeds(states[k], steps[k], p))
      ensures Succeeds(states[k], steps[k], p) ==> !done
    {
      CallNext(states, steps, k, p, start, fds, done);
    }
  }

  lemma InsideBefore(states: seq<State>, steps: seq<Step>, i: nat, j: nat, p: Pid)
    requires Inside(states, steps, i, j, p) && i + 1 < j
    ensures Inside(states, steps, i, j - 1, p)
    ensures p in states[j].procs && states[j].procs[p].pc.Calling?
  {
  }

  /** And what a send puts into the queue of its descriptor is the message it was given. */
  lemma SendsItsMessage(states: seq<State>, steps: seq<Step>, i: nat, j: nat, p: Pid)
    requires Run(states, steps) && Inside(states, steps, i, j, p) && j < |steps|
    requires Succeeds(states[j], steps[j], p) && steps[i].role == Writer
    ensures steps[i].fd in states[i].procs[p].fds
    ensures var q := states[i].procs[p].fds[steps[i].fd].queue;
            && q in states[j].queues && q in states[j + 1].queues
            && Enqueued(states[j].queues[q], states[j + 1].queues[q], steps[i].msg)
  {
    OneTransferPerCall(states, steps, i, j, p);
    RunStep(states, steps, j);
    RunInv(states, steps, j);
    SendOutcome(states[j], steps[j].grant);
  }
}
