/** Bounds of a queue, and delivery in order and exactly once. */
module KernelQueues {
  import opened Seqs
  import opened Constants
  import opened Timers
  import opened Payloads
  import opened KernelModel
  import opened KernelRun
  import opened KernelInv
  import opened KernelIpc

  /** What the receivers of the queued messages will get. */
  function Contents(ms: seq<Message>): (r: seq<Bytes>)
    ensures |r| == |ms|
    ensures forall i :: 0 <= i < |ms| ==> r[i] == Payload(ms[i].block, ms[i].len)
  {
    seq(|ms|, i requires 0 <= i < |ms| => Payload(ms[i].block, ms[i].len))
  }

  /** At most 128 messages, each as long as the queue's message size says and inside its
      block; what was delivered, followed by what is queued, is what was sent. */
  predicate QueueOk(q: Queue) {
    && |q.messages| <= MAX_NUM_MESSAGES_PER_QUEUE
    && q.maxMessages <= MAX_NUM_MESSAGES_PER_QUEUE
    && q.msgSize <= MAX_MESSAGE_SIZE
    && (forall i :: 0 <= i < |q.messages| ==>
        q.messages[i].len == q.msgSize && |q.messages[i].block| == MAX_MESSAGE_SIZE)
    && q.delivered + Contents(q.messages) == q.sent
  }

  predicate QueuesOk(s: State) {
    forall q {:trigger s.queues[q]} :: q in s.queues ==> QueueOk(s.queues[q])
  }

  /** Everything about two queues except who uses them. */
  predicate SameContents(a: Queue, b: Queue) {
    && a.messages == b.messages && a.maxMessages == b.maxMessages && a.msgSize == b.msgSize
    && a.sent == b.sent && a.delivered == b.delivered
  }

  /** The contents of every queue are those of before, or those of a new queue. */
  predicate SameQueues(s: State, t: State) {
    forall q {:trigger t.queues[q]} :: q in t.queues ==>
      if q in s.queues then SameContents(s.queues[q], t.queues[q]) else SameContents(NEW_QUEUE, t.queues[q])
  }

  lemma QueuesFrame(s: State, t: State)
    requires SameQueues(s, t) && QueuesOk(s)
    ensures QueuesOk(t)
  {
    forall q | q in t.queues ensures QueueOk(t.queues[q]) {
      if q in s.queues { assert QueueOk(s.queues[q]); }
    }
  }

  lemma ReceiveIsFifo(q: Queue, msg: Bytes, garbage: Bytes)
    requires QueueOk(q) && q.messages != []
    ensures QueueOk(Exchange(q, Reader, msg, garbage))
    ensures Exchange(q, Reader, msg, garbage).delivered == q.delivered + [Contents(q.messages)[0]]
  {
    ContentsRest(q.messages);
    DeliverNext(q.delivered, Contents(q.messages), Contents(q.messages[1..]));
  }

  lemma ContentsRest(ms: seq<Message>)
    requires ms != []
    ensures Contents(ms) == [Contents(ms)[0]] + Contents(ms[1..])
  {
  }

  lemma DeliverNext(delivered: seq<Bytes>, queued: seq<Bytes>, rest: seq<Bytes>)
    requires queued != [] && queued == [queued[0]] + rest
    ensures (delivered + [queued[0]]) + rest == delivered + queued
  {
  }

  lemma SendIsFifo(q: Queue, msg: Bytes, garbage: Bytes)
    requires QueueOk(q) && Room(q, Writer) > 0
    requires |msg| == MAX_MESSAGE_SIZE && |garbage| == MAX_MESSAGE_SIZE && |Payload(msg, q.msgSize)| <= MAX_MESSAGE_SIZE
    ensures QueueOk(Exchange(q, Writer, msg, garbage))
    ensures Contents(Exchange(q, Writer, msg, garbage).messages) == Contents(q.messages) + [Payload(msg, q.msgSize)]
  {
    PayloadSurvives(msg, q.msgSize, garbage);
    var p := Payload(msg, q.msgSize);
    var m := Message(Overwritten(garbage, p), q.msgSize);
    ContentsAppend(q.messages, m);
    assert (q.delivered + Contents(q.messages)) + [p] == q.delivered + (Contents(q.messages) + [p]);
  }

  lemma ContentsAppend(ms: seq<Message>, m: Message)
    ensures Contents(ms + [m]) == Contents(ms) + [Payload(m.block, m.len)]
  {
  }

  /** One exchange takes the oldest message out or puts a new one behind the others, and
      the payload the receiver gets is the one the sender meant. */
  lemma ExchangeIsFifo(q: Queue, role: Role, msg: Bytes, garbage: Bytes)
    requires QueueOk(q) && Room(q, role) > 0
    requires role == Writer ==> |msg| == MAX_MESSAGE_SIZE && |garbage| == MAX_MESSAGE_SIZE
    requires |Payload(msg, q.msgSize)| <= MAX_MESSAGE_SIZE
    ensures QueueOk(Exchange(q, role, msg, garbage))
    ensures role == Reader ==> Exchange(q, role, msg, garbage).delivered == q.delivered + [Contents(q.messages)[0]]
    ensures role == Writer ==>
            Contents(Exchange(q, role, msg, garbage).messages) == Contents(q.messages) + [Payload(msg, q.msgSize)]
  {
    match role
    case Reader => ReceiveIsFifo(q, msg, garbage);
    case Writer => SendIsFifo(q, msg, garbage);
    case NonBlock =>
  }

  lemma TransferQueues(s: State, grant: Grant)
    requires QueuesOk(s) && PcsOk(s) && Enabled(s, TransferStep(grant))
    ensures QueuesOk(Apply(s, TransferStep(grant)))
  {
    var p := s.running.value;
    var role, qid := Self(s).pc.role, CallQueue(s, p);
    var t := Apply(s, TransferStep(grant));
    assert PcOk(s, p);
    if Room(s.queues[qid], role) > 0 && !(role == Writer && grant.None?) {
      var garbage := if grant.Some? then grant.value else [];
      ExchangeIsFifo(s.queues[qid], role, Self(s).pc.msg, garbage);
      assert t.queues == s.queues[qid := Exchange(s.queues[qid], role, Self(s).pc.msg, garbage)];
    } else {
      assert t.queues == s.queues;
    }
  }

  lemma {:induction false} RegisterAllQueues(s: State, fd: Fd, order: seq<Role>,
                                               roles: set<Role>, got: map<Role, Block>)
    requires Alive(s) && fd in Self(s).fds && Self(s).fds[fd].queue in s.queues
    ensures SameQueues(s, RegisterAll(s, fd, order, roles, got))
    ensures RegisterAll(s, fd, order, roles, got).queues.Keys == s.queues.Keys
    decreases order
  {
    if order != [] {
      if order[0] !in roles {
        RegisterAllQueues(s, fd, order[1..], roles, got);
      } else if order[0] in got {
        var r := Register(s, fd, order[0], got[order[0]]);
        assert SameQueues(s, r);
        RegisterAllQueues(r, fd, order[1..], roles, got);
      }
    }
  }

  lemma OpenFinishQueues(s: State, got: map<Role, Block>)
    requires Alive(s) && Self(s).pc.Opening? && Self(s).pc.fd in Self(s).fds
    ensures SameQueues(s, OpenQueue(s, got))
  {
    var fd, roles := Self(s).pc.fd, Self(s).pc.roles;
    var q := Self(s).fds[fd].queue;
    var done := SetSelf(s, Self(s).(pc := User));
    if !(q !in s.queues && |s.queues| >= MAX_NUM_QUEUES) {
      var s1 := if q in s.queues then done else done.(queues := done.queues[q := NEW_QUEUE]);
      RegisterAllQueues(s1, fd, ALL_ROLES, roles, got);
    }
  }

  lemma TimedQueues(s: State, step: Step)
    requires Enabled(s, step) && (step.Tick? || step.Preempt? || step.Sleep? || step.WaitPid? || step.SpawnChild?)
    ensures SameQueues(s, Apply(s, step))
  {
    if step.Preempt? {
      PreemptQueues(s);
    } else if step.WaitPid? {
      WaitQueues(Trap(s, Wait(step.pid)), step.pid);
    }
  }

  lemma PreemptQueues(s: State)
    requires Enabled(s, Preempt)
    ensures SameQueues(s, Apply(s, Preempt))
  {
    ScheduleQueues(Resume(Trap(s, OtherCall)));
  }

  lemma ScheduleQueues(s: State)
    requires s.running.Some?
    ensures Schedule(s).queues == s.queues
  {
  }

  lemma WaitQueues(s: State, pid: int)
    requires Alive(s)
    ensures SameQueues(s, WaitFor(s, pid))
  {
  }

  lemma OtherQueues(s: State, step: Step)
    requires Enabled(s, step)
    requires step.CloseContinue? || step.ExitWith? || step.UnlinkStep? || step.WakeStep? || step.OpenStart?
             || step.CloseStart? || step.CallStart?
    ensures SameQueues(s, Apply(s, step))
  {
    match step
    case CloseContinue => CloseQueues(s);
    case ExitWith(value) => ExitQueues(Trap(s, OtherCall), value);
    case WakeStep => WakeUpQueues(Trap(s, OtherCall));
    case UnlinkStep(_) =>
    case OpenStart(_, _) =>
    case CloseStart(_) =>
    case CallStart(_, _, _, _) =>
  }

  lemma WakeUpQueues(s: State)
    requires Alive(s) && InCall(s, s.running.value)
    ensures WakeUpQueue(s).queues == s.queues
  {
  }

  lemma CloseQueues(s: State)
    requires Alive(s) && Self(s).pc.Closing? && Self(s).pc.fd in Self(s).fds
    ensures SameQueues(s, CloseStep(s))
  {
  }

  lemma ExitQueues(s: State, value: int)
    requires Alive(s) && Self(s).parent.Some?
    ensures SameQueues(s, Exit(s, value))
  {
  }

  lemma StepKeepsQueues(s: State, step: Step)
    requires CoreInv(s) && QueuesOk(s) && Enabled(s, step)
    ensures QueuesOk(Apply(s, step))
  {
    if step.TransferStep? {
      TransferQueues(s, step.grant);
    } else if step.MaxStep? || step.SizeStep? {
      AttributeQueues(s, step);
    } else {
      SameAfter(s, step);
      QueuesFrame(s, Apply(s, step));
    }
  }

  lemma SameAfter(s: State, step: Step)
    requires Enabled(s, step) && !step.TransferStep? && !step.MaxStep? && !step.SizeStep?
    ensures SameQueues(s, Apply(s, step))
  {
    if step.OpenFinish? {
      OpenFinishQueues(Trap(s, OtherCall), step.got);
    } else if step.Tick? || step.Preempt? || step.Sleep? || step.WaitPid? || step.SpawnChild? {
      TimedQueues(s, step);
    } else {
      OtherQueues(s, step);
    }
  }

  lemma AttributeQueues(s: State, step: Step)
    requires QueuesOk(s) && Enabled(s, step) && (step.MaxStep? || step.SizeStep?)
    ensures QueuesOk(Apply(s, step))
  {
    match step
    case MaxStep(fd, newVal) => MaxQueues(s, Self(s).fds[fd].queue, newVal);
    case SizeStep(fd, newVal) => SizeQueues(s, Self(s).fds[fd].queue, newVal);
  }

  lemma MaxQueues(s: State, q: Qid, newVal: int)
    requires QueuesOk(s) && q in s.queues
    ensures QueuesOk(SetMax(s, q, newVal).0)
  {
    assert QueueOk(s.queues[q]);
  }

  lemma SizeQueues(s: State, q: Qid, newVal: int)
    requires QueuesOk(s) && q in s.queues && newVal <= MAX_MESSAGE_SIZE
    ensures QueuesOk(SetMsgSize(s, q, newVal).0)
  {
    assert QueueOk(s.queues[q]);
  }

  /** A process inside a call is never stuck for want of a descriptor, an entry or room in
      a message block: only the hypothesis on the waiting list can hold it back. */
  lemma CallCanContinue(s: State)
    requires CoreInv(s) && QueuesOk(s) && Alive(s) && Self(s).pc.Calling?
    ensures Self(s).pc.phase == Wake ==> Enabled(s, WakeStep)
    ensures Self(s).pc.phase == First || Self(s).pc.phase == Again ==>
              forall grant :: UsableGrant(grant) && SafeBlock(s) ==> Enabled(s, TransferStep(grant))
    ensures Self(s).pc.phase == Yield ==> (SafeSchedule(Resume(Trap(s, OtherCall))) <==> Enabled(s, Preempt))
  {
    CallFacts(s, s.running.value);
    SizeFacts(s);
    var phase := Self(s).pc.phase;
    if phase == First || phase == Again {
      forall grant | UsableGrant(grant) && SafeBlock(s) ensures Enabled(s, TransferStep(grant)) {
        TransferEnabled(s, grant);
      }
    }
    if phase == Yield { PreemptEnabled(s); }
  }

  lemma TransferEnabled(s: State, grant: Grant)
    requires Alive(s) && InCall(s, s.running.value) && UsableGrant(grant) && SafeBlock(s)
    requires Self(s).pc.phase == First || Self(s).pc.phase == Again
    requires |Payload(Self(s).pc.msg, s.queues[CallQueue(s, s.running.value)].msgSize)| <= MAX_MESSAGE_SIZE
    ensures Enabled(s, TransferStep(grant))
  {
  }

  lemma PreemptEnabled(s: State)
    requires Alive(s) && Self(s).pc.Calling? && Self(s).pc.phase == Yield
    ensures SafeSchedule(Resume(Trap(s, OtherCall))) <==> Enabled(s, Preempt)
  {
  }

  lemma SizeFacts(s: State)
    requires QueuesOk(s) && Alive(s) && InCall(s, s.running.value)
    ensures |Payload(Self(s).pc.msg, s.queues[CallQueue(s, s.running.value)].msgSize)| <= MAX_MESSAGE_SIZE
  {
    PayloadMeaning(Self(s).pc.msg, s.queues[CallQueue(s, s.running.value)].msgSize);
    assert QueueOk(s.queues[CallQueue(s, s.running.value)]);
  }
}
