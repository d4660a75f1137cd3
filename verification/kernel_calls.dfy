/** What the checks at the start of dmq_receive and dmq_send are worth. */
module KernelCalls {
  import opened Seqs
  import opened Constants
  import opened Timers
  import opened Payloads
  import opened KernelModel
  import opened KernelRun
  import opened KernelInv
  import opened KernelSched
  import opened KernelIpc
  import opened KernelQueues

  /** The descriptor is that of a live queue. */
  function QueueOf(s: State, fd: Fd): Queue
    requires Alive(s) && OwnsQueue(s, fd)
  {
    s.queues[Self(s).fds[fd].queue]
  }

  /** The receiver's buffer holds a message, or the sender's message is not too long. */
  predicate SizeFits(s: State, role: Role, fd: Fd, size: int)
    requires Alive(s) && OwnsQueue(s, fd)
  {
    if role == Reader then QueueOf(s, fd).msgSize <= size else size <= QueueOf(s, fd).msgSize
  }

  /** In every state of the invariant the search for the entry tells whether the queue was opened
      for the role. A call is admitted exactly when it was, the sizes fit, and a non-blocking
      descriptor does not find the queue empty or at its limit; and each refusal has exactly one
      cause. */
  lemma AdmissionIff(s: State, role: Role, fd: Fd, size: int)
    requires EntriesOk(s) && Alive(s) && role != NonBlock
    ensures Admission(s, role, fd, size) == INVALID_FD <==> !OwnsQueue(s, fd)
    ensures Admission(s, role, fd, size) == BUFFER_TOO_SMALL <==>
              OwnsQueue(s, fd) && role == Reader && !SizeFits(s, role, fd, size)
    ensures Admission(s, role, fd, size) == MSG_TOO_BIG <==>
              OwnsQueue(s, fd) && role == Writer && !SizeFits(s, role, fd, size)
    ensures Admission(s, role, fd, size) == ACTION_NOT_ALLOWED <==>
              OwnsQueue(s, fd) && SizeFits(s, role, fd, size) && role !in Self(s).fds[fd].slots
    ensures Admission(s, role, fd, size) == EAGAIN <==>
              && OwnsQueue(s, fd) && SizeFits(s, role, fd, size) && role in Self(s).fds[fd].slots
              && NonBlock in Self(s).fds[fd].slots && Room(QueueOf(s, fd), role) == 0
    ensures Admission(s, role, fd, size) == 0 <==>
              && OwnsQueue(s, fd) && SizeFits(s, role, fd, size) && role in Self(s).fds[fd].slots
              && (NonBlock in Self(s).fds[fd].slots ==> Room(QueueOf(s, fd), role) != 0)
  {
    if OwnsQueue(s, fd) && role in Self(s).fds[fd].slots { assert SlotOk(s, s.running.value, fd, role); }
  }

  /** The transfer parks the process exactly when there is no room. */
  lemma TransferParksIff(s: State, grant: Grant)
    requires Placed(s) && Alive(s) && InCall(s, s.running.value) && s.running.value !in s.waiting && UsableGrant(grant)
    requires |Payload(Self(s).pc.msg, s.queues[CallQueue(s, s.running.value)].msgSize)| <= MAX_MESSAGE_SIZE
    ensures s.running.value in Transfer(s, grant).waiting <==>
              Room(s.queues[CallQueue(s, s.running.value)], Self(s).pc.role) <= 0
  {
    if Room(s.queues[CallQueue(s, s.running.value)], Self(s).pc.role) <= 0 {
      TransferBlocks(s, grant);
      assert !Linked(s, s.running.value);
    }
  }

  /** The state in which an admitted call makes its first transfer. */
  lemma Admitted(s: State, role: Role, fd: Fd, msg: Bytes, size: int)
    requires EntriesOk(s) && Enabled(s, CallStart(role, fd, msg, size))
    ensures var t := Apply(s, CallStart(role, fd, msg, size));
            && Alive(t) && InCall(t, t.running.value) && OwnsQueue(s, fd) && t.running == s.running
            && t.queues == s.queues && t.waiting == s.waiting
            && CallQueue(t, t.running.value) == Self(s).fds[fd].queue && Self(t).pc.role == role
            && (NonBlock in Self(s).fds[fd].slots ==> Room(QueueOf(s, fd), role) != 0)
  {
    AdmissionIff(s, role, fd, size);
    assert SlotOk(s, s.running.value, fd, role);
  }

  /** A non-blocking call that nobody interrupts between its check and its transfer blocks all the
      same, exactly when the queue holds more messages than its limit: the check compares for
      equality, and the limit can be lowered below the number of messages. */
  lemma NonBlockingBlocksIff(s: State, role: Role, fd: Fd, msg: Bytes, size: int, grant: Grant)
    requires CoreInv(s) && Enabled(s, CallStart(role, fd, msg, size)) && NonBlock in Self(s).fds[fd].slots
    requires Enabled(Apply(s, CallStart(role, fd, msg, size)), TransferStep(grant))
    ensures OwnsQueue(s, fd)
    ensures s.running.value in Apply(Apply(s, CallStart(role, fd, msg, size)), TransferStep(grant)).waiting <==>
              Room(QueueOf(s, fd), role) < 0
  {
    var t := Apply(s, CallStart(role, fd, msg, size));
    Admitted(s, role, fd, msg, size);
    UserIsUnparked(s);
    CallPlaced(s, role, fd, msg, size);
    TrappedParks(t, grant);
  }

  lemma CallPlaced(s: State, role: Role, fd: Fd, msg: Bytes, size: int)
    requires Placed(s) && Enabled(s, CallStart(role, fd, msg, size))
    ensures Placed(Apply(s, CallStart(role, fd, msg, size)))
  {
  }

  lemma TrappedParks(t: State, grant: Grant)
    requires Placed(t) && Enabled(t, TransferStep(grant)) && t.running.value !in t.waiting
    ensures t.running.value in Apply(t, TransferStep(grant)).waiting <==>
              Room(t.queues[CallQueue(t, t.running.value)], Self(t).pc.role) <= 0
  {
    TransferParksIff(Trap(t, OtherCall), grant);
  }
}
