/** The kernel as a state machine: the global variables of disastrOS.c, the process
    control blocks and the message queues, and one function per system call. A system
    call runs with the timer signal masked, so each is one atomic step. */
module KernelModel {
  import opened Seqs
  import opened Constants
  import opened Timers
  import opened Payloads

  type Qid = int       // a queue, named by its resource id

  datatype Status = Running | Ready | Waiting | Zombie

  /** The three user lists of a queue, and the three slots of a descriptor. */
  datatype Role = Reader | Writer | NonBlock

  /** A queue entry. `fd`, `queue` and `role` are not stored by the program; they record
      which descriptor slot the block was allocated for. */
  datatype QueueUser = QueueUser(pid: Pid, status: Status, fd: Fd, queue: Qid, role: Role)

  /** What a descriptor of a queue gives access to: the queue and the `rwn` slots. */
  datatype Handle = Handle(queue: Qid, slots: map<Role, Block>)

  /** A queued message: the 128-byte string block and the length to copy. */
  datatype Message = Message(block: Bytes, len: int)

  /** A queue. `sent` and `delivered` record what senders put in and what receivers got. */
  datatype Queue = Queue(
    messages: seq<Message>,
    readers: seq<Block>, writers: seq<Block>, nonBlock: seq<Block>,
    maxMessages: int, msgSize: int,
    sent: seq<Bytes>, delivered: seq<Bytes>)

  /** Where a process stands in its own code. `Calling` is the inside of dmq_receive (role
      Reader) and dmq_send (role Writer): before the first system call, after one that
      returned without a transfer, back from the preemption that follows, and between the
      successful transfer and the wake-up call. `size` is the buffer size that a receive was
      given, and the message length that a send was given. */
  datatype Phase = First | Yield | Again | Wake
  datatype Pc =
    | User
    | Opening(fd: Fd, roles: set<Role>)
    | Closing(fd: Fd, done: nat)
    | Calling(role: Role, fd: Fd, phase: Phase, msg: Bytes, size: int)

  /** The system call a process made last, with the argument of wait. */
  datatype Call = NoCall | Wait(pid: int) | OtherCall

  datatype Proc = Proc(
    status: Status, parent: Option<Pid>, children: seq<Pid>,
    value: int, call: Call, ret: int,
    lastFd: nat, fds: map<Fd, Handle>, pc: Pc)

  /** One exit value handed to a parent. Its entry for the child was a PCBPtr block; wait frees
      it, exit takes it out of the list and leaves it. */
  datatype Report = Report(parent: Pid, child: Pid, value: int, freed: bool)

  /** The whole kernel. `reports` and `exits` record what wait handed out and what the
      processes passed to exit; `orphans` are the queues on which a reaped process left a
      descriptor behind; `unlinked` are the queues that were destroyed. */
  datatype State = State(
    running: Option<Pid>,
    ready: seq<Pid>, waiting: seq<Pid>, zombie: seq<Pid>,
    timers: seq<Timer>, time: int,
    procs: map<Pid, Proc>, lastPid: Pid,
    queues: map<Qid, Queue>, users: map<Block, QueueUser>,
    reports: seq<Report>, exits: map<Pid, int>,
    orphans: set<Qid>, unlinked: set<Qid>)

  const NEW_PROC := Proc(Ready, None, [], 0, NoCall, 0, 0, map[], User)

  const NEW_QUEUE := Queue([], [], [], [], MAX_NUM_MESSAGES_PER_QUEUE, MAX_MESSAGE_SIZE, [], [])

  /** The state in which disastrOS_start enters the first process. */
  const BOOT := State(
    Some(0), [], [], [], [], 0,
    map[0 := NEW_PROC.(status := Running)], 1,
    map[], map[], [], map[], {}, {})

  /** How many of the reported children had their PCBPtr block freed. */
  function Freed(reports: seq<Report>): (n: nat)
    ensures n <= |reports|
  {
    if reports == [] then 0
    else Freed(reports[..|reports| - 1]) + if reports[|reports| - 1].freed then 1 else 0
  }

  /** The PCBPtr blocks that are out: one for each spawn, less those that wait has freed. */
  function PointersOut(s: State): int {
    s.lastPid - 1 - Freed(s.reports)
  }

  /** Some process is running; otherwise the system has stopped. */
  predicate Alive(s: State) {
    s.running.Some? && s.running.value in s.procs
  }

  function Self(s: State): Proc
    requires Alive(s)
  {
    s.procs[s.running.value]
  }

  function SetSelf(s: State, pr: Proc): State
    requires Alive(s)
  {
    s.(procs := s.procs[s.running.value := pr])
  }

  /** The result register of the running process. */
  function Return(s: State, ret: int): State
    requires Alive(s)
  {
    SetSelf(s, Self(s).(ret := ret))
  }

  function SetStatus(procs: map<Pid, Proc>, p: Pid, status: Status): (r: map<Pid, Proc>)
    ensures r.Keys == procs.Keys
  {
    if p in procs then procs[p := procs[p].(status := status)] else procs
  }

  function WithStatus(procs: map<Pid, Proc>, ps: set<Pid>, status: Status): (r: map<Pid, Proc>)
    ensures r.Keys == procs.Keys
  {
    map p | p in procs :: if p in ps then procs[p].(status := status) else procs[p]
  }

  // Lists of processes.

  /** The process has a neighbour in the list it is in: what List_insert tests. */
  predicate Linked(s: State, p: Pid) {
    || (p in s.ready && |s.ready| >= 2)
    || (p in s.waiting && |s.waiting| >= 2)
    || (p in s.zombie && |s.zombie| >= 2)
  }

  /** The running process goes to the end of the waiting list, unless it is linked. */
  function Park(s: State): State
    requires Alive(s)
  {
    var p := s.running.value;
    s.(procs := SetStatus(s.procs, p, Waiting),
       waiting := if Linked(s, p) then s.waiting else s.waiting + [p])
  }

  /** The head of the ready list becomes the running process; its status is not touched. */
  function TakeNext(s: State): State {
    if s.ready == [] then s.(running := None)
    else s.(running := Some(s.ready[0]), ready := s.ready[1..])
  }

  // disastrOS_schedule.c

  /** Every sleeper whose timer is due moves to the front of the ready list, in the order
      of the timers. */
  function WakeDue(s: State): State {
    var due := Due(s.timers, s.time);
    s.(waiting := Without(s.waiting, Elems(due)),
       ready := due + s.ready,
       timers := NotDue(s.timers, s.time),
       procs := WithStatus(s.procs, Elems(due), Ready))
  }

  /** The head of the ready list runs; the process that ran goes to the end of the list,
      unless it is linked. */
  function Rotate(s: State): State
    requires s.running.Some?
  {
    if s.ready == [] then s
    else
      var prev, next := s.running.value, s.ready[0];
      var popped := s.(ready := s.ready[1..]);
      popped.(
        ready := if Linked(popped, prev) then popped.ready else popped.ready + [prev],
        running := Some(next),
        procs := SetStatus(SetStatus(s.procs, prev, Ready), next, Running))
  }

  function Schedule(s: State): State
    requires s.running.Some?
  {
    Rotate(WakeDue(s))
  }

  // disastrOS_sleep.c, disastrOS_wait.c, disastrOS_exit.c, disastrOS_spawn.c

  function SleepFor(s: State, cycles: int): State
    requires Alive(s)
  {
    if |s.timers| >= MAX_NUM_PROCESSES then Return(s, DSOS_ESLEEP)
    else TakeNext(Park(s.(timers := AddTimer(s.timers, Timer(s.time + cycles, s.running.value)))))
  }

  function StatusOf(s: State, p: Pid): Option<Status> {
    if p in s.procs then Some(s.procs[p].status) else None
  }

  /** The scan of internal_wait stops at the first zombie (pid 0) or at the given pid, and
      is left on the last child when there is none. */
  function Awaited(s: State, children: seq<Pid>, pid: int): Pid
    requires children != []
  {
    var c := children[0];
    if pid == 0 && StatusOf(s, c) == Some(Zombie) then c
    else if pid != 0 && c == pid then c
    else if |children| == 1 then c
    else Awaited(s, children[1..], pid)
  }

  function QueuesOf(pr: Proc): set<Qid> {
    set fd | fd in pr.fds :: pr.fds[fd].queue
  }

  /** The running process takes the exit value of a zombie child and frees it. */
  function Reap(s: State, c: Pid): State
    requires Alive(s) && c in s.procs
  {
    var p := s.running.value;
    s.(procs := s.procs[p := Self(s).(children := Without(Self(s).children, {c}), ret := c)] - {c},
       zombie := Without(s.zombie, {c}),
       reports := s.reports + [Report(p, c, s.procs[c].value, true)],
       orphans := s.orphans + QueuesOf(s.procs[c]))
  }

  function WaitFor(s: State, pid: int): State
    requires Alive(s)
  {
    if Self(s).children == [] then Return(s, DSOS_EWAIT)
    else
      var c := Awaited(s, Self(s).children, pid);
      if StatusOf(s, c) == Some(Zombie) then Reap(s, c) else TakeNext(Park(s))
  }

  /** The first half of internal_exit: record the value, hand the children to init (their
      own parent pointers stay), become a zombie. */
  function BecomeZombie(s: State, value: int): State
    requires Alive(s)
  {
    var p := s.running.value;
    var orphaned := Self(s).children;
    var procs1 := s.procs[p := Self(s).(children := [], value := value, status := Zombie)];
    var procs2 := if 0 in procs1 then procs1[0 := procs1[0].(children := procs1[0].children + orphaned)] else procs1;
    s.(procs := procs2,
       zombie := if Linked(s, p) then s.zombie else s.zombie + [p],
       exits := s.exits[p := value])
  }

  /** The parent is parked in a wait that this exit ends. */
  predicate ParentWaits(s: State, parent: Pid, child: Pid) {
    && parent in s.procs
    && s.procs[parent].status == Waiting
    && s.procs[parent].call.Wait?
    && (s.procs[parent].call.pid == 0 || s.procs[parent].call.pid == child)
  }

  /** The entries that the descriptors of a process name. */
  function HeldBlocks(pr: Proc): set<Block> {
    set fd, role | fd in pr.fds && role in pr.fds[fd].slots :: pr.fds[fd].slots[role]
  }

  function DropEntries(q: Queue, gone: set<Block>): Queue {
    q.(readers := Without(q.readers, gone), writers := Without(q.writers, gone), nonBlock := Without(q.nonBlock, gone))
  }

  /** The exiting process reports straight to its waiting parent, which runs next. Its
      timers, its queue entries and its descriptors go; the entries' blocks stay out. */
  function HandOver(s: State, parent: Pid): State
    requires Alive(s) && parent in s.procs
  {
    var p := s.running.value;
    var held := HeldBlocks(Self(s));
    s.(waiting := Without(s.waiting, {parent}),
       zombie := Without(s.zombie, {p}),
       timers := DropTimers(s.timers, p),
       queues := map q | q in s.queues :: DropEntries(s.queues[q], held),
       procs := s.procs[parent :=
           s.procs[parent].(status := Running, children := Without(s.procs[parent].children, {p}), ret := p)] - {p},
       reports := s.reports + [Report(parent, p, Self(s).value, false)],
       running := Some(parent))
  }

  function Exit(s: State, value: int): State
    requires Alive(s) && Self(s).parent.Some?
  {
    var parent := Self(s).parent.value;
    var z := BecomeZombie(s, value);
    if ParentWaits(z, parent, s.running.value) then HandOver(z, parent)
    else
      var n := TakeNext(z);
      if n.running.Some? then n.(procs := SetStatus(n.procs, n.running.value, Running)) else n
  }

  function Spawn(s: State): State
    requires Alive(s)
  {
    var p, c := s.running.value, s.lastPid;
    s.(procs := s.procs[p := Self(s).(children := Self(s).children + [c], ret := c)][c := NEW_PROC.(parent := Some(p))],
       ready := s.ready + [c],
       lastPid := c + 1)
  }

  // Queues.

  function Users(q: Queue, role: Role): seq<Block> {
    match role
    case Reader => q.readers
    case Writer => q.writers
    case NonBlock => q.nonBlock
  }

  function WithUsers(q: Queue, role: Role, users: seq<Block>): (r: Queue)
    ensures Users(r, role) == users
    ensures forall other :: other != role ==> Users(r, other) == Users(q, other)
    ensures r.messages == q.messages && r.maxMessages == q.maxMessages && r.msgSize == q.msgSize
    ensures r.sent == q.sent && r.delivered == q.delivered
  {
    match role
    case Reader => q.(readers := users)
    case Writer => q.(writers := users)
    case NonBlock => q.(nonBlock := users)
  }

  function Opposite(role: Role): Role {
    match role
    case Reader => Writer
    case Writer => Reader
    case NonBlock => NonBlock
  }

  /** How many calls of a role the queue could serve right now: messages for a reader,
      free places for a writer. */
  function Room(q: Queue, role: Role): int {
    match role
    case Reader => |q.messages|
    case Writer => q.maxMessages - |q.messages|
    case NonBlock => 0
  }

  /** disastrOS_queue.c: the checks at the start of dmq_receive and dmq_send. `size` is the
      buffer size of a receive and the message length of a send. */
  function Admission(s: State, role: Role, fd: Fd, size: int): int
    requires Alive(s)
  {
    var fds := Self(s).fds;
    if fd !in fds || fds[fd].queue !in s.queues then INVALID_FD
    else
      var h := fds[fd];
      var q := s.queues[h.queue];
      if role == Reader && q.msgSize > size then BUFFER_TOO_SMALL
      else if role == Writer && q.msgSize < size then MSG_TOO_BIG
      else if !(role in h.slots && h.slots[role] in Users(q, role)) then ACTION_NOT_ALLOWED
      else if NonBlock in h.slots
          && (if role == Reader then |q.messages| == 0 else |q.messages| == q.maxMessages) then EAGAIN
      else 0
  }

  /** A process inside a call has the descriptor and the slot it uses. */
  predicate InCall(s: State, p: Pid) {
    && p in s.procs
    && s.procs[p].pc.Calling?
    && s.procs[p].pc.role != NonBlock
    && s.procs[p].pc.fd in s.procs[p].fds
    && s.procs[p].pc.role in s.procs[p].fds[s.procs[p].pc.fd].slots
    && s.procs[p].fds[s.procs[p].pc.fd].queue in s.queues
    && s.procs[p].fds[s.procs[p].pc.fd].slots[s.procs[p].pc.role] in s.users
  }

  function CallQueue(s: State, p: Pid): Qid
    requires InCall(s, p)
  {
    s.procs[p].fds[s.procs[p].pc.fd].queue
  }

  function CallEntry(s: State, p: Pid): Block
    requires InCall(s, p)
  {
    s.procs[p].fds[s.procs[p].pc.fd].slots[s.procs[p].pc.role]
  }

  function SetPhase(s: State, phase: Phase): State
    requires Alive(s) && Self(s).pc.Calling?
  {
    SetSelf(s, Self(s).(pc := Self(s).pc.(phase := phase)))
  }

  /** disastrOS_receive_msg.c and disastrOS_send_msg.c, the transfer itself. `garbage` is
      the former contents of the string block that the sender is given. */
  function Exchange(q: Queue, role: Role, msg: Bytes, garbage: Bytes): Queue
    requires role == Reader ==> q.messages != []
    requires role == Writer ==> |Payload(msg, q.msgSize)| <= |garbage|
  {
    match role
    case Reader =>
      q.(messages := q.messages[1..],
         delivered := q.delivered + [Payload(q.messages[0].block, q.messages[0].len)])
    case Writer =>
      var p := Payload(msg, q.msgSize);
      q.(messages := q.messages + [Message(Overwritten(garbage, p), q.msgSize)],
         sent := q.sent + [p])
    case NonBlock => q
  }

  /** The outcome of asking the message pools for a block: its old contents, or nothing. */
  type Grant = Option<Bytes>

  predicate UsableGrant(g: Grant) {
    g.Some? ==> |g.value| == MAX_MESSAGE_SIZE
  }

  /** internal_recvMessage and internal_sendMessage for the running process. */
  function Transfer(s: State, grant: Grant): State
    requires Alive(s) && InCall(s, s.running.value)
    requires UsableGrant(grant)
    requires |Payload(Self(s).pc.msg, s.queues[CallQueue(s, s.running.value)].msgSize)| <= MAX_MESSAGE_SIZE
  {
    var p := s.running.value;
    var role, qid, entry := Self(s).pc.role, CallQueue(s, p), CallEntry(s, p);
    var failure := if role == Reader then DSOS_NO_MSG_RECEIVED else DSOS_NO_MSG_SENT;
    if Room(s.queues[qid], role) <= 0 then
      SetPhase(Return(Park(s.(users := s.users[entry := s.users[entry].(status := Waiting)])), failure), Yield)
    else if role == Writer && grant.None? then
      SetPhase(Return(s, failure), Yield)
    else
      var q := Exchange(s.queues[qid], role, Self(s).pc.msg, if grant.Some? then grant.value else []);
      SetPhase(Return(s.(queues := s.queues[qid := q]), 0), Wake)
  }

  // disastrOS_wake_queue.c

  /** The first entry that is marked waiting and whose process is in the waiting list. */
  function FirstWaiter(s: State, entries: seq<Block>): (r: Option<Block>)
    ensures r.Some? ==> r.value in entries && r.value in s.users
                        && s.users[r.value].status == Waiting && s.users[r.value].pid in s.waiting
    ensures r.None? ==> forall b :: b in entries && b in s.users && s.users[b].status == Waiting ==>
            s.users[b].pid !in s.waiting
  {
    if entries == [] then None
    else if entries[0] in s.users && s.users[entries[0]].status == Waiting && s.users[entries[0]].pid in s.waiting
    then Some(entries[0])
    else FirstWaiter(s, entries[1..])
  }

  predicate WakeupFlagRecv(q: Queue) {
    |q.messages| < q.maxMessages && |q.writers| > 0
  }

  predicate WakeupFlagSend(q: Queue) {
    |q.messages| > 0 && |q.readers| > 0
  }

  /** One waiting user of the given side moves to the end of the ready list. */
  function WakeUser(s: State, b: Block): State
    requires b in s.users
  {
    var p := s.users[b].pid;
    s.(users := s.users[b := s.users[b].(status := Running)],
       waiting := Without(s.waiting, {p}),
       ready := s.ready + [p])
  }

  /** internal_wakeUpQueue after a receive (wakes a writer) or a send (wakes a reader). */
  function WakeUpQueue(s: State): State
    requires Alive(s) && InCall(s, s.running.value)
  {
    var role := Self(s).pc.role;
    var q := s.queues[CallQueue(s, s.running.value)];
    var flag := if role == Reader then WakeupFlagRecv(q) else WakeupFlagSend(q);
    var waiter := FirstWaiter(s, Users(q, Opposite(role)));
    var s' := if flag && waiter.Some? then WakeUser(s, waiter.value) else s;
    SetSelf(s', Self(s').(ret := 0, pc := User))
  }

  // disastrOS_open_queue.c, disastrOS_resource.c: Queue_add_pid; disastrOS_queue.c: dmq_close

  /** One user entry is allocated, appended to its list and named by the descriptor. */
  function Register(s: State, fd: Fd, role: Role, b: Block): State
    requires Alive(s) && fd in Self(s).fds && Self(s).fds[fd].queue in s.queues
  {
    var p, h := s.running.value, Self(s).fds[fd];
    var q := s.queues[h.queue];
    SetSelf(s, Self(s).(fds := Self(s).fds[fd := h.(slots := h.slots[role := b])]))
      .(users := s.users[b := QueueUser(p, Running, fd, h.queue, role)],
        queues := s.queues[h.queue := WithUsers(q, role, Users(q, role) + [b])])
  }

  /** Queue_add_pid: the lists named by the mode, in order; it stops at the first list for
      which the pool has no block. */
  function RegisterAll(s: State, fd: Fd, order: seq<Role>, roles: set<Role>, got: map<Role, Block>): State
    requires Alive(s) && fd in Self(s).fds && Self(s).fds[fd].queue in s.queues
    decreases order
  {
    if order == [] then Return(s, fd)
    else if order[0] !in roles then RegisterAll(s, fd, order[1..], roles, got)
    else if order[0] !in got then Return(s, LIST_INSERTION_ERROR)
    else RegisterAll(Register(s, fd, order[0], got[order[0]]), fd, order[1..], roles, got)
  }

  const ALL_ROLES := [Reader, Writer, NonBlock]

  /** Some descriptor refers to the queue. */
  predicate Referenced(s: State, q: Qid) {
    q in s.orphans || exists p, fd :: p in s.procs && fd in s.procs[p].fds && s.procs[p].fds[fd].queue == q
  }

  /** internal_openQueue on the descriptor that internal_openResource has just made. When
      no queue can be allocated the descriptor is closed again. */
  function OpenQueue(s: State, got: map<Role, Block>): State
    requires Alive(s) && Self(s).pc.Opening? && Self(s).pc.fd in Self(s).fds
  {
    var fd, roles := Self(s).pc.fd, Self(s).pc.roles;
    var q := Self(s).fds[fd].queue;
    var done := SetSelf(s, Self(s).(pc := User));
    if q !in s.queues && |s.queues| >= MAX_NUM_QUEUES then
      var closed := SetSelf(done, Self(done).(fds := Self(done).fds - {fd}));
      Return(closed, if Referenced(closed, q) then DSOS_ERESOURCEINUSE else DSOS_EQUEUEOPEN)
    else
      var s1 := if q in s.queues then done else done.(queues := done.queues[q := NEW_QUEUE]);
      RegisterAll(s1, fd, ALL_ROLES, roles, got)
  }

  /** The first half of dmq_open: internal_openResource adds a descriptor. */
  function OpenResource(s: State, q: Qid, roles: set<Role>): State
    requires Alive(s)
  {
    var fd := Self(s).lastFd;
    SetSelf(s, Self(s).(lastFd := fd + 1, fds := Self(s).fds[fd := Handle(q, map[])], pc := Opening(fd, roles),
        ret := fd))
  }

  /** dmq_close takes the entries out one after the other and frees them. The slot keeps
      the stale address until the descriptor goes; nothing reads it, so it is cleared. */
  function CloseSlot(s: State, fd: Fd, role: Role): State
    requires Alive(s) && fd in Self(s).fds
  {
    var h := Self(s).fds[fd];
    if role in h.slots && h.queue in s.queues then
      var b, q := h.slots[role], s.queues[h.queue];
      SetSelf(s, Self(s).(fds := Self(s).fds[fd := h.(slots := h.slots - {role})]))
        .(users := s.users - {b},
          queues := s.queues[h.queue := WithUsers(q, role, Without(Users(q, role), {b}))])
    else s
  }

  function CloseStep(s: State): State
    requires Alive(s) && Self(s).pc.Closing? && Self(s).pc.fd in Self(s).fds
  {
    var fd, k := Self(s).pc.fd, Self(s).pc.done;
    if k < |ALL_ROLES| then
      var c := CloseSlot(s, fd, ALL_ROLES[k]);
      SetSelf(c, Self(c).(pc := Closing(fd, k + 1)))
    else
      SetSelf(s, Self(s).(fds := Self(s).fds - {fd}, pc := User, ret := 0))
  }

  /** dmq_unlink of a queue: refused while a descriptor refers to it; its entries are freed. */
  function Unlink(s: State, q: Qid): State
    requires Alive(s) && q in s.queues
  {
    if Referenced(s, q) then Return(s, DSOS_ERESOURCEINUSE)
    else
      var gone := Elems(s.queues[q].readers) + Elems(s.queues[q].writers) + Elems(s.queues[q].nonBlock);
      Return(s, 0).(queues := s.queues - {q}, users := s.users - gone, unlinked := s.unlinked + {q})
  }

  /** dmq_setattr for the maximal number of messages. */
  function SetMax(s: State, q: Qid, newVal: int): (r: (State, int))
    requires q in s.queues
  {
    if newVal > MAX_NUM_MESSAGES_PER_QUEUE then (s, INVALID_VALUE)
    else (s.(queues := s.queues[q := s.queues[q].(maxMessages := newVal)]), 0)
  }

  /** dmq_setattr for the message size: only while the queue is empty. */
  function SetMsgSize(s: State, q: Qid, newVal: int): (r: (State, int))
    requires q in s.queues
  {
    if |s.queues[q].messages| > 0 then (s, OPERATION_NOT_AVAILABLE)
    else (s.(queues := s.queues[q := s.queues[q].(msgSize := newVal)]), 0)
  }
}
