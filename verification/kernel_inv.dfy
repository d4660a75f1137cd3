/** What every reachable kernel state satisfies. */
module KernelInv {
  import opened Seqs
  import opened Constants
  import opened Timers
  import opened Payloads
  import opened KernelModel

  /** Every process is in exactly one place: running, ready, waiting or zombie. The one
      overlap left open here, running and waiting, is settled by `CausesOk`. */
  predicate Placed(s: State) {
    && NoDup(s.ready) && NoDup(s.waiting) && NoDup(s.zombie)
    && (forall p {:trigger p in s.ready} :: p in s.ready ==> p in s.procs && p !in s.waiting && p !in s.zombie)
    && (forall p {:trigger p in s.waiting} :: p in s.waiting ==> p in s.procs && p !in s.zombie)
    && (forall p {:trigger p in s.zombie} :: p in s.zombie ==> p in s.procs)
    && (s.running.Some? ==> s.running.value in s.procs && s.running.value !in s.ready && s.running.value !in s.zombie)
    && (forall p {:trigger p in s.procs} :: p in s.procs ==>
        p in s.ready || p in s.waiting || p in s.zombie || s.running == Some(p))
    && (forall p {:trigger p in s.procs} :: p in s.procs ==> p < s.lastPid)
  }

  /** The process is parked by sleep and by nothing else. */
  predicate Asleep(s: State, p: Pid) {
    && p in s.waiting && p in s.procs && s.running != Some(p)
    && s.procs[p].pc.User? && !s.procs[p].call.Wait? && s.procs[p].status == Waiting
  }

  predicate TimersOk(s: State) {
    && Sorted(s.timers)
    && NoDup(Pids(s.timers))
    && forall p {:trigger p in Pids(s.timers)} :: p in Pids(s.timers) ==> Asleep(s, p)
  }

  predicate StatusOk(s: State) {
    && (forall p {:trigger s.procs[p]} :: p in s.procs ==> (s.procs[p].status == Zombie <==> p in s.zombie))
    && (forall p {:trigger s.procs[p]} :: p in s.procs && s.procs[p].status == Waiting ==> p in s.waiting)
  }

  /** The entry is marked waiting because its process blocked on it. */
  predicate Blocked(s: State, b: Block)
    requires b in s.users
  {
    var u := s.users[b];
    && u.status == Waiting && u.role != NonBlock
    && u.pid in s.procs && u.pid in s.waiting
    && (s.running != Some(u.pid) ==> s.procs[u.pid].status != Waiting)
    && u.fd in s.procs[u.pid].fds && u.role in s.procs[u.pid].fds[u.fd].slots
    && s.procs[u.pid].fds[u.fd].slots[u.role] == b
    && s.procs[u.pid].pc.Calling?
    && s.procs[u.pid].pc.role == u.role && s.procs[u.pid].pc.fd == u.fd
    && (s.procs[u.pid].pc.phase == Yield || s.procs[u.pid].pc.phase == Again)
  }

  /** Lists hold allocated entries of their own queue and role, once each; every slot of a
      live descriptor names such an entry of its own. */
  predicate EntriesOk(s: State) {
    && (forall q, role {:trigger Users(s.queues[q], role)} :: q in s.queues ==> NoDup(Users(s.queues[q], role)))
    && (forall q, role, b {:trigger b in Users(s.queues[q], role)} :: q in s.queues && b in Users(s.queues[q], role) ==>
          b in s.users && s.users[b].queue == q && s.users[b].role == role)
    && (forall p, fd, role {:trigger role in s.procs[p].fds[fd].slots} ::
          p in s.procs && fd in s.procs[p].fds && role in s.procs[p].fds[fd].slots ==>
            SlotOk(s, p, fd, role))
  }

  predicate SlotOk(s: State, p: Pid, fd: Fd, role: Role)
    requires p in s.procs && fd in s.procs[p].fds && role in s.procs[p].fds[fd].slots
  {
    var h := s.procs[p].fds[fd];
    var b := h.slots[role];
    && h.queue in s.queues
    && b in Users(s.queues[h.queue], role)
    && b in s.users
    && s.users[b].pid == p && s.users[b].fd == fd
  }

  predicate BlockedOk(s: State) {
    forall b {:trigger s.users[b]} :: b in s.users && s.users[b].status != Running ==> Blocked(s, b)
  }

  /** A process is where its program counter says it can be. */
  predicate PcOk(s: State, p: Pid)
    requires p in s.procs
  {
    var pr := s.procs[p];
    && (forall fd {:trigger fd in pr.fds} :: fd in pr.fds ==> fd < pr.lastFd)
    && (pr.pc.Opening? ==> pr.pc.fd in pr.fds && pr.fds[pr.pc.fd].slots == map[])
    && (pr.pc.Closing? ==> pr.pc.fd in pr.fds)
    && (pr.pc.Calling? ==>
          && pr.pc.role != NonBlock
          && pr.pc.fd in pr.fds && pr.pc.role in pr.fds[pr.pc.fd].slots
          && (pr.pc.role == Writer ==> |pr.pc.msg| == MAX_MESSAGE_SIZE)
          && (pr.pc.role == Reader ==> pr.pc.msg == []))
    && (pr.status == Zombie ==> pr.pc.User?)
  }

  predicate PcsOk(s: State) {
    forall p {:trigger s.procs[p]} :: p in s.procs ==> PcOk(s, p)
  }

  /** The process is parked by wait and by nothing else. */
  predicate AwaitsChild(s: State, p: Pid) {
    && p in s.waiting && p in s.procs && s.running != Some(p)
    && s.procs[p].pc.User? && s.procs[p].call.Wait? && s.procs[p].status == Waiting
  }

  /** The process is parked because its send or receive found no room. */
  predicate OnQueue(s: State, p: Pid) {
    && p in s.waiting && InCall(s, p)
    && (s.procs[p].pc.phase == Yield || s.procs[p].pc.phase == Again)
    && s.users[CallEntry(s, p)].status == Waiting
  }

  /** A waiting process waits for one thing, and if it is still running it has just
      blocked on a queue that still has no room for it. */
  predicate CausesOk(s: State) {
    && (forall p {:trigger p in s.waiting} :: p in s.waiting ==>
        p in Pids(s.timers) || AwaitsChild(s, p) || OnQueue(s, p))
    && (s.running.Some? && s.running.value in s.waiting ==>
          OnQueue(s, s.running.value)
          && Room(s.queues[CallQueue(s, s.running.value)], s.procs[s.running.value].pc.role) <= 0)
  }

  /** The part of the invariant about processes, lists and queue entries. */
  predicate CoreInv(s: State) {
    Placed(s) && TimersOk(s) && StatusOk(s) && EntriesOk(s) && BlockedOk(s) && PcsOk(s) && CausesOk(s)
  }
}
