/** The core invariant through opening, closing, unlinking and configuring queues. */
module KernelOpen {
  import opened Seqs
  import opened Constants
  import opened Timers
  import opened Payloads
  import opened KernelModel
  import opened KernelRun
  import opened KernelInv
  import opened KernelSched
  import opened KernelIpc

  /** Only the running process, which is in its own code, changes: its result, its
      descriptors and its place. */
  predicate OnlySelf(s: State, t: State)
    requires Alive(s)
  {
    && t == s.(procs := t.procs, queues := t.queues, users := t.users, unlinked := t.unlinked)
    && t.procs.Keys == s.procs.Keys
    && (forall p {:trigger t.procs[p]} :: p in s.procs && p != s.running.value ==> t.procs[p] == s.procs[p])
    && t.procs[s.running.value] == Self(s).(ret := t.procs[s.running.value].ret,
        lastFd := t.procs[s.running.value].lastFd,
                                           fds := t.procs[s.running.value].fds, pc := t.procs[s.running.value].pc)
  }

  lemma OnlySelfLists(s: State, t: State)
    requires Placed(s) && TimersOk(s) && StatusOk(s) && Alive(s) && s.running.value !in s.waiting
    requires OnlySelf(s, t)
    ensures Placed(t) && TimersOk(t) && StatusOk(t)
  {
  }

  lemma OnlySelfPcs(s: State, t: State)
    requires PcsOk(s) && Alive(s) && OnlySelf(s, t) && PcOk(t, s.running.value)
    ensures PcsOk(t)
  {
    forall p | p in t.procs ensures PcOk(t, p) {
      if p != s.running.value { assert PcOk(s, p); }
    }
  }

  /** Entries marked waiting keep their place, and so do the queues they are in. */
  predicate KeepsWaiters(s: State, t: State) {
    && (forall b {:trigger t.users[b]} :: b in t.users && t.users[b].status != Running ==>
        b in s.users && t.users[b] == s.users[b])
    && (forall b {:trigger s.users[b]} :: b in s.users && s.users[b].status != Running ==>
        b in t.users && t.users[b] == s.users[b])
    && (forall b {:trigger s.users[b]} ::
        b in s.users && s.users[b].status != Running && s.users[b].queue in s.queues ==> s.users[b].queue in t.queues)
  }

  lemma OnlySelfCauses(s: State, t: State)
    requires BlockedOk(s) && CausesOk(s) && EntriesOk(s) && PcsOk(s) && Alive(s) && s.running.value !in s.waiting
    requires OnlySelf(s, t) && KeepsWaiters(s, t)
    ensures BlockedOk(t) && CausesOk(t)
  {
    forall b | b in t.users && t.users[b].status != Running ensures Blocked(t, b) {
      assert Blocked(s, b);
    }
    forall p | p in t.waiting ensures p in Pids(t.timers) || AwaitsChild(t, p) || OnQueue(t, p) {
      if OnQueue(s, p) {
        CallFacts(s, p);
        assert s.users[CallEntry(s, p)].status != Running;
      }
    }
  }

  lemma OnlySelfKeeps(s: State, t: State)
    requires CoreInv(s) && Alive(s) && s.running.value !in s.waiting
    requires OnlySelf(s, t) && KeepsWaiters(s, t) && PcOk(t, s.running.value) && EntriesOk(t)
    ensures CoreInv(t)
  {
    OnlySelfLists(s, t);
    OnlySelfPcs(s, t);
    OnlySelfCauses(s, t);
  }

  // Registering.

  lemma RegisterEntries(s: State, fd: Fd, role: Role, b: Block)
    requires EntriesOk(s) && Alive(s) && fd in Self(s).fds && Self(s).fds[fd].queue in s.queues
    requires b !in s.users && role !in Self(s).fds[fd].slots
    ensures EntriesOk(Register(s, fd, role, b))
  {
    var t := Register(s, fd, role, b);
    var me, qid := s.running.value, Self(s).fds[fd].queue;
    var grown := Users(s.queues[qid], role) + [b];
    assert Users(t.queues[qid], role) == grown;
    forall q, r | q in t.queues && !(q == qid && r == role) ensures Users(t.queues[q], r) == Users(s.queues[q], r) {}
    assert b !in Users(s.queues[qid], role);
    NoDupConcat(Users(s.queues[qid], role), [b]);
    forall p, f, r | p in t.procs && f in t.procs[p].fds && r in t.procs[p].fds[f].slots
      ensures SlotOk(t, p, f, r)
    {
      if !(p == me && f == fd && r == role) {
        assert SlotOk(s, p, f, r);
      }
    }
  }

  lemma RegisterKeeps(s: State, fd: Fd, role: Role, b: Block)
    requires CoreInv(s) && Alive(s) && Self(s).pc.User? && fd in Self(s).fds && Self(s).fds[fd].queue in s.queues
    requires b !in s.users && role !in Self(s).fds[fd].slots
    ensures CoreInv(Register(s, fd, role, b))
  {
    UserIsUnparked(s);
    assert PcOk(s, s.running.value);
    RegisterEntries(s, fd, role, b);
    OnlySelfKeeps(s, Register(s, fd, role, b));
  }

  /** Registering the remaining roles, none of which has a slot yet, with fresh blocks. */
  lemma {:induction false} RegisterAllKeeps(s: State, fd: Fd, order: seq<Role>, roles: set<Role>, got: map<Role, Block>)
    requires CoreInv(s) && Alive(s) && Self(s).pc.User? && fd in Self(s).fds && Self(s).fds[fd].queue in s.queues
    requires NoDup(order)
    requires forall i :: 0 <= i < |order| ==> order[i] !in Self(s).fds[fd].slots
    requires forall i :: 0 <= i < |order| && order[i] in got ==> got[order[i]] !in s.users
    requires forall a, b :: a in got && b in got && a != b ==> got[a] != got[b]
    ensures CoreInv(RegisterAll(s, fd, order, roles, got))
    decreases order
  {
    if order == [] {
      ReturnKeeps(s, fd);
    } else if order[0] !in roles {
      RegisterAllKeeps(s, fd, order[1..], roles, got);
    } else if order[0] !in got {
      ReturnKeeps(s, LIST_INSERTION_ERROR);
    } else {
      RegisterKeeps(s, fd, order[0], got[order[0]]);
      var t := Register(s, fd, order[0], got[order[0]]);
      assert Self(t).pc.User? && Self(t).fds[fd].queue in t.queues;
      RegisterAllKeeps(t, fd, order[1..], roles, got);
    }
  }

  lemma NewQueueKeeps(s: State, q: Qid)
    requires CoreInv(s) && Alive(s) && q !in s.queues && s.running.value !in s.waiting
    ensures CoreInv(s.(queues := s.queues[q := NEW_QUEUE]))
  {
    var t := s.(queues := s.queues[q := NEW_QUEUE]);
    NewQueueEntries(s, q);
    assert PcOk(s, s.running.value);
    OnlySelfKeeps(s, t);
  }

  lemma NewQueueEntries(s: State, q: Qid)
    requires EntriesOk(s) && q !in s.queues
    ensures EntriesOk(s.(queues := s.queues[q := NEW_QUEUE]))
  {
    var t := s.(queues := s.queues[q := NEW_QUEUE]);
    forall p, f, r | p in t.procs && f in t.procs[p].fds && r in t.procs[p].fds[f].slots
      ensures SlotOk(t, p, f, r)
    {
      assert SlotOk(s, p, f, r);
    }
  }

  lemma OpenStartKeeps(s: State, q: Qid, roles: set<Role>)
    requires CoreInv(s) && Alive(s) && Self(s).pc.User?
    ensures CoreInv(OpenResource(s, q, roles))
  {
    UserIsUnparked(s);
    assert PcOk(s, s.running.value);
    OpenStartEntries(s, q, roles);
    OnlySelfKeeps(s, OpenResource(s, q, roles));
  }

  lemma OpenStartEntries(s: State, q: Qid, roles: set<Role>)
    requires EntriesOk(s) && PcsOk(s) && Alive(s)
    ensures EntriesOk(OpenResource(s, q, roles))
  {
    var t := OpenResource(s, q, roles);
    assert PcOk(s, s.running.value);
    forall p, f, r | p in t.procs && f in t.procs[p].fds && r in t.procs[p].fds[f].slots
      ensures SlotOk(t, p, f, r)
    {
      assert SlotOk(s, p, f, r);
    }
  }

  /** Giving a descriptor up, after which the process is back in its own code. */
  function DropFd(s: State, fd: Fd, ret: int): State
    requires Alive(s)
  {
    SetSelf(s, Self(s).(fds := Self(s).fds - {fd}, pc := User, ret := ret))
  }

  lemma DropFdKeeps(s: State, fd: Fd, ret: int)
    requires CoreInv(s) && Alive(s) && s.running.value !in s.waiting
    ensures CoreInv(DropFd(s, fd, ret))
  {
    assert PcOk(s, s.running.value);
    DropFdEntries(s, fd, ret);
    OnlySelfKeeps(s, DropFd(s, fd, ret));
  }

  lemma DropFdEntries(s: State, fd: Fd, ret: int)
    requires EntriesOk(s) && Alive(s)
    ensures EntriesOk(DropFd(s, fd, ret))
  {
    var t := DropFd(s, fd, ret);
    forall p, f, r | p in t.procs && f in t.procs[p].fds && r in t.procs[p].fds[f].slots
      ensures SlotOk(t, p, f, r)
    {
      assert SlotOk(s, p, f, r);
    }
  }

  lemma OpenFinishKeeps(s: State, got: map<Role, Block>)
    requires CoreInv(s) && Alive(s) && Self(s).pc.Opening? && Self(s).pc.fd in Self(s).fds
    requires PoolGrants(s, Self(s).pc.roles, got)
    ensures CoreInv(OpenQueue(s, got))
  {
    var q := Self(s).fds[Self(s).pc.fd].queue;
    if q !in s.queues && |s.queues| >= MAX_NUM_QUEUES {
      OpenFailsKeeps(s, got);
    } else {
      OpenSucceedsKeeps(s, got);
    }
  }

  lemma OpenFailsKeeps(s: State, got: map<Role, Block>)
    requires CoreInv(s) && Alive(s) && Self(s).pc.Opening? && Self(s).pc.fd in Self(s).fds
    requires Self(s).fds[Self(s).pc.fd].queue !in s.queues && |s.queues| >= MAX_NUM_QUEUES
    ensures CoreInv(OpenQueue(s, got))
  {
    UserIsUnparked(s);
    OpenFailsForm(s, got);
    DropFdKeeps(s, Self(s).pc.fd, Self(OpenQueue(s, got)).ret);
  }

  lemma OpenFailsForm(s: State, got: map<Role, Block>)
    requires Alive(s) && Self(s).pc.Opening? && Self(s).pc.fd in Self(s).fds
    requires Self(s).fds[Self(s).pc.fd].queue !in s.queues && |s.queues| >= MAX_NUM_QUEUES
    ensures Alive(OpenQueue(s, got))
    ensures OpenQueue(s, got) == DropFd(s, Self(s).pc.fd, Self(OpenQueue(s, got)).ret)
  {
  }

  lemma OpenSucceedsKeeps(s: State, got: map<Role, Block>)
    requires CoreInv(s) && Alive(s) && Self(s).pc.Opening? && Self(s).pc.fd in Self(s).fds
    requires PoolGrants(s, Self(s).pc.roles, got)
    requires !(Self(s).fds[Self(s).pc.fd].queue !in s.queues && |s.queues| >= MAX_NUM_QUEUES)
    ensures CoreInv(OpenQueue(s, got))
  {
    UserIsUnparked(s);
    assert PcOk(s, s.running.value);
    var fd, roles := Self(s).pc.fd, Self(s).pc.roles;
    var done := SetSelf(s, Self(s).(pc := User));
    assert done == Move(s, Self(s).ret, User);
    MoveKeeps(s, Self(s).ret, User);
    OpenRegisters(done, fd, Self(s).fds[fd].queue, roles, got);
  }

  lemma OpenRegisters(s: State, fd: Fd, q: Qid, roles: set<Role>, got: map<Role, Block>)
    requires CoreInv(s) && Alive(s) && Self(s).pc.User? && fd in Self(s).fds
    requires Self(s).fds[fd] == Handle(q, map[])
    requires PoolGrants(s, roles, got)
    ensures var s1 := if q in s.queues then s else s.(queues := s.queues[q := NEW_QUEUE]);
            CoreInv(RegisterAll(s1, fd, ALL_ROLES, roles, got))
  {
    UserIsUnparked(s);
    var s1 := if q in s.queues then s else s.(queues := s.queues[q := NEW_QUEUE]);
    if q !in s.queues { NewQueueKeeps(s, q); }
    RegisterAllKeeps(s1, fd, ALL_ROLES, roles, got);
  }

  // Closing.

  lemma CloseSlotLists(s: State, fd: Fd, role: Role)
    requires EntriesOk(s) && Alive(s) && fd in Self(s).fds
    requires role in Self(s).fds[fd].slots && Self(s).fds[fd].queue in s.queues
    ensures var t := CloseSlot(s, fd, role);
            var qid := Self(s).fds[fd].queue;
            && (forall q, r {:trigger Users(t.queues[q], r)} :: q in t.queues ==>
                  Users(t.queues[q], r) ==
                    if q == qid && r == role then Without(Users(s.queues[q], r), {Self(s).fds[fd].slots[role]})
                    else Users(s.queues[q], r))
            && t.queues.Keys == s.queues.Keys
            && t.users == s.users - {Self(s).fds[fd].slots[role]}
  {
  }

  lemma CloseSlotOthers(s: State, fd: Fd, role: Role, p: Pid, f: Fd, r: Role)
    requires EntriesOk(s) && Alive(s) && fd in Self(s).fds
    requires role in Self(s).fds[fd].slots && Self(s).fds[fd].queue in s.queues
    requires p in s.procs && f in s.procs[p].fds && r in s.procs[p].fds[f].slots
    requires !(p == s.running.value && f == fd && r == role)
    ensures var b := s.procs[p].fds[f].slots[r];
            && SlotOk(s, p, f, r)
            && b != Self(s).fds[fd].slots[role]
  {
    assert SlotOk(s, p, f, r);
    assert SlotOk(s, s.running.value, fd, role);
    assert s.users[s.procs[p].fds[f].slots[r]].role == r;
    assert s.users[Self(s).fds[fd].slots[role]].role == role;
  }

  lemma CloseSlotEntries(s: State, fd: Fd, role: Role)
    requires EntriesOk(s) && Alive(s) && fd in Self(s).fds
    requires role in Self(s).fds[fd].slots && Self(s).fds[fd].queue in s.queues
    ensures EntriesOk(CloseSlot(s, fd, role))
  {
    var t := CloseSlot(s, fd, role);
    CloseSlotLists(s, fd, role);
    CloseSlotTags(s, fd, role);
    forall p, f, r | p in t.procs && f in t.procs[p].fds && r in t.procs[p].fds[f].slots
      ensures SlotOk(t, p, f, r)
    {
      CloseSlotOthers(s, fd, role, p, f, r);
      assert t.procs[p].fds[f].queue == s.procs[p].fds[f].queue;
      assert t.procs[p].fds[f].slots[r] == s.procs[p].fds[f].slots[r];
    }
  }

  lemma CloseSlotTags(s: State, fd: Fd, role: Role)
    requires EntriesOk(s) && Alive(s) && fd in Self(s).fds
    requires role in Self(s).fds[fd].slots && Self(s).fds[fd].queue in s.queues
    ensures var t := CloseSlot(s, fd, role);
            forall q, r, c {:trigger c in Users(t.queues[q], r)} :: q in t.queues && c in Users(t.queues[q], r) ==>
              c in t.users && t.users[c].queue == q && t.users[c].role == r
  {
    var t := CloseSlot(s, fd, role);
    CloseSlotLists(s, fd, role);
    assert SlotOk(s, s.running.value, fd, role);
    forall q, r, c | q in t.queues && c in Users(t.queues[q], r)
      ensures c in t.users && t.users[c].queue == q && t.users[c].role == r
    {
      assert c in Users(s.queues[q], r);
    }
  }

  lemma CloseStepKeeps(s: State)
    requires CoreInv(s) && Alive(s) && Self(s).pc.Closing? && Self(s).pc.fd in Self(s).fds
    ensures CoreInv(CloseStep(s))
  {
    UserIsUnparked(s);
    var fd, k := Self(s).pc.fd, Self(s).pc.done;
    CloseStepForms(s);
    if k < |ALL_ROLES| {
      CloseSlotKeeps(s, fd, ALL_ROLES[k]);
      CloseOn(CloseSlot(s, fd, ALL_ROLES[k]), fd, k + 1);
    } else {
      DropFdKeeps(s, fd, 0);
    }
  }

  lemma CloseStepForms(s: State)
    requires Alive(s) && Self(s).pc.Closing? && Self(s).pc.fd in Self(s).fds
    ensures var fd, k := Self(s).pc.fd, Self(s).pc.done;
            if k < |ALL_ROLES| then
              var c := CloseSlot(s, fd, ALL_ROLES[k]);
              Alive(c) && c.running == s.running && c.waiting == s.waiting && fd in Self(c).fds
              && CloseStep(s) == Move(c, Self(c).ret, Closing(fd, k + 1))
            else CloseStep(s) == DropFd(s, fd, 0)
  {
  }

  lemma CloseOn(s: State, fd: Fd, done: nat)
    requires CoreInv(s) && Alive(s) && s.running.value !in s.waiting && fd in Self(s).fds
    ensures CoreInv(Move(s, Self(s).ret, Closing(fd, done)))
  {
    assert PcOk(s, s.running.value);
    MoveKeeps(s, Self(s).ret, Closing(fd, done));
  }

  lemma CloseSlotKeeps(s: State, fd: Fd, role: Role)
    requires CoreInv(s) && Alive(s) && s.running.value !in s.waiting && fd in Self(s).fds && !Self(s).pc.Opening?
             && !Self(s).pc.Calling?
    ensures CoreInv(CloseSlot(s, fd, role))
  {
    var h := Self(s).fds[fd];
    if role in h.slots && h.queue in s.queues {
      assert PcOk(s, s.running.value);
      assert SlotOk(s, s.running.value, fd, role);
      UnparkedEntries(s, s.running.value);
      CloseSlotEntries(s, fd, role);
      OnlySelfKeeps(s, CloseSlot(s, fd, role));
    }
  }

  // Unlinking.

  lemma WaitingMeansReferenced(s: State, b: Block)
    requires EntriesOk(s) && BlockedOk(s) && b in s.users && s.users[b].status != Running
    ensures Referenced(s, s.users[b].queue)
  {
    var u := s.users[b];
    assert Blocked(s, b);
    assert SlotOk(s, u.pid, u.fd, u.role);
    assert s.procs[u.pid].fds[u.fd].queue == u.queue;
  }

  /** The entries of an unreferenced queue belong to no descriptor, so none is waiting. */
  lemma UnreferencedEntries(s: State, q: Qid, b: Block)
    requires EntriesOk(s) && BlockedOk(s) && q in s.queues && !Referenced(s, q)
    requires b in s.users && s.users[b].queue == q
    ensures s.users[b].status == Running
  {
    if s.users[b].status != Running { WaitingMeansReferenced(s, b); }
  }

  lemma UnlinkEntries(s: State, q: Qid)
    requires EntriesOk(s) && Alive(s) && q in s.queues && !Referenced(s, q)
    ensures EntriesOk(Unlink(s, q))
  {
    var t := Unlink(s, q);
    forall q', r, b | q' in t.queues && b in Users(t.queues[q'], r)
      ensures b in t.users && t.users[b].queue == q' && t.users[b].role == r
    {
      assert b in s.users && s.users[b].queue == q';
      forall r' ensures b !in Users(s.queues[q], r') {}
      assert b !in Users(s.queues[q], Reader) && b !in Users(s.queues[q], Writer) && b !in Users(s.queues[q], NonBlock);
    }
    forall p, f, r | p in t.procs && f in t.procs[p].fds && r in t.procs[p].fds[f].slots
      ensures SlotOk(t, p, f, r)
    {
      assert SlotOk(s, p, f, r);
      assert s.procs[p].fds[f].queue != q;
      assert s.procs[p].fds[f].queue in t.queues;
    }
  }

  lemma UnlinkKeeps(s: State, q: Qid)
    requires CoreInv(s) && Alive(s) && Self(s).pc.User? && q in s.queues
    ensures CoreInv(Unlink(s, q))
  {
    if Referenced(s, q) {
      ReturnKeeps(s, DSOS_ERESOURCEINUSE);
    } else {
      UserIsUnparked(s);
      assert PcOk(s, s.running.value);
      UnlinkEntries(s, q);
      UnlinkWaiters(s, q);
      OnlySelfKeeps(s, Unlink(s, q));
    }
  }

  lemma UnlinkWaiters(s: State, q: Qid)
    requires EntriesOk(s) && BlockedOk(s) && Alive(s) && q in s.queues && !Referenced(s, q)
    ensures OnlySelf(s, Unlink(s, q)) && KeepsWaiters(s, Unlink(s, q))
  {
    UnlinkOnlySelf(s, q);
    UnlinkKeepsWaiters(s, q);
  }

  lemma UnlinkOnlySelf(s: State, q: Qid)
    requires Alive(s) && q in s.queues
    ensures OnlySelf(s, Unlink(s, q))
  {
  }

  lemma UnlinkKeepsWaiters(s: State, q: Qid)
    requires EntriesOk(s) && BlockedOk(s) && Alive(s) && q in s.queues && !Referenced(s, q)
    ensures KeepsWaiters(s, Unlink(s, q))
  {
    WaitersElsewhere(s, q);
  }

  /** Whoever waits does so on another queue. */
  lemma WaitersElsewhere(s: State, q: Qid)
    requires EntriesOk(s) && BlockedOk(s) && Alive(s) && q in s.queues && !Referenced(s, q)
    ensures forall b {:trigger s.users[b]} :: b in s.users && s.users[b].status != Running ==>
              s.users[b].queue != q && b !in s.queues[q].readers && b !in s.queues[q].writers
                  && b !in s.queues[q].nonBlock
  {
    forall b {:trigger s.users[b]} | b in s.users && s.users[b].status != Running ensures s.users[b].queue != q {
      if s.users[b].queue == q { UnreferencedEntries(s, q, b); }
    }
    assert forall b :: b in Users(s.queues[q], Reader) ==> s.users[b].queue == q;
    assert forall b :: b in Users(s.queues[q], Writer) ==> s.users[b].queue == q;
    assert forall b :: b in Users(s.queues[q], NonBlock) ==> s.users[b].queue == q;
  }

  lemma AttributesKeep(s: State, qid: Qid, q: Queue)
    requires CoreInv(s) && Alive(s) && Self(s).pc.User?
    requires qid in s.queues && SameLists(s.queues[qid], q)
    ensures CoreInv(s.(queues := s.queues[qid := q]))
  {
    UserIsUnparked(s);
    ContentsKeep(s, qid, q);
  }
}
