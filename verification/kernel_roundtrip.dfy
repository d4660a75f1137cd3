/** dmq_close undoes dmq_open, when nobody comes in between. */
module KernelRoundTrip {
  import opened Seqs
  import opened Constants
  import opened Timers
  import opened Payloads
  import opened KernelModel
  import opened KernelRun
  import opened KernelInv
  import opened KernelOpen

  /** The block that a list of the queue has for the descriptor. */
  function Entry(reg: map<Role, Block>, role: Role): seq<Block> {
    if role in reg then [reg[role]] else []
  }

  function Joined(q: Queue, reg: map<Role, Block>): Queue {
    q.(readers := q.readers + Entry(reg, Reader), writers := q.writers + Entry(reg, Writer),
       nonBlock := q.nonBlock + Entry(reg, NonBlock))
  }

  predicate Apart(reg: map<Role, Block>) {
    forall a, b {:trigger reg[a], reg[b]} :: a in reg && b in reg && a != b ==> reg[a] != reg[b]
  }

  /** The blocks that a descriptor of the process holds. */
  function Held(p: Pid, fd: Fd, q: Qid, reg: map<Role, Block>): map<Block, QueueUser>
    requires Apart(reg)
  {
    map r | r in reg :: reg[r] := QueueUser(p, Running, fd, q, r)
  }

  /** `s` with descriptor `fd` of the running process, whose slots name the blocks in `reg`. */
  function Holding(s: State, pr: Proc, fd: Fd, q: Qid, reg: map<Role, Block>): State
    requires Alive(s) && q in s.queues && Apart(reg)
  {
    var p := s.running.value;
    s.(procs := s.procs[p := pr.(fds := pr.fds[fd := Handle(q, reg)])],
       users := s.users + Held(p, fd, q, reg),
       queues := s.queues[q := Joined(s.queues[q], reg)])
  }

  lemma HeldMore(users: map<Block, QueueUser>, p: Pid, fd: Fd, q: Qid, reg: map<Role, Block>, role: Role, b: Block)
    requires role !in reg && Apart(reg[role := b]) && Apart(reg)
    ensures (users + Held(p, fd, q, reg))[b := QueueUser(p, Running, fd, q, role)] ==
              users + Held(p, fd, q, reg[role := b])
  {
    var more := reg[role := b];
    var h, m := Held(p, fd, q, reg), Held(p, fd, q, more);
    assert forall r :: r in reg ==> more[r] == reg[r];
    assert more[role] == b && m.Keys == h.Keys + {b};
  }

  lemma HeldLess(users: map<Block, QueueUser>, p: Pid, fd: Fd, q: Qid, reg: map<Role, Block>, role: Role)
    requires role in reg && Apart(reg) && Apart(reg - {role}) && reg[role] !in users
    ensures users + Held(p, fd, q, reg) - {reg[role]} == users + Held(p, fd, q, reg - {role})
  {
    var less := reg - {role};
    var h, m := Held(p, fd, q, reg), Held(p, fd, q, less);
    assert forall r :: r in less ==> less[r] == reg[r] && reg[r] != reg[role];
    assert m.Keys == h.Keys - {reg[role]};
  }

  lemma Twice<K, V>(m: map<K, V>, k: K, a: V, b: V)
    ensures m[k := a][k := b] == m[k := b]
  {
  }

  lemma RegisterMore(s: State, pr: Proc, fd: Fd, q: Qid, reg: map<Role, Block>, role: Role, b: Block)
    requires Alive(s) && q in s.queues && role !in reg && Apart(reg[role := b]) && Apart(reg)
    ensures Register(Holding(s, pr, fd, q, reg), fd, role, b) == Holding(s, pr, fd, q, reg[role := b])
  {
    var p, more := s.running.value, reg[role := b];
    HeldMore(s.users, p, fd, q, reg, role, b);
    JoinedMore(s.queues[q], reg, role, b);
    Twice(s.queues, q, Joined(s.queues[q], reg), Joined(s.queues[q], more));
    Twice(pr.fds, fd, Handle(q, reg), Handle(q, more));
    Twice(s.procs, p, pr.(fds := pr.fds[fd := Handle(q, reg)]), pr.(fds := pr.fds[fd := Handle(q, more)]));
  }

  lemma JoinedMore(q: Queue, reg: map<Role, Block>, role: Role, b: Block)
    requires role !in reg
    ensures WithUsers(Joined(q, reg), role, Users(Joined(q, reg), role) + [b]) == Joined(q, reg[role := b])
  {
    assert Users(q, role) + [] == Users(q, role);
  }

  lemma JoinedLess(q: Queue, reg: map<Role, Block>, role: Role)
    requires role in reg && reg[role] !in Users(q, role)
    ensures WithUsers(Joined(q, reg), role, Without(Users(Joined(q, reg), role), {reg[role]})) ==
              Joined(q, reg - {role})
  {
    var b, xs := reg[role], Users(q, role);
    assert (xs + [b])[|xs|] == b;
    LastGone(xs, b);
    assert xs + [] == xs;
  }

  lemma {:induction false} LastGone(xs: seq<Block>, b: Block)
    requires b !in xs
    ensures Without(xs + [b], {b}) == xs
  {
    if xs != [] {
      assert xs[0] in xs && (xs + [b])[1..] == xs[1..] + [b];
      LastGone(xs[1..], b);
    }
  }

  lemma CloseLess(s: State, pr: Proc, fd: Fd, q: Qid, reg: map<Role, Block>, role: Role)
    requires Alive(s) && q in s.queues && Apart(reg) && Apart(reg - {role})
    requires role in reg ==> reg[role] !in Users(s.queues[q], role) && reg[role] !in s.users
    ensures CloseSlot(Holding(s, pr, fd, q, reg), fd, role) == Holding(s, pr, fd, q, reg - {role})
  {
    var p, less := s.running.value, reg - {role};
    if role in reg {
      HeldLess(s.users, p, fd, q, reg, role);
      JoinedLess(s.queues[q], reg, role);
      Twice(s.queues, q, Joined(s.queues[q], reg), Joined(s.queues[q], less));
      Twice(pr.fds, fd, Handle(q, reg), Handle(q, less));
      Twice(s.procs, p, pr.(fds := pr.fds[fd := Handle(q, reg)]), pr.(fds := pr.fds[fd := Handle(q, less)]));
    } else {
      assert less == reg;
    }
  }

  // Opening.

  lemma ReturnHolding(s: State, pr: Proc, fd: Fd, q: Qid, reg: map<Role, Block>, ret: int)
    requires Alive(s) && q in s.queues && Apart(reg)
    ensures Return(Holding(s, pr, fd, q, reg), ret) == Holding(s, pr.(ret := ret), fd, q, reg)
  {
    var now := pr.(fds := pr.fds[fd := Handle(q, reg)]);
    Twice(s.procs, s.running.value, now, now.(ret := ret));
  }

  /** The slots after one section of Queue_add_pid. */
  function Slots(reg: map<Role, Block>, role: Role, got: map<Role, Block>): map<Role, Block> {
    if role in got then reg[role := got[role]] else reg
  }

  predicate Part(reg: map<Role, Block>, got: map<Role, Block>) {
    forall r {:trigger reg[r]} :: r in reg ==> r in got && reg[r] == got[r]
  }

  lemma PartApart(reg: map<Role, Block>, got: map<Role, Block>)
    requires Apart(got) && Part(reg, got)
    ensures Apart(reg)
  {
  }

  lemma SlotsPart(reg: map<Role, Block>, role: Role, got: map<Role, Block>)
    requires Part(reg, got)
    ensures Part(Slots(reg, role, got), got)
  {
  }

  lemma OneSection(s: State, pr: Proc, fd: Fd, q: Qid, reg: map<Role, Block>, role: Role, rest: seq<Role>,
      got: map<Role, Block>)
    requires Alive(s) && q in s.queues && role !in reg && Apart(reg) && Apart(Slots(reg, role, got))
    ensures RegisterAll(Holding(s, pr, fd, q, reg), fd, [role] + rest, got.Keys, got) ==
              RegisterAll(Holding(s, pr, fd, q, Slots(reg, role, got)), fd, rest, got.Keys, got)
  {
    assert ([role] + rest)[1..] == rest;
    if role in got { RegisterMore(s, pr, fd, q, reg, role, got[role]); }
  }

  /** The slots after the first `k` sections. */
  function UpTo(k: nat, got: map<Role, Block>): map<Role, Block>
    requires k <= 3
  {
    if k == 0 then map[] else Slots(UpTo(k - 1, got), ALL_ROLES[k - 1], got)
  }

  lemma {:induction false} UpToPart(k: nat, got: map<Role, Block>)
    requires k <= 3
    ensures Part(UpTo(k, got), got)
    ensures forall i {:trigger ALL_ROLES[i]} :: 0 <= i < 3 ==>
              (ALL_ROLES[i] in UpTo(k, got) <==> i < k && ALL_ROLES[i] in got)
  {
    if k > 0 {
      UpToPart(k - 1, got);
      SlotsPart(UpTo(k - 1, got), ALL_ROLES[k - 1], got);
    }
  }

  lemma UpToAll(got: map<Role, Block>)
    ensures UpTo(3, got) == got
  {
    UpToPart(3, got);
    forall r: Role | r in got ensures r in UpTo(3, got) {
      assert r == ALL_ROLES[0] || r == ALL_ROLES[1] || r == ALL_ROLES[2];
    }
  }

  lemma {:induction false} SectionsFrom(s: State, pr: Proc, fd: Fd, q: Qid, k: nat, got: map<Role, Block>)
    requires Alive(s) && q in s.queues && Apart(got) && k <= 3
    ensures Apart(UpTo(k, got))
    ensures RegisterAll(Holding(s, pr, fd, q, UpTo(k, got)), fd, ALL_ROLES[k..], got.Keys, got) ==
              Holding(s, pr.(ret := fd), fd, q, got)
    decreases 3 - k
  {
    UpToPart(k, got);
    PartApart(UpTo(k, got), got);
    if k < 3 {
      SectionsFrom(s, pr, fd, q, k + 1, got);
      assert ALL_ROLES[k..] == [ALL_ROLES[k]] + ALL_ROLES[k + 1..];
      OneSection(s, pr, fd, q, UpTo(k, got), ALL_ROLES[k], ALL_ROLES[k + 1..], got);
    } else {
      UpToAll(got);
      ReturnHolding(s, pr, fd, q, got, fd);
    }
  }

  lemma AllSections(s: State, pr: Proc, fd: Fd, q: Qid, got: map<Role, Block>)
    requires Alive(s) && q in s.queues && Apart(got)
    ensures RegisterAll(Holding(s, pr, fd, q, map[]), fd, ALL_ROLES, got.Keys, got) ==
              Holding(s, pr.(ret := fd), fd, q, got)
  {
    SectionsFrom(s, pr, fd, q, 0, got);
    assert ALL_ROLES[0..] == ALL_ROLES;
  }

  /** The process in its own code with the descriptor it has just got, and nothing in the slots. */
  function Fresh(s: State): Proc
    requires Alive(s)
  {
    Self(s).(lastFd := Self(s).lastFd + 1, ret := Self(s).lastFd)
  }

  lemma NothingHeld(s: State, pr: Proc, fd: Fd, q: Qid)
    requires Alive(s) && q in s.queues
    ensures Holding(s, pr, fd, q, map[]) == SetSelf(s, pr.(fds := pr.fds[fd := Handle(q, map[])]))
  {
    assert Joined(s.queues[q], map[]) == s.queues[q];
    assert s.queues[q := s.queues[q]] == s.queues;
    assert s.users + Held(s.running.value, fd, q, map[]) == s.users;
  }

  /** What an open of a queue that is there leaves. */
  lemma OpenedForm(s: State, q: Qid, got: map<Role, Block>)
    requires Alive(s) && Self(s).pc.User? && q in s.queues && Apart(got)
    ensures var o := OpenResource(s, q, got.Keys);
            && Self(o).pc.Opening? && Self(o).pc.fd in Self(o).fds
            && OpenQueue(o, got) == Holding(s, Fresh(s), Self(s).lastFd, q, got)
  {
    var o, fd := OpenResource(s, q, got.Keys), Self(s).lastFd;
    NothingHeld(s, Fresh(s), fd, q);
    OpeningDone(s, q, got.Keys);
    AllSections(s, Fresh(s), fd, q, got);
  }

  lemma OpeningDone(s: State, q: Qid, roles: set<Role>)
    requires Alive(s) && Self(s).pc.User?
    ensures var o, fd := OpenResource(s, q, roles), Self(s).lastFd;
            SetSelf(o, Self(o).(pc := User)) == SetSelf(s, Fresh(s).(fds := Self(s).fds[fd := Handle(q, map[])]))
  {
    var o, fd := OpenResource(s, q, roles), Self(s).lastFd;
    Twice(s.procs, s.running.value, Self(o), Fresh(s).(fds := Self(s).fds[fd := Handle(q, map[])]));
  }

  // Closing.

  /** All steps of a close, one after the other. */
  function CloseFully(s: State): State
    requires Alive(s)
    decreases if Self(s).pc.Closing? then (if Self(s).pc.done < 3 then 4 - Self(s).pc.done else 1) else 0
  {
    if Self(s).pc.Closing? && Self(s).pc.fd in Self(s).fds then CloseFully(CloseStep(s)) else s
  }

  lemma MoveHolding(s: State, pr: Proc, fd: Fd, q: Qid, reg: map<Role, Block>, pc: Pc)
    requires Alive(s) && q in s.queues && Apart(reg)
    ensures var h := Holding(s, pr, fd, q, reg);
            && Self(h) == pr.(fds := pr.fds[fd := Handle(q, reg)])
            && SetSelf(h, Self(h).(pc := pc)) == Holding(s, pr.(pc := pc), fd, q, reg)
  {
    var now := pr.(fds := pr.fds[fd := Handle(q, reg)]);
    Twice(s.procs, s.running.value, now, now.(pc := pc));
  }

  lemma CloseOne(s: State, pr: Proc, fd: Fd, q: Qid, reg: map<Role, Block>, k: nat)
    requires Alive(s) && q in s.queues && k < 3 && pr.pc == Closing(fd, k)
    requires Apart(reg) && Apart(reg - {ALL_ROLES[k]})
    requires ALL_ROLES[k] in reg ==>
               reg[ALL_ROLES[k]] !in Users(s.queues[q], ALL_ROLES[k]) && reg[ALL_ROLES[k]] !in s.users
    ensures CloseFully(Holding(s, pr, fd, q, reg)) ==
              CloseFully(Holding(s, pr.(pc := Closing(fd, k + 1)), fd, q, reg - {ALL_ROLES[k]}))
  {
    MoveHolding(s, pr, fd, q, reg, pr.pc);
    CloseLess(s, pr, fd, q, reg, ALL_ROLES[k]);
    MoveHolding(s, pr, fd, q, reg - {ALL_ROLES[k]}, Closing(fd, k + 1));
    StepForm(Holding(s, pr, fd, q, reg), fd, k);
  }

  lemma StepForm(h: State, fd: Fd, k: nat)
    requires Alive(h) && Self(h).pc == Closing(fd, k) && k < 3 && fd in Self(h).fds
    ensures var c := CloseSlot(h, fd, ALL_ROLES[k]);
            Alive(c) && CloseFully(h) == CloseFully(SetSelf(c, Self(c).(pc := Closing(fd, k + 1))))
  {
  }

  /** What is left of the slots after `k` of them were cleared. */
  function From(k: nat, got: map<Role, Block>): map<Role, Block>
    requires k <= 3
  {
    if k == 0 then got else From(k - 1, got) - {ALL_ROLES[k - 1]}
  }

  lemma {:induction false} FromPart(k: nat, got: map<Role, Block>)
    requires k <= 3
    ensures Part(From(k, got), got)
    ensures forall i {:trigger ALL_ROLES[i]} :: 0 <= i < k ==> ALL_ROLES[i] !in From(k, got)
  {
    if k > 0 { FromPart(k - 1, got); }
  }

  lemma NoneFrom(got: map<Role, Block>)
    ensures From(3, got) == map[]
  {
    FromPart(3, got);
    forall r: Role ensures r !in From(3, got) {
      assert r == ALL_ROLES[0] || r == ALL_ROLES[1] || r == ALL_ROLES[2];
    }
  }

  lemma Strangers(s: State, q: Qid, b: Block, role: Role)
    requires EntriesOk(s) && q in s.queues && b !in s.users
    ensures b !in Users(s.queues[q], role)
  {
    assert forall c {:trigger c in Users(s.queues[q], role)} :: c in Users(s.queues[q], role) ==> c in s.users;
  }

  lemma CloseLast(s: State, pr: Proc, fd: Fd, q: Qid)
    requires Alive(s) && q in s.queues && pr.pc == Closing(fd, 3) && fd !in pr.fds
    ensures CloseFully(Holding(s, pr, fd, q, map[])) == SetSelf(s, pr.(pc := User, ret := 0))
  {
    NothingHeld(s, pr, fd, q);
    var h := Holding(s, pr, fd, q, map[]);
    var now := pr.(fds := pr.fds[fd := Handle(q, map[])]);
    assert now.fds - {fd} == pr.fds;
    Twice(s.procs, s.running.value, now, pr.(pc := User, ret := 0));
    assert CloseStep(h) == SetSelf(s, pr.(pc := User, ret := 0));
  }

  lemma {:induction false} CloseFrom(s: State, pr: Proc, fd: Fd, q: Qid, k: nat, got: map<Role, Block>)
    requires EntriesOk(s) && Alive(s) && q in s.queues && k <= 3 && pr.pc == Closing(fd, k) && fd !in pr.fds
    requires Apart(got) && forall r {:trigger got[r]} :: r in got ==> got[r] !in s.users
    ensures Apart(From(k, got))
    ensures CloseFully(Holding(s, pr, fd, q, From(k, got))) == SetSelf(s, pr.(pc := User, ret := 0))
    decreases 3 - k
  {
    FromPart(k, got);
    PartApart(From(k, got), got);
    if k < 3 {
      var role := ALL_ROLES[k];
      CloseFrom(s, pr.(pc := Closing(fd, k + 1)), fd, q, k + 1, got);
      if role in From(k, got) { Strangers(s, q, got[role], role); }
      CloseOne(s, pr, fd, q, From(k, got), k);
    } else {
      NoneFrom(got);
      CloseLast(s, pr, fd, q);
    }
  }

  lemma CloseAll(s: State, pr: Proc, fd: Fd, q: Qid, got: map<Role, Block>)
    requires EntriesOk(s) && Alive(s) && q in s.queues && pr.pc == Closing(fd, 0) && fd !in pr.fds
    requires Apart(got) && forall r {:trigger got[r]} :: r in got ==> got[r] !in s.users
    ensures CloseFully(Holding(s, pr, fd, q, got)) == SetSelf(s, pr.(pc := User, ret := 0))
  {
    CloseFrom(s, pr, fd, q, 0, got);
    assert From(0, got) == got;
  }

  lemma NextFd(s: State)
    requires PcsOk(s) && Alive(s)
    ensures Self(s).lastFd !in Self(s).fds
  {
    assert PcOk(s, s.running.value);
  }

  /** The process starts to close the descriptor. */
  function StartsClosing(s: State, fd: Fd): State
    requires Alive(s)
  {
    SetSelf(s, Self(s).(pc := Closing(fd, 0)))
  }

  lemma StartsFrom(s: State, q: Qid, got: map<Role, Block>)
    requires Alive(s) && q in s.queues && Apart(got)
    ensures var fd, h := Self(s).lastFd, Holding(s, Fresh(s), Self(s).lastFd, q, got);
            && Alive(h) && fd in Self(h).fds && Self(h).fds[fd] == Handle(q, got)
            && StartsClosing(h, fd) == Holding(s, Fresh(s).(pc := Closing(fd, 0)), fd, q, got)
  {
    MoveHolding(s, Fresh(s), Self(s).lastFd, q, got, Closing(Self(s).lastFd, 0));
  }

  lemma BackInUser(s: State)
    requires Alive(s) && Self(s).pc.User?
    ensures var fd := Self(s).lastFd;
            Fresh(s).(pc := Closing(fd, 0)).(pc := User, ret := 0) == Self(s).(lastFd := fd + 1, ret := 0)
  {
  }

  lemma ClosedAgain(s: State, q: Qid, got: map<Role, Block>)
    requires EntriesOk(s) && PcsOk(s) && Alive(s) && Self(s).pc.User? && q in s.queues
    requires Apart(got) && forall r {:trigger got[r]} :: r in got ==> got[r] !in s.users
    ensures var fd := Self(s).lastFd;
            CloseFully(Holding(s, Fresh(s).(pc := Closing(fd, 0)), fd, q, got)) ==
              SetSelf(s, Self(s).(lastFd := fd + 1, ret := 0))
  {
    NextFd(s);
    BackInUser(s);
    CloseAll(s, Fresh(s).(pc := Closing(Self(s).lastFd, 0)), Self(s).lastFd, q, got);
  }

  /** Opening a queue that is there, with a block for each role, and closing it again restores the
      user lists, the pool of blocks and the descriptors. Only the descriptor number is used up. */
  lemma CloseUndoesOpen(s: State, q: Qid, got: map<Role, Block>)
    requires EntriesOk(s) && PcsOk(s) && Alive(s) && Self(s).pc.User? && q in s.queues
    requires Apart(got) && forall r {:trigger got[r]} :: r in got ==> got[r] !in s.users
    ensures var o, fd := OpenResource(s, q, got.Keys), Self(s).lastFd;
            && Self(o).pc.Opening? && Self(o).pc.fd in Self(o).fds
            && var t := OpenQueue(o, got);
               && Alive(t) && fd in Self(t).fds && Self(t).fds[fd] == Handle(q, got)
               && CloseFully(StartsClosing(t, fd)) == SetSelf(s, Self(s).(lastFd := fd + 1, ret := 0))
  {
    OpenedForm(s, q, got);
    StartsFrom(s, q, got);
    ClosedAgain(s, q, got);
  }
}
