/** Parents and children: the wait/exit handshake, and each exit value reported once. */
module KernelFamily {
  import opened Seqs
  import opened Constants
  import opened Timers
  import opened Payloads
  import opened KernelModel
  import opened KernelRun
  import opened KernelInv
  import opened KernelSched
  import opened KernelIpc
  import opened KernelCore

  /** Child lists and parent pointers agree, init is nobody's child, and no parent is a zombie. */
  predicate FamilyOk(s: State) {
    && (forall p {:trigger s.procs[p].children} :: p in s.procs ==> NoDup(s.procs[p].children))
    && (forall p, c {:trigger c in s.procs[p].children} :: p in s.procs && c in s.procs[p].children ==>
          c in s.procs && s.procs[c].parent == Some(p))
    && (forall c {:trigger s.procs[c].parent} :: c in s.procs && s.procs[c].parent.Some? ==>
          && c != 0
          && s.procs[c].parent.value != c
          && s.procs[c].parent.value in s.procs
          && c in s.procs[s.procs[c].parent.value].children
          && s.procs[s.procs[c].parent.value].status != Zombie)
  }

  /** Nobody is parked in a wait that a zombie child could answer. */
  ghost predicate HandshakeOk(s: State) {
    forall p {:trigger AwaitsChild(s, p)} :: AwaitsChild(s, p) ==> StillWaiting(s, p)
  }

  predicate StillWaiting(s: State, p: Pid)
    requires p in s.procs && s.procs[p].call.Wait?
  {
    var pid := s.procs[p].call.pid;
    && (pid == 0 ==> forall c :: c in s.procs[p].children ==> StatusOf(s, c) != Some(Zombie))
    && (pid != 0 ==> !(0 <= pid && pid in s.procs[p].children && StatusOf(s, pid) == Some(Zombie)))
  }

  /** Every exit value is either still with its zombie or in exactly one report, unchanged. */
  predicate ReportsOk(s: State) {
    && (forall i {:trigger s.reports[i]} :: 0 <= i < |s.reports| ==>
          var r := s.reports[i];
          r.child in s.exits && r.value == s.exits[r.child] && r.child !in s.procs)
    && (forall i, j {:trigger s.reports[i], s.reports[j]} :: 0 <= i < j < |s.reports| ==>
        s.reports[i].child != s.reports[j].child)
    && (forall p {:trigger p in s.exits} :: p in s.exits ==>
          p < s.lastPid && (p in s.zombie || Reported(s, p)))
    && (forall p {:trigger p in s.zombie} :: p in s.zombie && p in s.procs ==>
        p in s.exits && s.exits[p] == s.procs[p].value)
    && (forall p {:trigger p in s.procs} :: p in s.procs && p in s.exits ==> p in s.zombie)
  }

  predicate Reported(s: State, p: Pid) {
    exists i :: 0 <= i < |s.reports| && s.reports[i].child == p
  }

  // The scan of wait.

  predicate Answers(s: State, c: Pid, pid: int) {
    if pid == 0 then StatusOf(s, c) == Some(Zombie) else c == pid
  }

  /** The scan finds the first child that answers the call, and falls back on the last
      child when none does. */
  lemma {:induction false} AwaitedMeaning(s: State, children: seq<Pid>, pid: int)
    requires children != []
    ensures var c := Awaited(s, children, pid);
            && c in children
            && (Answers(s, c, pid) <==> exists d :: d in children && Answers(s, d, pid))
            && (!Answers(s, c, pid) ==> c == children[|children| - 1])
  {
    var c := children[0];
    if !Answers(s, c, pid) && |children| > 1 {
      AwaitedMeaning(s, children[1..], pid);
      var rest := children[1..];
      assert forall d :: d in children <==> d == c || d in rest;
      assert rest[|rest| - 1] == children[|children| - 1];
    } else if |children| == 1 {
      assert forall d :: d in children ==> d == c;
    }
  }

  /** The child that a call of wait can reap: for 0 the first zombie, for a pid that names a
      child that child, and otherwise, whatever the pid, the last child. */
  predicate Reapable(s: State, children: seq<Pid>, pid: int, c: Pid) {
    && c in children && StatusOf(s, c) == Some(Zombie)
    && (if pid == 0 then
          exists k :: 0 <= k < |children| && children[k] == c && forall j :: 0 <= j < k ==>
              StatusOf(s, children[j]) != Some(Zombie)
        else if 0 <= pid && pid in children then c == pid
        else c == children[|children| - 1])
  }

  /** What wait does with children: it reaps the one child that it can, if there is one, and
      parks the caller otherwise. */
  lemma WaitOutcome(s: State, pid: int)
    requires Alive(s) && Self(s).children != []
    ensures forall c :: Reapable(s, Self(s).children, pid, c) ==> WaitFor(s, pid) == Reap(s, c)
    ensures (forall c :: !Reapable(s, Self(s).children, pid, c)) ==> WaitFor(s, pid) == TakeNext(Park(s))
  {
    var children := Self(s).children;
    AwaitedMeaning(s, children, pid);
    AwaitedReapable(s, children, pid);
  }

  /** The scan is left on a zombie exactly when there is a child to reap, and on that one. */
  lemma {:induction false} AwaitedReapable(s: State, children: seq<Pid>, pid: int)
    requires children != []
    ensures var a := Awaited(s, children, pid);
            && (forall c :: Reapable(s, children, pid, c) ==> c == a)
            && (StatusOf(s, a) == Some(Zombie) <==> Reapable(s, children, pid, a))
  {
    AwaitedMeaning(s, children, pid);
    if pid == 0 { FirstZombie(s, children); }
  }

  lemma {:induction false} FirstZombie(s: State, children: seq<Pid>)
    requires children != []
    ensures forall c :: Reapable(s, children, 0, c) ==> c == Awaited(s, children, 0)
    ensures StatusOf(s, Awaited(s, children, 0)) == Some(Zombie) ==> Reapable(s, children, 0, Awaited(s, children, 0))
  {
    if StatusOf(s, children[0]) != Some(Zombie) && |children| > 1 {
      var rest := children[1..];
      FirstZombie(s, rest);
      forall c | Reapable(s, children, 0, c) ensures Reapable(s, rest, 0, c) { LaterZombie(s, children, c); }
      var a := Awaited(s, rest, 0);
      if StatusOf(s, a) == Some(Zombie) {
        var k :| 0 <= k < |rest| && rest[k] == a && forall j :: 0 <= j < k ==> StatusOf(s, rest[j]) != Some(Zombie);
        assert children[k + 1] == a;
        assert forall j :: 0 <= j < k + 1 ==> StatusOf(s, children[j]) != Some(Zombie);
      }
    } else if StatusOf(s, children[0]) == Some(Zombie) {
      assert Reapable(s, children, 0, children[0]);
    }
  }

  lemma LaterZombie(s: State, children: seq<Pid>, c: Pid)
    requires |children| > 1 && StatusOf(s, children[0]) != Some(Zombie) && Reapable(s, children, 0, c)
    ensures Reapable(s, children[1..], 0, c)
  {
    var k :| 0 <= k < |children| && children[k] == c && forall j :: 0 <= j < k ==>
        StatusOf(s, children[j]) != Some(Zombie);
    assert children[1..][k - 1] == c;
    assert forall j :: 0 <= j < k - 1 ==> children[1..][j] == children[j + 1];
  }

  /** wait returns the error to exactly the callers without children: the check for a missing
      child behind the scan never fires. */
  lemma WaitErrorIffChildless(s: State, pid: int)
    requires CoreInv(s) && Alive(s) && Self(s).pc.User?
    ensures WaitFor(s, pid) == Return(s, DSOS_EWAIT) <==> Self(s).children == []
  {
    if Self(s).children != [] {
      UserIsUnparked(s);
      AwaitedMeaning(s, Self(s).children, pid);
      assert Park(s).waiting == s.waiting + [s.running.value];
      assert |Park(s).waiting| == |s.waiting| + 1;
      var c := Awaited(s, Self(s).children, pid);
      if StatusOf(s, c) == Some(Zombie) { assert c !in WaitFor(s, pid).procs; }
    }
  }

  // Frames.

  /** The family tree is the same and nobody became a zombie. */
  predicate SameFamily(s: State, t: State) {
    && t.procs.Keys == s.procs.Keys
    && forall p {:trigger t.procs[p]} {:trigger s.procs[p]} :: p in s.procs ==>
         && t.procs[p].parent == s.procs[p].parent
         && t.procs[p].children == s.procs[p].children
         && (t.procs[p].status == Zombie <==> s.procs[p].status == Zombie)
         && t.procs[p].value == s.procs[p].value
  }

  lemma FamilyFrame(s: State, t: State)
    requires SameFamily(s, t) && FamilyOk(s)
    ensures FamilyOk(t)
  {
  }

  /** Whoever awaits a child afterwards did so before, by the same call. */
  ghost predicate NoNewWaits(s: State, t: State) {
    forall p {:trigger AwaitsChild(t, p)} :: AwaitsChild(t, p) ==>
        AwaitsChild(s, p) && t.procs[p].call == s.procs[p].call
  }

  lemma HandshakeFrame(s: State, t: State)
    requires SameFamily(s, t) && NoNewWaits(s, t) && HandshakeOk(s)
    ensures HandshakeOk(t)
  {
    forall p | AwaitsChild(t, p) ensures StillWaiting(t, p) {
      assert StillWaiting(s, p);
      forall c | c in t.procs[p].children && t.procs[p].call.pid == 0 ensures StatusOf(t, c) != Some(Zombie) {
        assert StatusOf(s, c) != Some(Zombie);
        if c in t.procs { assert t.procs[c].status == Zombie <==> s.procs[c].status == Zombie; }
      }
    }
  }

  lemma ReportsFrame(s: State, t: State)
    requires SameFamily(s, t) && ReportsOk(s)
    requires t.zombie == s.zombie && t.reports == s.reports && t.exits == s.exits && t.lastPid == s.lastPid
    ensures ReportsOk(t)
  {
    forall p | p in t.exits ensures p in t.zombie || Reported(t, p) {
      if p !in s.zombie {
        assert Reported(s, p);
        var i :| 0 <= i < |s.reports| && s.reports[i].child == p;
        assert t.reports[i].child == p;
      }
    }
  }

  /** The three together. */
  ghost predicate Kin(s: State) {
    FamilyOk(s) && HandshakeOk(s) && ReportsOk(s)
  }

  lemma KinFrame(s: State, t: State)
    requires SameFamily(s, t) && NoNewWaits(s, t) && Kin(s)
    requires t.zombie == s.zombie && t.reports == s.reports && t.exits == s.exits && t.lastPid == s.lastPid
    ensures Kin(t)
  {
    FamilyFrame(s, t);
    HandshakeFrame(s, t);
    ReportsFrame(s, t);
  }

  // The calls that change the family.

  lemma SpawnFamily(s: State)
    requires FamilyOk(s) && Placed(s) && Alive(s) && Self(s).status != Zombie
    ensures FamilyOk(Spawn(s))
  {
    var p, c := s.running.value, s.lastPid;
    assert c !in s.procs;
    forall i | 0 <= i < |Self(s).children| ensures Self(s).children[i] != c {
      assert Self(s).children[i] in Self(s).children;
    }
    NoDupConcat(Self(s).children, [c]);
    SpawnForm(s);
    ChildAdded(s, Spawn(s), p, c);
  }

  lemma SpawnForm(s: State)
    requires Alive(s) && s.lastPid !in s.procs
    ensures var t, p, c := Spawn(s), s.running.value, s.lastPid;
            && t.procs.Keys == s.procs.Keys + {c} && t.procs[c].parent == Some(p) && t.procs[c].children == []
            && t.procs[c].status != Zombie && t.procs[p].children == s.procs[p].children + [c]
            && t.procs[p].parent == s.procs[p].parent && t.procs[p].status == s.procs[p].status
            && forall q {:trigger t.procs[q]} :: q in s.procs && q != p ==> t.procs[q] == s.procs[q]
  {
  }

  lemma ChildAdded(s: State, t: State, p: Pid, c: Pid)
    requires FamilyOk(s) && p in s.procs && c !in s.procs && s.procs[p].status != Zombie
    requires t.procs.Keys == s.procs.Keys + {c} && t.procs[c].parent == Some(p) && t.procs[c].children == []
    requires t.procs[c].status != Zombie && t.procs[p].children == s.procs[p].children + [c]
    requires t.procs[p].parent == s.procs[p].parent && t.procs[p].status == s.procs[p].status
    requires forall q {:trigger t.procs[q]} :: q in s.procs && q != p ==> t.procs[q] == s.procs[q]
    requires NoDup(s.procs[p].children + [c]) && c != 0
    ensures FamilyOk(t)
  {
  }

  lemma SpawnHandshake(s: State)
    requires HandshakeOk(s) && FamilyOk(s) && Placed(s) && Alive(s)
    ensures HandshakeOk(Spawn(s))
  {
    var t := Spawn(s);
    assert s.lastPid !in s.procs;
    forall q | AwaitsChild(t, q) ensures StillWaiting(t, q) {
      assert q in s.procs && t.procs[q] == s.procs[q];
      assert AwaitsChild(s, q) && StillWaiting(s, q);
      forall c | c in t.procs[q].children ensures StatusOf(t, c) == Some(Zombie) ==> StatusOf(s, c) == Some(Zombie) {}
    }
  }

  lemma SpawnReports(s: State)
    requires ReportsOk(s) && Placed(s) && Alive(s)
    ensures ReportsOk(Spawn(s))
  {
    var t := Spawn(s);
    assert s.lastPid !in s.procs;
    forall p | p in t.exits ensures p in t.zombie || Reported(t, p) {
      if p !in s.zombie {
        assert Reported(s, p);
        var i :| 0 <= i < |s.reports| && s.reports[i].child == p;
        assert t.reports[i].child == p;
      }
    }
    forall i | 0 <= i < |t.reports| ensures t.reports[i].child !in t.procs {
      assert s.reports[i].child in s.exits;
    }
  }

  lemma ReapFamily(s: State, c: Pid)
    requires FamilyOk(s) && Alive(s) && c in s.procs && s.procs[c].status == Zombie && c in Self(s).children
    ensures FamilyOk(Reap(s, c))
  {
    var t := Reap(s, c);
    assert s.procs[c].parent == Some(s.running.value);
  }

  lemma ReapHandshake(s: State, c: Pid)
    requires HandshakeOk(s) && FamilyOk(s) && Alive(s) && c in s.procs && c in Self(s).children
    ensures HandshakeOk(Reap(s, c))
  {
    var t := Reap(s, c);
    assert s.procs[c].parent == Some(s.running.value);
    forall q | AwaitsChild(t, q) ensures StillWaiting(t, q) {
      assert AwaitsChild(s, q) && StillWaiting(s, q);
      assert t.procs[q] == s.procs[q];
      assert c !in s.procs[q].children;
      forall d | d in t.procs[q].children ensures StatusOf(t, d) == StatusOf(s, d) {
        assert d in s.procs && d != c;
        if d == s.running.value { assert t.procs[d].status == s.procs[d].status; }
      }
    }
  }

  lemma ReapReports(s: State, c: Pid)
    requires ReportsOk(s) && Placed(s) && Alive(s) && c in s.zombie
    ensures ReportsOk(Reap(s, c))
  {
    var t := Reap(s, c);
    var n := |s.reports|;
    assert t.reports[n].child == c;
    assert forall i :: 0 <= i < n ==> t.reports[i] == s.reports[i];
    forall p | p in t.exits ensures p in t.zombie || Reported(t, p) {
      if p !in s.zombie {
        assert Reported(s, p);
        var i :| 0 <= i < |s.reports| && s.reports[i].child == p;
        assert t.reports[i].child == p;
      }
    }
  }

  lemma WaitKin(s: State, pid: int)
    requires Kin(s) && CoreInv(s) && Alive(s) && Self(s).pc.User? && Self(s).call == Wait(pid)
    ensures Kin(WaitFor(s, pid))
  {
    var p := s.running.value;
    if Self(s).children == [] {
      WaitErrorKin(s);
    } else {
      var c := Awaited(s, Self(s).children, pid);
      AwaitedMeaning(s, Self(s).children, pid);
      if StatusOf(s, c) == Some(Zombie) {
        ReapKin(s, c);
      } else {
        assert pid != 0 && 0 <= pid && pid in Self(s).children ==> Answers(s, pid, pid);
        WaitParkKin(s, pid);
      }
    }
  }

  lemma WaitErrorKin(s: State)
    requires Kin(s) && Alive(s)
    ensures Kin(Return(s, DSOS_EWAIT))
  {
    KinFrame(s, Return(s, DSOS_EWAIT));
  }

  lemma ReapKin(s: State, c: Pid)
    requires Kin(s) && CoreInv(s) && Alive(s) && c in Self(s).children && StatusOf(s, c) == Some(Zombie)
    ensures Kin(Reap(s, c))
  {
    assert s.procs[c].status == Zombie;
    ReapFamily(s, c);
    ReapHandshake(s, c);
    ReapReports(s, c);
  }

  lemma WaitParkKin(s: State, pid: int)
    requires Kin(s) && Placed(s) && StatusOk(s) && CausesOk(s) && Alive(s) && Self(s).pc.User?
             && Self(s).call == Wait(pid)
    requires pid == 0 ==> forall c :: c in Self(s).children ==> StatusOf(s, c) != Some(Zombie)
    requires pid != 0 ==> !(0 <= pid && pid in Self(s).children && StatusOf(s, pid) == Some(Zombie))
    ensures Kin(TakeNext(Park(s)))
  {
    UserIsUnparked(s);
    WaitParkTree(s);
    WaitParkHandshake(s, pid);
  }

  lemma WaitParkTree(s: State)
    requires FamilyOk(s) && ReportsOk(s) && StatusOk(s) && Placed(s) && Alive(s) && s.running.value !in s.waiting
    ensures FamilyOk(TakeNext(Park(s))) && ReportsOk(TakeNext(Park(s))) && SameFamily(s, TakeNext(Park(s)))
  {
    WaitParkSame(s);
    FamilyFrame(s, TakeNext(Park(s)));
    ReportsFrame(s, TakeNext(Park(s)));
  }

  lemma WaitParkSame(s: State)
    requires StatusOk(s) && Placed(s) && Alive(s)
    ensures SameFamily(s, TakeNext(Park(s)))
  {
  }

  lemma WaitParkHandshake(s: State, pid: int)
    requires HandshakeOk(s) && Alive(s) && Self(s).call == Wait(pid) && s.running.value !in s.waiting
    requires SameFamily(s, TakeNext(Park(s)))
    requires pid == 0 ==> forall c :: c in Self(s).children ==> StatusOf(s, c) != Some(Zombie)
    requires pid != 0 ==> !(0 <= pid && pid in Self(s).children && StatusOf(s, pid) == Some(Zombie))
    ensures HandshakeOk(TakeNext(Park(s)))
  {
    var p := s.running.value;
    var t := TakeNext(Park(s));
    forall q | AwaitsChild(t, q) ensures StillWaiting(t, q) {
      assert q != p ==> AwaitsChild(s, q) && StillWaiting(s, q);
      assert t.procs[q].children == s.procs[q].children && t.procs[q].call == s.procs[q].call;
      forall c ensures StatusOf(t, c) == Some(Zombie) ==> StatusOf(s, c) == Some(Zombie) {
        if c in t.procs { assert t.procs[c].status == Zombie <==> s.procs[c].status == Zombie; }
      }
    }
  }

  // Exit.

  /** The tree stays in order when nobody becomes a zombie. */
  lemma FamilyLooser(s: State, t: State)
    requires FamilyOk(s) && t.procs.Keys == s.procs.Keys
    requires forall p {:trigger t.procs[p]} {:trigger s.procs[p]} :: p in s.procs ==>
               && t.procs[p].parent == s.procs[p].parent && t.procs[p].children == s.procs[p].children
               && (t.procs[p].status == Zombie ==> s.procs[p].status == Zombie)
    ensures FamilyOk(t)
  {
  }

  lemma ZombieFamily(s: State, value: int)
    requires FamilyOk(s) && Alive(s) && Self(s).children == []
    ensures FamilyOk(ZombieAlone(s, value))
  {
    var t := ZombieAlone(s, value);
    forall c | c in t.procs && t.procs[c].parent.Some? ensures t.procs[c].parent.value != s.running.value {
      assert s.procs[c].parent.Some? && c in s.procs[s.procs[c].parent.value].children;
    }
  }

  lemma ExitParkFamily(s: State, value: int)
    requires FamilyOk(s) && Alive(s) && Self(s).children == []
    ensures FamilyOk(DispatchHead(ZombieAlone(s, value)))
  {
    ZombieFamily(s, value);
    DispatchFamily(ZombieAlone(s, value));
  }

  lemma DispatchFamily(z: State)
    requires FamilyOk(z)
    ensures FamilyOk(DispatchHead(z))
  {
    DispatchOnlyStatus(z);
    FamilyLooser(z, DispatchHead(z));
  }

  /** If the parent does not take the value at once, it is not parked in a wait for it. */
  lemma ExitParkHandshake(s: State, value: int)
    requires HandshakeOk(s) && FamilyOk(s) && Placed(s) && Alive(s) && Self(s).parent.Some?
             && s.running.value !in s.waiting
    requires !ParentWaits(ZombieAlone(s, value), Self(s).parent.value, s.running.value)
    ensures HandshakeOk(DispatchHead(ZombieAlone(s, value)))
  {
    var z := ZombieAlone(s, value);
    var t := DispatchHead(z);
    var p := s.running.value;
    forall q | AwaitsChild(t, q) ensures StillWaiting(t, q) {
      assert q != p && AwaitsChild(s, q) && StillWaiting(s, q);
      assert t.procs[q] == s.procs[q] == z.procs[q];
      assert p in s.procs[q].children ==> s.procs[p].parent == Some(q);
      assert p in s.procs[q].children ==> s.procs[q].call.pid != 0 && s.procs[q].call.pid != p;
      forall c | c in t.procs && c != p ensures StatusOf(t, c) == Some(Zombie) ==> StatusOf(s, c) == Some(Zombie) {}
    }
  }

  lemma ReportsSame(s: State, t: State)
    requires ReportsOk(s) && t.procs.Keys == s.procs.Keys
    requires forall p {:trigger t.procs[p]} {:trigger s.procs[p]} :: p in s.procs ==>
             t.procs[p].value == s.procs[p].value
    requires t.zombie == s.zombie && t.reports == s.reports && t.exits == s.exits && t.lastPid == s.lastPid
    ensures ReportsOk(t)
  {
    forall p | p in t.exits && p !in t.zombie ensures Reported(t, p) { SameReported(s, t, p); }
  }

  lemma SameReported(s: State, t: State, p: Pid)
    requires Reported(s, p) && s.reports <= t.reports
    ensures Reported(t, p)
  {
    var i :| 0 <= i < |s.reports| && s.reports[i].child == p;
    assert t.reports[i].child == p;
  }

  lemma ZombieReports(s: State, value: int)
    requires ReportsOk(s) && Placed(s) && Alive(s) && s.running.value !in s.waiting
    ensures ReportsOk(ZombieAlone(s, value))
  {
    var t := ZombieAlone(s, value);
    var p := s.running.value;
    assert p !in s.exits;
    forall q | q in t.exits && q !in t.zombie ensures Reported(t, q) { SameReported(s, t, q); }
    forall i | 0 <= i < |t.reports| ensures t.reports[i].child != p {
      assert s.reports[i].child in s.exits;
    }
  }

  lemma ExitParkReports(s: State, value: int)
    requires ReportsOk(s) && Placed(s) && Alive(s) && s.running.value !in s.waiting
    ensures ReportsOk(DispatchHead(ZombieAlone(s, value)))
  {
    ZombieReports(s, value);
    ReportsSame(ZombieAlone(s, value), DispatchHead(ZombieAlone(s, value)));
  }

  lemma HandOverFamily(s: State, value: int)
    requires FamilyOk(s) && Alive(s) && Self(s).children == [] && Self(s).parent.Some?
    ensures FamilyOk(HandOver(ZombieAlone(s, value), Self(s).parent.value))
  {
    var parent := Self(s).parent.value;
    var p := s.running.value;
    var t := HandOver(ZombieAlone(s, value), parent);
    assert s.procs[p].parent.Some?;
    forall c | c in t.procs && t.procs[c].parent.Some? ensures t.procs[c].parent.value != p {
      assert s.procs[c].parent.Some? && c in s.procs[s.procs[c].parent.value].children;
    }
  }

  lemma HandOverHandshake(s: State, value: int)
    requires HandshakeOk(s) && FamilyOk(s) && Alive(s) && Self(s).parent.Some?
    ensures HandshakeOk(HandOver(ZombieAlone(s, value), Self(s).parent.value))
  {
    var parent := Self(s).parent.value;
    var p := s.running.value;
    assert s.procs[p].parent.Some?;
    var t := HandOver(ZombieAlone(s, value), parent);
    forall q | AwaitsChild(t, q) ensures StillWaiting(t, q) {
      assert q != p && q != parent;
      assert AwaitsChild(s, q) && StillWaiting(s, q);
      assert t.procs[q] == s.procs[q];
      assert p !in s.procs[q].children;
      forall d | d in t.procs[q].children ensures StatusOf(t, d) == Some(Zombie) ==> StatusOf(s, d) == Some(Zombie) {
        assert d in s.procs && d != p;
      }
    }
  }

  lemma HandOverReports(s: State, value: int, parent: Pid)
    requires ReportsOk(s) && Placed(s) && Alive(s) && parent in s.procs && parent != s.running.value
    requires s.procs[parent].status != Zombie && parent !in s.zombie
    ensures ReportsOk(HandOver(ZombieAlone(s, value), parent))
  {
    var p := s.running.value;
    var t := HandOver(ZombieAlone(s, value), parent);
    var n := |s.reports|;
    assert p !in s.exits;
    HandOverReported(s, value, parent);
    forall i | 0 <= i < n
      ensures t.reports[i] == s.reports[i] && t.reports[i].child != p && t.reports[i].child in s.exits
    {
      assert s.reports[i].child in s.exits;
    }
  }

  lemma HandOverReported(s: State, value: int, parent: Pid)
    requires ReportsOk(s) && Placed(s) && Alive(s) && parent in s.procs && parent != s.running.value
    requires parent !in s.zombie
    ensures var t := HandOver(ZombieAlone(s, value), parent);
            && t.reports == s.reports + [Report(parent, s.running.value, value, false)]
            && (forall q {:trigger q in t.exits} :: q in t.exits ==> q < t.lastPid && (q in t.zombie || Reported(t, q)))
            && (forall q {:trigger q in t.zombie} :: q in t.zombie ==>
                q in t.exits && q in t.procs && t.exits[q] == t.procs[q].value)
  {
    var p := s.running.value;
    var t := HandOver(ZombieAlone(s, value), parent);
    forall q | q in t.exits ensures q in t.zombie || Reported(t, q) {
      if q == p {
        assert t.reports[|s.reports|].child == q;
      } else if q !in s.zombie {
        assert Reported(s, q);
        var i :| 0 <= i < |s.reports| && s.reports[i].child == q;
        assert t.reports[i].child == q;
      }
    }
  }

  lemma ExitKin(s: State, value: int)
    requires Kin(s) && CoreInv(s) && Alive(s) && Self(s).pc.User? && Self(s).parent.Some? && Self(s).children == []
    ensures Kin(Exit(s, value))
  {
    UserIsUnparked(s);
    ChildlessZombie(s, value);
    var parent := Self(s).parent.value;
    assert s.procs[s.running.value].parent.Some?;
    if ParentWaits(ZombieAlone(s, value), parent, s.running.value) {
      HandOverFamily(s, value);
      HandOverHandshake(s, value);
      HandOverReports(s, value, parent);
    } else {
      ExitParkFamily(s, value);
      ExitParkHandshake(s, value);
      ExitParkReports(s, value);
    }
  }

  /** What exit does with children: init lists them, but their parent pointers still name
      the process that has gone, so their own exits never find init waiting. */
  lemma AdoptedKeepOldParent(s: State, value: int, c: Pid)
    requires FamilyOk(s) && Alive(s) && Self(s).parent.Some? && 0 in s.procs && c in Self(s).children
    ensures var t := Exit(s, value);
            && c in t.procs && 0 in t.procs && c in t.procs[0].children
            && t.procs[c].parent == s.running
            && (s.running.value in t.procs ==> t.procs[s.running.value].children == [])
  {
    var p := s.running.value;
    assert s.procs[p].parent.Some?;
    assert c in s.procs[p].children && s.procs[c].parent.Some?;
    AdoptedByInit(s, value, c);
  }

  lemma AdoptedByInit(s: State, value: int, c: Pid)
    requires Alive(s) && 0 in s.procs && s.running.value != 0
    requires c in Self(s).children && c in s.procs && c != s.running.value
    ensures var z := BecomeZombie(s, value);
            && c in z.procs[0].children && z.procs[c].parent == s.procs[c].parent
            && z.procs[s.running.value].children == []
  {
  }

  /** The handshake fails for such a child: init is parked in a wait for any child, lists the
      process, and still waits after the process has become a zombie. */
  lemma AdoptedExitMissesInit(s: State, value: int)
    requires Placed(s) && Alive(s) && AwaitsChild(s, 0) && s.procs[0].call.pid == 0
             && s.running.value in s.procs[0].children
    requires Self(s).parent.Some? && Self(s).parent != Some(0) && Self(s).children == []
    requires !ParentWaits(BecomeZombie(s, value), Self(s).parent.value, s.running.value)
    ensures AwaitsChild(Exit(s, value), 0) && !HandshakeOk(Exit(s, value))
  {
    var t, p := Exit(s, value), s.running.value;
    if s.ready != [] { assert s.ready[0] in s.ready; }
    assert 0 != p && t.procs[0].children == s.procs[0].children;
    assert StatusOf(t, p) == Some(Zombie);
    assert AwaitsChild(t, 0) && !StillWaiting(t, 0);
  }

  /** Exit leaves the family in order exactly when the process has no children left. */
  lemma ExitFamilyIff(s: State, value: int)
    requires CoreInv(s) && FamilyOk(s) && Alive(s) && Self(s).pc.User? && Self(s).parent.Some? && 0 in s.procs
    ensures FamilyOk(Exit(s, value)) <==> Self(s).children == []
  {
    if Self(s).children == [] {
      UserIsUnparked(s);
      ChildlessZombie(s, value);
      HandOverFamily(s, value);
      ExitParkFamily(s, value);
    } else {
      var c := Self(s).children[0];
      AdoptedKeepOldParent(s, value, c);
      assert Exit(s, value).procs[c].parent.Some?;
    }
  }

  // The calls that leave the family alone.

  lemma TrapKin(s: State, call: Call)
    requires Kin(s) && Alive(s)
    ensures Kin(Trap(s, call))
  {
    KinFrame(s, Trap(s, call));
  }

  /** What scheduling, sleeping and the queue calls do to the tree: nothing. */
  ghost predicate Quiet(s: State, t: State) {
    && SameFamily(s, t) && NoNewWaits(s, t)
    && t.zombie == s.zombie && t.reports == s.reports && t.exits == s.exits && t.lastPid == s.lastPid
  }

  lemma WakeDueQuiet(s: State)
    requires TimersOk(s)
    ensures Quiet(s, WakeDue(s))
  {
    DueAreAsleep(s);
  }

  lemma RotateQuiet(s: State)
    requires Placed(s) && StatusOk(s) && CausesOk(s) && TimersOk(s) && Alive(s)
    ensures Quiet(s, Rotate(s))
  {
    if s.ready != [] { assert s.ready[0] in s.ready; }
  }

  lemma ScheduleKin(s: State)
    requires Kin(s) && CoreInv(s) && Alive(s)
    ensures Kin(Schedule(s))
  {
    WakeDueQuiet(s);
    KinFrame(s, WakeDue(s));
    WakeDueKeeps(s);
    RotateQuiet(WakeDue(s));
    KinFrame(WakeDue(s), Schedule(s));
  }

  lemma SleepQuiet(s: State, cycles: int)
    requires Placed(s) && StatusOk(s) && Alive(s) && !Self(s).call.Wait?
    ensures Quiet(s, SleepFor(s, cycles))
  {
    if |s.timers| < MAX_NUM_PROCESSES {
      var ts := SleepForm(s, cycles);
      ParkNextQuiet(s, ts);
    } else {
      FailedSleepQuiet(s);
    }
  }

  lemma SleepForm(s: State, cycles: int) returns (ts: seq<Timer>)
    requires Alive(s) && |s.timers| < MAX_NUM_PROCESSES
    ensures SleepFor(s, cycles) == TakeNext(Park(s.(timers := ts)))
  {
    ts := AddTimer(s.timers, Timer(s.time + cycles, s.running.value));
  }

  lemma FailedSleepQuiet(s: State)
    requires Alive(s)
    ensures Quiet(s, Return(s, DSOS_ESLEEP))
  {
    SelfOnlyQuiet(s, Return(s, DSOS_ESLEEP));
  }

  lemma ParkNextQuiet(s: State, ts: seq<Timer>)
    requires Placed(s) && StatusOk(s) && Alive(s) && !Self(s).call.Wait?
    ensures Quiet(s, TakeNext(Park(s.(timers := ts))))
  {
    if s.ready != [] { assert s.ready[0] in s.ready; }
  }

  /** Only the running process changes, and neither its relatives nor its exit value do;
      it may be parked, but not in a wait. */
  predicate SelfOnly(s: State, t: State)
    requires Alive(s)
  {
    && t.running == s.running && t.zombie == s.zombie && t.reports == s.reports && t.exits == s.exits
        && t.lastPid == s.lastPid
    && t.procs.Keys == s.procs.Keys
    && (forall p {:trigger t.procs[p]} :: p in s.procs && p != s.running.value ==> t.procs[p] == s.procs[p])
    && (forall p {:trigger p in t.waiting} :: p in t.waiting && p != s.running.value ==> p in s.waiting)
    && t.procs[s.running.value].parent == Self(s).parent
    && t.procs[s.running.value].children == Self(s).children
    && t.procs[s.running.value].value == Self(s).value
    && (t.procs[s.running.value].status == Zombie <==> Self(s).status == Zombie)
  }

  lemma SelfOnlyQuiet(s: State, t: State)
    requires Alive(s) && SelfOnly(s, t)
    ensures Quiet(s, t)
  {
  }

  lemma TransferQuiet(s: State, grant: Grant)
    requires Enabled(s, TransferStep(grant)) && Placed(s) && StatusOk(s)
    ensures Quiet(s, Transfer(Trap(s, OtherCall), grant))
  {
    assert Self(s).status != Zombie;
    TransferSelfOnly(Trap(s, OtherCall), grant);
    SelfOnlyTrans(s, Trap(s, OtherCall), Transfer(Trap(s, OtherCall), grant));
    SelfOnlyQuiet(s, Transfer(Trap(s, OtherCall), grant));
  }

  lemma TransferSelfOnly(s: State, grant: Grant)
    requires Alive(s) && InCall(s, s.running.value) && UsableGrant(grant)
    requires |Payload(Self(s).pc.msg, s.queues[CallQueue(s, s.running.value)].msgSize)| <= MAX_MESSAGE_SIZE
    requires Self(s).status != Zombie && (Linked(s, s.running.value) || s.running.value !in s.zombie)
    ensures SelfOnly(s, Transfer(s, grant))
  {
    if Room(s.queues[CallQueue(s, s.running.value)], Self(s).pc.role) <= 0 {
      TransferBlocks(s, grant);
      BlockSelfOnly(s, Failure(Self(s).pc.role));
    }
  }

  lemma BlockSelfOnly(s: State, ret: int)
    requires Alive(s) && InCall(s, s.running.value) && Self(s).status != Zombie
    ensures SelfOnly(s, BlockOn(s, ret))
  {
  }

  lemma WakeUpQuiet(s: State)
    requires Enabled(s, WakeStep)
    ensures Quiet(s, WakeUpQueue(Trap(s, OtherCall)))
  {
  }

  lemma SelfOnlyTrans(s: State, t: State, u: State)
    requires Alive(s) && SelfOnly(s, t) && SelfOnly(t, u)
    ensures SelfOnly(s, u)
  {
  }

  lemma RegisterSelfOnly(s: State, fd: Fd, role: Role, b: Block)
    requires Alive(s) && fd in Self(s).fds && Self(s).fds[fd].queue in s.queues
    ensures SelfOnly(s, Register(s, fd, role, b))
  {
  }

  lemma {:induction false} RegisterAllSelfOnly(s: State, fd: Fd, order: seq<Role>,
                                               roles: set<Role>, got: map<Role, Block>)
    requires Alive(s) && fd in Self(s).fds && Self(s).fds[fd].queue in s.queues
    ensures SelfOnly(s, RegisterAll(s, fd, order, roles, got))
    decreases order
  {
    if order != [] {
      if order[0] !in roles {
        RegisterAllSelfOnly(s, fd, order[1..], roles, got);
      } else if order[0] in got {
        var r := Register(s, fd, order[0], got[order[0]]);
        RegisterSelfOnly(s, fd, order[0], got[order[0]]);
        RegisterAllSelfOnly(r, fd, order[1..], roles, got);
        SelfOnlyTrans(s, r, RegisterAll(r, fd, order[1..], roles, got));
      }
    }
  }

  lemma OpenFinishQuiet(s: State, got: map<Role, Block>)
    requires Alive(s) && Self(s).pc.Opening? && Self(s).pc.fd in Self(s).fds
    ensures Quiet(s, OpenQueue(s, got))
  {
    var q := Self(s).fds[Self(s).pc.fd].queue;
    if q !in s.queues && |s.queues| >= MAX_NUM_QUEUES {
      OpenFailsSelfOnly(s, got);
    } else {
      OpenSucceedsSelfOnly(s, got);
    }
    SelfOnlyQuiet(s, OpenQueue(s, got));
  }

  lemma OpenFailsSelfOnly(s: State, got: map<Role, Block>)
    requires Alive(s) && Self(s).pc.Opening? && Self(s).pc.fd in Self(s).fds
    requires Self(s).fds[Self(s).pc.fd].queue !in s.queues && |s.queues| >= MAX_NUM_QUEUES
    ensures SelfOnly(s, OpenQueue(s, got))
  {
  }

  lemma OpenSucceedsSelfOnly(s: State, got: map<Role, Block>)
    requires Alive(s) && Self(s).pc.Opening? && Self(s).pc.fd in Self(s).fds
    requires !(Self(s).fds[Self(s).pc.fd].queue !in s.queues && |s.queues| >= MAX_NUM_QUEUES)
    ensures SelfOnly(s, OpenQueue(s, got))
  {
    var fd, roles := Self(s).pc.fd, Self(s).pc.roles;
    var q := Self(s).fds[fd].queue;
    var done := SetSelf(s, Self(s).(pc := User));
    var s1 := if q in s.queues then done else done.(queues := done.queues[q := NEW_QUEUE]);
    assert OpenQueue(s, got) == RegisterAll(s1, fd, ALL_ROLES, roles, got);
    RegisterAllSelfOnly(s1, fd, ALL_ROLES, roles, got);
    SelfOnlyTrans(s, s1, RegisterAll(s1, fd, ALL_ROLES, roles, got));
  }

  lemma QuietSteps(s: State, step: Step)
    requires CoreInv(s) && Enabled(s, step)
    requires step.OpenStart? || step.CloseStart? || step.CloseContinue? || step.CallStart? || step.MaxStep?
             || step.SizeStep? || step.UnlinkStep?
    ensures Quiet(s, Apply(s, step))
  {
    SelfOnlySteps(s, step);
    SelfOnlyQuiet(s, Apply(s, step));
  }

  lemma SelfOnlySteps(s: State, step: Step)
    requires Enabled(s, step)
    requires step.OpenStart? || step.CloseStart? || step.CloseContinue? || step.CallStart? || step.MaxStep?
             || step.SizeStep? || step.UnlinkStep?
    ensures SelfOnly(s, Apply(s, step))
  {
    var t := Apply(s, step);
    match step
    case CloseContinue => SelfOnlyClose(s);
    case UnlinkStep(q) => SelfOnlyUnlink(s, q);
    case OpenStart(q, roles) =>
    case CloseStart(fd) =>
    case CallStart(role, fd, msg, _) =>
    case MaxStep(fd, newVal) =>
    case SizeStep(fd, newVal) =>
  }

  lemma SelfOnlyClose(s: State)
    requires Alive(s) && Self(s).pc.Closing? && Self(s).pc.fd in Self(s).fds
    ensures SelfOnly(s, CloseStep(s))
  {
  }

  lemma SelfOnlyUnlink(s: State, q: Qid)
    requires Alive(s) && q in s.queues
    ensures SelfOnly(s, Unlink(Trap(s, OtherCall), q))
  {
  }

  lemma StepKeepsKin(s: State, step: Step)
    requires CoreInv(s) && Kin(s) && Enabled(s, step)
    ensures Kin(Apply(s, step))
  {
    if step.Tick? || step.Preempt? || step.Sleep? {
      TimedKin(s, step);
    } else if step.WaitPid? || step.ExitWith? || step.SpawnChild? {
      FamilyKin(s, step);
    } else if step.OpenFinish? || step.TransferStep? || step.WakeStep? {
      QueueKin(s, step);
    } else {
      QuietKin(s, step);
    }
  }

  lemma TimedKin(s: State, step: Step)
    requires CoreInv(s) && Kin(s) && Enabled(s, step) && (step.Tick? || step.Preempt? || step.Sleep?)
    ensures Kin(Apply(s, step))
  {
    match step
    case Tick => TickKin(s);
    case Preempt => PreemptKin(s);
    case Sleep(cycles) => SleepKin(s, cycles);
  }

  lemma FamilyKin(s: State, step: Step)
    requires CoreInv(s) && Kin(s) && Enabled(s, step) && (step.WaitPid? || step.ExitWith? || step.SpawnChild?)
    ensures Kin(Apply(s, step))
  {
    match step
    case WaitPid(pid) => WaitStepKin(s, pid);
    case ExitWith(value) => ExitStepKin(s, value);
    case SpawnChild => SpawnKin(s);
  }

  lemma QueueKin(s: State, step: Step)
    requires CoreInv(s) && Kin(s) && Enabled(s, step) && (step.OpenFinish? || step.TransferStep? || step.WakeStep?)
    ensures Kin(Apply(s, step))
  {
    match step
    case OpenFinish(got) => OpenFinishKin(s, got);
    case TransferStep(grant) => TransferKin(s, grant);
    case WakeStep => WakeUpKin(s);
  }

  lemma TransferKin(s: State, grant: Grant)
    requires CoreInv(s) && Kin(s) && Enabled(s, TransferStep(grant))
    ensures Kin(Transfer(Trap(s, OtherCall), grant))
  {
    TransferQuiet(s, grant);
    KinFrame(s, Transfer(Trap(s, OtherCall), grant));
  }

  lemma WakeUpKin(s: State)
    requires Kin(s) && Enabled(s, WakeStep)
    ensures Kin(WakeUpQueue(Trap(s, OtherCall)))
  {
    WakeUpQuiet(s);
    KinFrame(s, WakeUpQueue(Trap(s, OtherCall)));
  }

  lemma QuietKin(s: State, step: Step)
    requires CoreInv(s) && Kin(s) && Enabled(s, step)
    requires step.OpenStart? || step.CloseStart? || step.CloseContinue? || step.CallStart? || step.MaxStep?
             || step.SizeStep? || step.UnlinkStep?
    ensures Kin(Apply(s, step))
  {
    QuietSteps(s, step);
    KinFrame(s, Apply(s, step));
  }

  lemma WaitStepKin(s: State, pid: int)
    requires CoreInv(s) && Kin(s) && Enabled(s, WaitPid(pid))
    ensures Kin(WaitFor(Trap(s, Wait(pid)), pid))
  {
    TrapKin(s, Wait(pid));
    TrapKeeps(s, Wait(pid));
    WaitKin(Trap(s, Wait(pid)), pid);
  }

  lemma ExitStepKin(s: State, value: int)
    requires CoreInv(s) && Kin(s) && Enabled(s, ExitWith(value))
    ensures Kin(Exit(Trap(s, OtherCall), value))
  {
    TrapKin(s, OtherCall);
    TrapKeeps(s, OtherCall);
    ExitKin(Trap(s, OtherCall), value);
  }

  lemma TickKin(s: State)
    requires CoreInv(s) && Kin(s) && Alive(s)
    ensures Kin(Schedule(Later(s)))
  {
    KinFrame(s, Later(s));
    LaterKeeps(s);
    ScheduleKin(Later(s));
  }

  lemma OpenFinishKin(s: State, got: map<Role, Block>)
    requires CoreInv(s) && Kin(s) && Enabled(s, OpenFinish(got))
    ensures Kin(Apply(s, OpenFinish(got)))
  {
    TrapKin(s, OtherCall);
    OpenFinishQuiet(Trap(s, OtherCall), got);
    KinFrame(Trap(s, OtherCall), OpenQueue(Trap(s, OtherCall), got));
  }

  lemma SleepKin(s: State, cycles: int)
    requires CoreInv(s) && Kin(s) && Enabled(s, Sleep(cycles))
    ensures Kin(Apply(s, Sleep(cycles)))
  {
    TrapKin(s, OtherCall);
    TrapKeeps(s, OtherCall);
    SleepQuiet(Trap(s, OtherCall), cycles);
    KinFrame(Trap(s, OtherCall), SleepFor(Trap(s, OtherCall), cycles));
  }

  lemma ResumeKin(s: State)
    requires Kin(s) && Alive(s)
    ensures Kin(Resume(s))
  {
    SelfOnlyQuiet(s, Resume(s));
    KinFrame(s, Resume(s));
  }

  lemma PreemptKin(s: State)
    requires CoreInv(s) && Kin(s) && Enabled(s, Preempt)
    ensures Kin(Apply(s, Preempt))
  {
    TrapKin(s, OtherCall);
    TrapKeeps(s, OtherCall);
    ResumeKin(Trap(s, OtherCall));
    ResumeKeeps(Trap(s, OtherCall));
    ScheduleKin(Resume(Trap(s, OtherCall)));
  }

  lemma SpawnKin(s: State)
    requires CoreInv(s) && Kin(s) && Alive(s) && Self(s).pc.User?
    ensures Kin(Spawn(Trap(s, OtherCall)))
  {
    TrapKin(s, OtherCall);
    TrapKeeps(s, OtherCall);
    SpawnFamily(Trap(s, OtherCall));
    SpawnHandshake(Trap(s, OtherCall));
    SpawnReports(Trap(s, OtherCall));
  }
}
