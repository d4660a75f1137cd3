/** Runs of the resource system calls by any number of processes, and what holds in every
    state of them. */
module ResourceRuns {
  import opened Seqs
  import opened Constants
  import opened ResourceGraph

  datatype Step =
    | OpenStep(p: Pid, id: int, kind: int, mode: int)
    | CloseStep(p: Pid, fd: int)
    | DestroyStep(id: int)
    | QueueStep(id: int)     // openQueue, after an open of the type of queues
    | SpawnStep
    | HandOverStep(p: Pid)   // exit with a waiting parent: everything is released
    | ReapStep(p: Pid)       // exit without one: wait frees the control block as it is

  predicate Enabled(g: Graph, step: Step) {
    match step
    case OpenStep(p, _, _, _) => p in g.lists && p in g.lastFd
    case CloseStep(p, _) => p in g.lists
    case HandOverStep(p) => p in g.lists
    case ReapStep(p) => p in g.lists
    case QueueStep(id) => ById(g, g.resources, id).Some? ==> OfKind(g, id, QUEUE_KIND)
    case _ => true
  }

  function Apply(g: Graph, step: Step): Graph
    requires Enabled(g, step)
  {
    match step
    case OpenStep(p, id, kind, mode) => Open(g, p, id, kind, mode).0
    case CloseStep(p, fd) => Close(g, p, fd).0
    case DestroyStep(id) => Destroy(g, id).0
    case QueueStep(id) => GiveQueue(g, id)
    case SpawnStep => AddProcess(g)
    case HandOverStep(p) => DropProcess(ReleaseAll(g, p, g.lists[p]), p)
    case ReapStep(p) => DropProcess(g, p)
  }

  ghost predicate Path(states: seq<Graph>, steps: seq<Step>) {
    && |states| == |steps| + 1
    && forall i :: 0 <= i < |steps| ==> Enabled(states[i], steps[i]) && states[i + 1] == Apply(states[i], steps[i])
  }

  ghost predicate Run(states: seq<Graph>, steps: seq<Step>) {
    Path(states, steps) && states[0] == Start()
  }

  lemma StepKeeps(g: Graph, step: Step)
    requires GraphOk(g) && Enabled(g, step)
    ensures GraphOk(Apply(g, step))
  {
    match step
    case OpenStep(p, id, kind, mode) => OpenKeeps(g, p, id, kind, mode);
    case CloseStep(p, fd) => CloseKeeps(g, p, fd);
    case DestroyStep(id) => DestroyKeeps(g, id);
    case QueueStep(id) => GiveQueueKeeps(g, id);
    case SpawnStep => AddProcessKeeps(g);
    case HandOverStep(p) =>
      ReleaseKeeps(g, p, g.lists[p]);
      DropProcessKeeps(ReleaseAll(g, p, g.lists[p]), p);
    case ReapStep(p) => DropProcessKeeps(g, p);
  }

  lemma {:induction false} RunOk(states: seq<Graph>, steps: seq<Step>, i: nat)
    requires Run(states, steps) && i < |states|
    ensures GraphOk(states[i])
  {
    if i == 0 {
      StartOk();
    } else {
      RunOk(states, steps, i - 1);
      assert Enabled(states[i - 1], steps[i - 1]) && states[i - 1 + 1] == Apply(states[i - 1], steps[i - 1]);
      StepKeeps(states[i - 1], steps[i - 1]);
    }
  }

  ghost predicate Reachable(g: Graph) {
    exists states, steps {:trigger Run(states, steps)} :: Run(states, steps) && states[|steps|] == g
  }

  lemma StartReachable()
    ensures Reachable(Start())
  {
    assert Run([Start()], []);
  }

  lemma Extend(g: Graph, step: Step, t: Graph)
    requires Reachable(g) && Enabled(g, step) && Apply(g, step) == t
    ensures Reachable(t)
  {
    var a, x :| Run(a, x) && a[|x|] == g;
    PathAppend(a, x, step, t);
    assert Run(a + [t], x + [step]);
  }

  lemma PathAppend(a: seq<Graph>, x: seq<Step>, step: Step, t: Graph)
    requires Path(a, x) && Enabled(a[|x|], step) && Apply(a[|x|], step) == t
    ensures Path(a + [t], x + [step])
  {
    var states, steps := a + [t], x + [step];
    forall i | 0 <= i < |steps| ensures Enabled(states[i], steps[i]) && states[i + 1] == Apply(states[i], steps[i]) {
      if i < |x| { assert Enabled(a[i], x[i]) && a[i + 1] == Apply(a[i], x[i]); }
    }
  }

  /** Nothing happens, or one step does. */
  ghost predicate Moves(g: Graph, t: Graph) {
    t == g || exists step {:trigger Enabled(g, step)} :: Enabled(g, step) && t == Apply(g, step)
  }

  lemma OneStep(g: Graph, step: Step)
    requires Enabled(g, step)
    ensures Moves(g, Apply(g, step))
  {
  }

  lemma {:induction false} MovesOk(states: seq<Graph>, i: nat)
    requires i < |states| && states[0] == Start()
    requires forall k :: 0 < k < |states| ==> Moves(states[k - 1], states[k])
    ensures GraphOk(states[i])
  {
    if i == 0 {
      StartOk();
    } else {
      MovesOk(states, i - 1);
      MoveKeeps(states[i - 1], states[i]);
    }
  }

  lemma MoveKeeps(g: Graph, t: Graph)
    requires GraphOk(g) && Moves(g, t)
    ensures GraphOk(t)
  {
    if t != g {
      var step :| Enabled(g, step) && t == Apply(g, step);
      StepKeeps(g, step);
    }
  }

  // Descriptors and pointers.

  /** In every reachable state each descriptor in the list of a process has exactly one
      descriptor pointer, which points back at it and is in the list of its resource; the
      resource is a listed one. */
  lemma OnePointerEach(states: seq<Graph>, steps: seq<Step>, i: nat, p: Pid, d: Cell)
    requires Run(states, steps) && i < |states| && p in states[i].lists && d in states[i].lists[p]
    ensures d in states[i].descriptors && states[i].descriptors[d].resource in states[i].resources
    ensures states[i].descriptors[d].resource in states[i].memory
    ensures var g := states[i];
            exists q :: q in g.pointers && g.descriptors[d].ptr == Some(q)
                        && q in g.memory[g.descriptors[d].resource].ptrs
                        && forall c :: c in g.pointers ==> (g.pointers[c] == d <==> c == q)
  {
    RunOk(states, steps, i);
    var g := states[i];
    assert HasPointer(g, d);
    var q := g.descriptors[d].ptr.value;
    assert forall c :: c in g.pointers ==> (g.pointers[c] == d <==> c == q);
  }

  /** A resource's list counts its users: there are as many pointers in it as descriptors
      that refer to it. */
  lemma PointersCountUsers(states: seq<Graph>, steps: seq<Step>, i: nat, r: Cell)
    requires Run(states, steps) && i < |states| && r in states[i].resources
    ensures r in states[i].memory && |states[i].memory[r].ptrs| == |UsersOf(states[i], r)|
  {
    RunOk(states, steps, i);
    var g := states[i];
    forall q | q in g.memory[r].ptrs ensures q in g.pointers && g.pointers[q] in UsersOf(g, r) {}
    forall d | d in UsersOf(g, r) ensures g.descriptors[d].ptr.Some? && g.descriptors[d].ptr.value in g.memory[r].ptrs {
      assert HasPointer(g, d);
    }
    SameCount(g, g.memory[r].ptrs, UsersOf(g, r));
  }

  function UsersOf(g: Graph, r: Cell): set<Cell> {
    set d | d in g.descriptors && g.descriptors[d].resource == r
  }

  lemma {:induction false} SameCount(g: Graph, qs: seq<Cell>, ds: set<Cell>)
    requires NoDup(qs)
    requires forall q {:trigger q in qs} :: q in qs ==> q in g.pointers && g.pointers[q] in ds
    requires forall d {:trigger d in ds} :: d in ds ==>
             d in g.descriptors && g.descriptors[d].ptr.Some? && g.descriptors[d].ptr.value in qs
    requires forall q {:trigger g.pointers[q]} :: q in g.pointers ==>
             g.pointers[q] in g.descriptors && g.descriptors[g.pointers[q]].ptr == Some(q)
    requires forall d {:trigger g.descriptors[d]} :: d in g.descriptors ==> HasPointer(g, d)
    ensures |qs| == |ds|
  {
    if qs == [] {
      assert ds == {};
    } else {
      var q, rest := qs[0], qs[1..];
      assert q in qs;
      RestOf(qs);
      var d := g.pointers[q];
      forall c {:trigger c in rest} | c in rest ensures c in g.pointers && g.pointers[c] in ds - {d} { assert c in qs; }
      forall e {:trigger e in ds - {d}} | e in ds - {d}
        ensures e in g.descriptors && g.descriptors[e].ptr.Some? && g.descriptors[e].ptr.value in rest
      {
        assert e in ds;
        var c := g.descriptors[e].ptr.value;
        assert HasPointer(g, e);
        assert c != q;
      }
      SameCount(g, rest, ds - {d});
    }
  }

  /** The allocation that the code does not check cannot fail: whenever a descriptor can be
      had, so can a pointer, and what open adds is a complete pair. */
  lemma UncheckedAllocation(states: seq<Graph>, steps: seq<Step>, i: nat)
    requires Run(states, steps) && i < |states|
    ensures |states[i].descriptors| == |states[i].pointers|
    ensures states[i].freeDescriptors != [] <==> states[i].freePointers != []
    ensures forall d :: d in states[i].descriptors ==> states[i].descriptors[d].ptr.Some?
  {
    RunOk(states, steps, i);
    forall d | d in states[i].descriptors ensures states[i].descriptors[d].ptr.Some? {
      assert HasPointer(states[i], d);
    }
  }

  // Lookup.

  /** The scans find the one block that answers, if there is one. */
  lemma LookupIsExact(states: seq<Graph>, steps: seq<Step>, i: nat, id: int, p: Pid, fd: int)
    requires Run(states, steps) && i < |states| && p in states[i].lists
    ensures var g := states[i];
            && (forall r :: ById(g, g.resources, id) == Some(r) <==>
                r in g.resources && r in g.memory && g.memory[r].id == id)
            && (forall d :: ByFd(g, g.lists[p], fd) == Some(d) <==>
                d in g.lists[p] && d in g.descriptors && g.descriptors[d].fd == fd)
            && (forall d :: d in g.lists[p] ==>
                d in g.descriptors && p in g.lastFd && g.descriptors[d].fd < g.lastFd[p])
  {
    RunOk(states, steps, i);
  }

  // Destroy.

  predicate InUse(g: Graph, id: int) {
    exists d :: d in g.descriptors && g.descriptors[d].resource in g.memory
        && g.memory[g.descriptors[d].resource].id == id
  }

  predicate Listed(g: Graph, id: int) {
    exists r :: r in g.resources && r in g.memory && g.memory[r].id == id
  }

  /** destroy fails when the id is unknown, refuses exactly while some descriptor refers to
      the resource, and otherwise takes it out of the list. */
  lemma DestroyOutcome(g: Graph, id: int)
    requires GraphOk(g)
    ensures var (t, ret) := Destroy(g, id);
            && ret == (if !Listed(g, id) then DSOS_ERESOURCECLOSE else if InUse(g, id) then DSOS_ERESOURCEINUSE else 0)
            && (ret != 0 ==> t == g)
            && (ret == 0 ==> !Listed(t, id) && t.descriptors == g.descriptors
                             && forall r :: r in t.resources <==> r in g.resources && g.memory[r].id != id)
  {
    var found := ById(g, g.resources, id);
    if found.Some? {
      var r := found.value;
      if InUse(g, id) {
        var d :| d in g.descriptors && g.descriptors[d].resource in g.memory
            && g.memory[g.descriptors[d].resource].id == id;
        assert HasPointer(g, d);
        assert g.descriptors[d].resource == r;
      }
      if g.memory[r].ptrs != [] {
        var q := g.memory[r].ptrs[0];
        assert q in g.memory[r].ptrs;
        assert g.pointers[q] in g.descriptors;
      }
    }
  }

  /** In a sound graph a listed resource has pointers exactly when it is in use. */
  lemma InUseIff(g: Graph, r: Cell)
    requires GraphOk(g) && r in g.resources && r in g.memory
    ensures g.memory[r].ptrs != [] <==> InUse(g, g.memory[r].id)
  {
    var id := g.memory[r].id;
    if InUse(g, id) {
      var d :| d in g.descriptors && g.descriptors[d].resource in g.memory
          && g.memory[g.descriptors[d].resource].id == id;
      assert HasPointer(g, d);
      assert g.descriptors[d].resource == r;
    }
    if g.memory[r].ptrs != [] {
      var q := g.memory[r].ptrs[0];
      assert q in g.memory[r].ptrs;
      assert g.pointers[q] in g.descriptors;
    }
  }

  // Open.

  predicate OfKind(g: Graph, id: int, kind: int) {
    forall r :: r in g.resources && r in g.memory && g.memory[r].id == id ==> g.memory[r].kind == kind
  }

  /** The result of open in terms of what is listed, in use and free. */
  function Expected(g: Graph, p: Pid, id: int, kind: int, mode: int): int
    requires p in g.lastFd
  {
    if Listed(g, id) then
      if Has(mode, DSOS_CREATE) && Has(mode, DSOS_EXCL) then DSOS_ERESOURCENOEXCL
      else if !OfKind(g, id, kind) then DSOS_ERESOURCEOPEN
      else if Has(mode, DSOS_EXCL) && InUse(g, id) then DSOS_ERESOURCENOEXCL
      else if g.freeDescriptors == [] then DSOS_ERESOURCENOFD
      else g.lastFd[p]
    else
      if !Has(mode, DSOS_CREATE) then DSOS_ERESOURCEOPEN
      else if g.freeResources == [] then DSOS_ERESOURCECREATE
      else if g.freeDescriptors == [] then DSOS_ERESOURCENOFD
      else g.lastFd[p]
  }

  lemma OpenOutcome(g: Graph, p: Pid, id: int, kind: int, mode: int)
    requires GraphOk(g) && p in g.lists
    ensures Open(g, p, id, kind, mode).1 == Expected(g, p, id, kind, mode)
  {
    var found := ById(g, g.resources, id);
    if found.Some? {
      FoundOutcome(g, p, id, kind, mode, found.value);
    } else {
      assert !Listed(g, id);
    }
  }

  lemma FoundOutcome(g: Graph, p: Pid, id: int, kind: int, mode: int, r: Cell)
    requires GraphOk(g) && p in g.lists && ById(g, g.resources, id) == Some(r)
    ensures Open(g, p, id, kind, mode).1 == Expected(g, p, id, kind, mode)
  {
    InUseIff(g, r);
    assert Listed(g, id);
    assert OfKind(g, id, kind) <==> g.memory[r].kind == kind;
  }

  /** A failed open leaves everything as it was, except that a resource which was created
      before the descriptor pool turned out to be empty stays in the list. */
  lemma FailedOpenLeaks(g: Graph, p: Pid, id: int, kind: int, mode: int)
    requires GraphOk(g) && p in g.lists && Open(g, p, id, kind, mode).1 < 0
    ensures Open(g, p, id, kind, mode).0 != g <==>
              !Listed(g, id) && Has(mode, DSOS_CREATE) && g.freeResources != [] && g.freeDescriptors == []
    ensures Open(g, p, id, kind, mode).0 != g ==>
            Listed(Open(g, p, id, kind, mode).0, id) && !InUse(Open(g, p, id, kind, mode).0, id)
  {
    var found := ById(g, g.resources, id);
    if found.None? && Has(mode, DSOS_CREATE) && g.freeResources != [] {
      assert Open(g, p, id, kind, mode).0 == Create(g, id, kind);
      CreatedIsUnused(g, id, kind);
    }
  }

  lemma CreatedIsUnused(g: Graph, id: int, kind: int)
    requires GraphOk(g) && ById(g, g.resources, id).None? && g.freeResources != []
    ensures var t := Create(g, id, kind); t != g && Listed(t, id) && !InUse(t, id)
  {
    CreateKeeps(g, id, kind);
    var b, t := g.freeResources[0], Create(g, id, kind);
    assert |t.resources| == |g.resources| + 1;
    assert t.resources[|g.resources|] == b && t.memory[b].ptrs == [];
    InUseIff(t, b);
  }

  /** Nothing but exclusive mode keeps a process from opening a resource it has open, whether
      its first open found the resource or created it: the second descriptor has another
      number and the same resource. */
  lemma OpenTwice(g: Graph, p: Pid, id: int, kind: int, mode: int)
    requires PoolsOk(g) && ResourcesOk(g) && p in g.lists && p in g.lastFd && |g.freeDescriptors| >= 2
    requires Open(g, p, id, kind, mode).1 >= 0
    ensures var t := Open(g, p, id, kind, mode).0;
            var r := ById(t, t.resources, id);
            && p in t.lists && p in t.lastFd && r.Some? && t.freeDescriptors != []
            && Open(t, p, id, kind, mode) ==
                 if Has(mode, DSOS_EXCL) then (t, DSOS_ERESOURCENOEXCL) else (Attach(t, p, r.value), g.lastFd[p] + 1)
  {
    FirstOpen(g, p, id, kind, mode);
    var u := Opened(g, id, kind);
    var r := ById(u, u.resources, id).value;
    Attached(u, p, id, r);
    OpenAgain(Attach(u, p, r), p, id, kind, mode, r);
  }

  /** The process has one descriptor open on the resource. */
  predicate HoldsOne(t: Graph, p: Pid, id: int, d: Cell) {
    && GraphOk(t) && p in t.lists && d in t.lists[p] && d in t.descriptors && t.descriptors[d].pid == p
    && t.descriptors[d].resource in t.memory && t.memory[t.descriptors[d].resource].id == id
  }

  lemma NewResourceHeld(g: Graph, p: Pid, id: int, kind: int, mode: int) returns (d: Cell)
    requires GraphOk(g) && p in g.lists && p in g.lastFd && !Listed(g, id) && Has(mode, DSOS_CREATE)
    requires g.freeResources != [] && g.freeDescriptors != []
    ensures HoldsOne(Open(g, p, id, kind, mode).0, p, id, d)
  {
    OpenKeeps(g, p, id, kind, mode);
    OpenOutcome(g, p, id, kind, mode);
    FirstOpen(g, p, id, kind, mode);
    var u := Opened(g, id, kind);
    d := g.freeDescriptors[0];
    AddedToOwner(u, p, ById(u, u.resources, id).value);
  }

  lemma AddedToOwner(u: Graph, p: Pid, r: Cell)
    requires p in u.lists && p in u.lastFd && r in u.memory && u.freeDescriptors != []
    ensures var t, d := Attach(u, p, r), u.freeDescriptors[0];
            && p in t.lists && d in t.lists[p] && d in t.descriptors && t.descriptors[d].pid == p
            && t.descriptors[d].resource == r && r in t.memory && t.memory[r].id == u.memory[r].id
  {
    assert Attach(u, p, r).lists[p][|u.lists[p]|] == u.freeDescriptors[0];
  }

  lemma ReapedHolder(t: Graph, p: Pid, id: int, d: Cell)
    requires HoldsOne(t, p, id, d)
    ensures var g := DropProcess(t, p);
            && g.lists.Keys == t.lists.Keys - {p} && Orphan(g, d) && g.descriptors[d].pid == p
            && Destroy(g, id).1 == DSOS_ERESOURCEINUSE
  {
    DropProcessKeeps(t, p);
    OrphanRefused(DropProcess(t, p), d);
  }

  lemma Attached(u: Graph, p: Pid, id: int, r: Cell)
    requires p in u.lists && p in u.lastFd && ById(u, u.resources, id) == Some(r)
    requires |u.freeDescriptors| >= 2 && u.freePointers != []
    ensures var t := Attach(u, p, r);
            && p in t.lists && p in t.lastFd && t.lastFd[p] == u.lastFd[p] + 1 && t.freeDescriptors != []
            && r in t.memory && t.memory[r].kind == u.memory[r].kind && t.memory[r].ptrs != []
            && ById(t, t.resources, id) == Some(r)
  {
    SameLookup(u, Attach(u, p, r), id);
  }

  /** The graph in which an open has found or created its resource. */
  function Opened(g: Graph, id: int, kind: int): Graph {
    if ById(g, g.resources, id).None? && g.freeResources != [] then Create(g, id, kind) else g
  }

  /** A first open that succeeds. */
  lemma FirstOpen(g: Graph, p: Pid, id: int, kind: int, mode: int)
    requires PoolsOk(g) && ResourcesOk(g) && p in g.lists && p in g.lastFd
    requires Open(g, p, id, kind, mode).1 >= 0
    ensures var u := Opened(g, id, kind);
            var r := ById(u, u.resources, id);
            && r.Some? && r.value in u.memory && u.memory[r.value].kind == kind && u.lists == g.lists
                && u.lastFd == g.lastFd
            && u.freeDescriptors == g.freeDescriptors != [] && u.freePointers == g.freePointers != []
            && Open(g, p, id, kind, mode).0 == Attach(u, p, r.value)
            && (Has(mode, DSOS_CREATE) && Has(mode, DSOS_EXCL) ==> ById(g, g.resources, id).None?)
  {
    if ById(g, g.resources, id).None? && g.freeResources != [] {
      assert g.freeResources[0] in g.freeResources;
      FoundLast(g, g.freeResources[0], Create(g, id, kind), id);
    }
  }

  lemma OpenAgain(t: Graph, p: Pid, id: int, kind: int, mode: int, r: Cell)
    requires p in t.lists && p in t.lastFd && t.freeDescriptors != [] && ById(t, t.resources, id) == Some(r)
    requires r in t.memory && t.memory[r].kind == kind && t.memory[r].ptrs != []
    ensures Open(t, p, id, kind, mode) ==
              if Has(mode, DSOS_EXCL) then (t, DSOS_ERESOURCENOEXCL) else (Attach(t, p, r), t.lastFd[p])
  {
  }

  lemma Added(g: Graph, t: Graph, p: Pid, r: Cell)
    requires p in g.lists && p in g.lastFd && r in g.memory && FreshPair(g) && t == Attach(g, p, r)
    ensures var d := g.freeDescriptors[0];
            d in t.descriptors && t.descriptors[d].fd == g.lastFd[p] && t.descriptors[d].resource == r
                && t.descriptors[d].pid == p
            && t.lists[p] == g.lists[p] + [d] && d in t.lists[p]
  {
    var d := g.freeDescriptors[0];
    assert t.lists[p][|g.lists[p]|] == d;
  }

  /** The number of a descriptor finds it. */
  lemma Found(g: Graph, p: Pid, d: Cell)
    requires GraphOk(g) && p in g.lists && d in g.lists[p] && d in g.descriptors
    ensures ByFd(g, g.lists[p], g.descriptors[d].fd) == Some(d)
  {
  }

  lemma {:induction false} SameLookupIn(g: Graph, t: Graph, list: seq<Cell>, id: int)
    requires t.memory.Keys == g.memory.Keys
    requires forall r {:trigger t.memory[r]} :: r in g.memory ==> t.memory[r].id == g.memory[r].id
    ensures ById(t, list, id) == ById(g, list, id)
  {
    if list != [] { SameLookupIn(g, t, list[1..], id); }
  }

  lemma SameLookup(g: Graph, t: Graph, id: int)
    requires t.memory.Keys == g.memory.Keys && t.resources == g.resources
    requires forall r {:trigger t.memory[r]} :: r in g.memory ==> t.memory[r].id == g.memory[r].id
    ensures ById(t, t.resources, id) == ById(g, g.resources, id)
  {
    SameLookupIn(g, t, g.resources, id);
  }

  /** Close undoes open: apart from the descriptor number, which is not given out again,
      the graph is what it was, down to the order in which the pools hand out blocks. */
  lemma CloseUndoesOpen(g: Graph, p: Pid, id: int, kind: int, mode: int)
    requires GraphOk(g) && p in g.lists && Listed(g, id)
    requires Open(g, p, id, kind, mode).1 >= 0
    ensures var (t, fd) := Open(g, p, id, kind, mode);
            p in t.lists && Close(t, p, fd) == (g.(lastFd := g.lastFd[p := fd + 1]), 0)
  {
    OpenIsAttach(g, p, id, kind, mode);
    CloseUndoesAttach(g, p, ById(g, g.resources, id).value);
  }

  lemma CloseUndoesAttach(g: Graph, p: Pid, r: Cell)
    requires GraphOk(g) && p in g.lists && r in g.resources && r in g.memory && g.freeDescriptors != []
    ensures p in Attach(g, p, r).lists
    ensures Close(Attach(g, p, r), p, g.lastFd[p]) == (g.(lastFd := g.lastFd[p := g.lastFd[p] + 1]), 0)
  {
    PairIsFresh(g);
    AttachedIsFound(g, p, r);
    CloseIsDetach(Attach(g, p, r), p, g.lastFd[p], g.freeDescriptors[0]);
    StrangersBoth(g, p, r);
    DetachUndoesAttach(g, p, r);
  }

  lemma OpenIsAttach(g: Graph, p: Pid, id: int, kind: int, mode: int)
    requires p in g.lists && p in g.lastFd && Listed(g, id) && Open(g, p, id, kind, mode).1 >= 0
    ensures g.freeDescriptors != []
    ensures Open(g, p, id, kind, mode) == (Attach(g, p, ById(g, g.resources, id).value), g.lastFd[p])
  {
  }

  lemma CloseIsDetach(g: Graph, p: Pid, fd: int, d: Cell)
    requires p in g.lists && ByFd(g, g.lists[p], fd) == Some(d)
    ensures Close(g, p, fd) == (Detach(g, p, d), 0)
  {
  }

  lemma AttachedIsFound(g: Graph, p: Pid, r: Cell)
    requires GraphOk(g) && FreshPair(g) && p in g.lists && r in g.resources && r in g.memory
    ensures p in Attach(g, p, r).lists
    ensures ByFd(Attach(g, p, r), Attach(g, p, r).lists[p], g.lastFd[p]) == Some(g.freeDescriptors[0])
  {
    AttachKeeps(g, p, r);
    Added(g, Attach(g, p, r), p, r);
    Found(Attach(g, p, r), p, g.freeDescriptors[0]);
  }

  /** The two free blocks are in none of the lists. */
  lemma StrangersBoth(g: Graph, p: Pid, r: Cell)
    requires GraphOk(g) && FreshPair(g) && p in g.lists && r in g.resources && r in g.memory
    ensures g.freeDescriptors[0] !in g.lists[p] && g.freePointers[0] !in g.memory[r].ptrs
  {
  }

  lemma DetachUndoesAttach(g: Graph, p: Pid, r: Cell)
    requires FreshPair(g) && p in g.lists && p in g.lastFd && r in g.memory
    requires g.freeDescriptors[0] !in g.lists[p] && g.freePointers[0] !in g.memory[r].ptrs
    ensures p in Attach(g, p, r).lists
    ensures Detach(Attach(g, p, r), p, g.freeDescriptors[0]) == g.(lastFd := g.lastFd[p := g.lastFd[p] + 1])
  {
    var d, q := g.freeDescriptors[0], g.freePointers[0];
    var t := Attach(g, p, r);
    WithoutLast(g.lists[p], d);
    WithoutLast(g.memory[r].ptrs, q);
    assert t.descriptors - {d} == g.descriptors;
    assert t.pointers - {q} == g.pointers;
    assert t.lists[p := Without(t.lists[p], {d})] == g.lists;
    assert t.memory[r := t.memory[r].(ptrs := Without(t.memory[r].ptrs, {q}))] == g.memory;
    assert [d] + t.freeDescriptors == g.freeDescriptors && [q] + t.freePointers == g.freePointers;
  }

  lemma {:induction false} WithoutLast(xs: seq<Cell>, x: Cell)
    requires x !in xs
    ensures Without(xs + [x], {x}) == xs
  {
    if xs != [] {
      WithoutLast(xs[1..], x);
      assert (xs + [x])[1..] == xs[1..] + [x];
      assert xs[0] in xs;
    }
  }

  // Two things that are not cleaned up.

  lemma FoundLast(u: Graph, r: Cell, t: Graph, id: int)
    requires t.resources == u.resources + [r] && r in t.memory && t.memory[r].id == id && r !in u.resources
    requires ById(u, u.resources, id).None? && t.memory == u.memory[r := t.memory[r]]
    ensures ById(t, t.resources, id) == Some(r)
  {
    assert t.resources[|u.resources|] == r;
    assert forall b {:trigger b in u.resources} :: b in u.resources && b in t.memory ==> t.memory[b].id != id;
  }

  /** A descriptor of a process that was reaped with it. */
  predicate Orphan(g: Graph, d: Cell) {
    d in g.descriptors && g.descriptors[d].pid !in g.lists && g.descriptors[d].pid < g.lastPid
  }

  lemma DetachKeepsOrphan(g: Graph, p: Pid, c: Cell, d: Cell)
    requires ListsOk(g) && Orphan(g, d) && p in g.lists && c in g.lists[p]
    ensures Orphan(Detach(g, p, c), d) && Detach(g, p, c).descriptors[d] == g.descriptors[d]
            && p in Detach(g, p, c).lists
  {
  }

  lemma {:induction false} ReleaseKeepsOrphans(g: Graph, p: Pid, list: seq<Cell>, d: Cell)
    requires GraphOk(g) && Orphan(g, d) && p in g.lists && NoDup(list)
    requires forall e {:trigger e in list} :: e in list ==> e in g.lists[p]
    ensures Orphan(ReleaseAll(g, p, list), d) && ReleaseAll(g, p, list).descriptors[d] == g.descriptors[d]
    decreases list
  {
    if list != [] {
      assert list[0] in list;
      DetachKeeps(g, p, list[0]);
      DetachKeepsOrphan(g, p, list[0], d);
      DetachShrinks(g, p, list);
      RestOf(list);
      ReleaseKeepsOrphans(Detach(g, p, list[0]), p, list[1..], d);
    }
  }

  /** No step releases an orphan. */
  lemma StepKeepsOrphans(g: Graph, step: Step, d: Cell)
    requires GraphOk(g) && Enabled(g, step) && Orphan(g, d)
    ensures Orphan(Apply(g, step), d) && Apply(g, step).descriptors[d] == g.descriptors[d]
  {
    match step
    case OpenStep(p, id, kind, mode) => OpenKeepsOrphans(g, p, id, kind, mode, d);
    case CloseStep(p, fd) => CloseKeepsOrphans(g, p, fd, d);
    case HandOverStep(p) => ReleaseKeepsOrphans(g, p, g.lists[p], d);
    case _ => OthersKeepOrphans(g, step, d);
  }

  lemma OthersKeepOrphans(g: Graph, step: Step, d: Cell)
    requires step.DestroyStep? || step.QueueStep? || step.SpawnStep? || step.ReapStep?
    requires Enabled(g, step) && Orphan(g, d)
    ensures Orphan(Apply(g, step), d) && Apply(g, step).descriptors[d] == g.descriptors[d]
  {
  }

  lemma CloseKeepsOrphans(g: Graph, p: Pid, fd: int, d: Cell)
    requires ListsOk(g) && p in g.lists && Orphan(g, d)
    ensures Orphan(Close(g, p, fd).0, d) && Close(g, p, fd).0.descriptors[d] == g.descriptors[d]
  {
  }

  lemma OpenKeepsOrphans(g: Graph, p: Pid, id: int, kind: int, mode: int, d: Cell)
    requires p in g.lists && p in g.lastFd && Orphan(g, d) && PoolsOk(g)
    ensures Orphan(Open(g, p, id, kind, mode).0, d) && Open(g, p, id, kind, mode).0.descriptors[d] == g.descriptors[d]
  {
    if g.freeDescriptors != [] { assert g.freeDescriptors[0] in g.freeDescriptors; }
  }

  lemma OrphanSurvives(states: seq<Graph>, steps: seq<Step>, k: nat, d: Cell)
    requires Run(states, steps) && k < |steps| && Orphan(states[k], d)
    ensures Orphan(states[k + 1], d) && states[k + 1].descriptors[d] == states[k].descriptors[d]
  {
    assert Enabled(states[k], steps[k]) && states[k + 1] == Apply(states[k], steps[k]);
    RunOk(states, steps, k);
    StepKeepsOrphans(states[k], steps[k], d);
  }

  lemma {:induction false} OrphanStays(states: seq<Graph>, steps: seq<Step>, i: nat, j: nat, d: Cell)
    requires Run(states, steps) && i <= j < |states| && Orphan(states[i], d)
    ensures Orphan(states[j], d) && states[j].descriptors[d] == states[i].descriptors[d]
    decreases j
  {
    if j > i {
      OrphanStays(states, steps, i, j - 1, d);
      OrphanSurvives(states, steps, j - 1, d);
    }
  }

  /** A descriptor that a process still had when it was reaped pins its resource for good:
      from then on the resource stays listed and destroy refuses it. */
  lemma OrphanPinsResource(states: seq<Graph>, steps: seq<Step>, i: nat, j: nat, d: Cell)
    requires Run(states, steps) && i <= j < |states| && Orphan(states[i], d)
    ensures d in states[j].descriptors && states[j].descriptors[d] == states[i].descriptors[d]
    ensures states[j].descriptors[d].resource in states[j].resources
            && states[j].descriptors[d].resource in states[j].memory
    ensures Destroy(states[j], states[j].memory[states[j].descriptors[d].resource].id).1 == DSOS_ERESOURCEINUSE
  {
    OrphanStays(states, steps, i, j, d);
    RunOk(states, steps, j);
    OrphanRefused(states[j], d);
  }

  lemma OrphanRefused(g: Graph, d: Cell)
    requires GraphOk(g) && d in g.descriptors
    ensures g.descriptors[d].resource in g.resources && g.descriptors[d].resource in g.memory
    ensures Destroy(g, g.memory[g.descriptors[d].resource].id).1 == DSOS_ERESOURCEINUSE
  {
    assert HasPointer(g, d);
    var r := g.descriptors[d].resource;
    assert InUse(g, g.memory[r].id);
    DestroyOutcome(g, g.memory[r].id);
  }

  /** Exit with a waiting parent leaves nothing behind: no descriptor of the process is out. */
  lemma HandOverReleasesAll(g: Graph, p: Pid, d: Cell)
    requires GraphOk(g) && p in g.lists && d in ReleaseAll(g, p, g.lists[p]).descriptors
    ensures ReleaseAll(g, p, g.lists[p]).descriptors[d].pid != p
  {
    NothingHeld(g, p);
    ReleaseLists(g, p);
    NoneLeft(ReleaseAll(g, p, g.lists[p]), p, d);
  }

  lemma {:induction false} ReleasedKeys(g: Graph, p: Pid, list: seq<Cell>)
    requires p in g.lists
    ensures ReleaseAll(g, p, list).lists.Keys == g.lists.Keys && ReleaseAll(g, p, list).lastPid == g.lastPid
    decreases list
  {
    if list != [] {
      if list[0] in g.descriptors {
        ReleasedKeys(Detach(g, p, list[0]), p, list[1..]);
      } else {
        ReleasedKeys(g, p, list[1..]);
      }
    }
  }

  /** The calls of a process change no list but its own, and nobody is born or dies. */
  lemma CallKeepsLists(g: Graph, call: Step)
    requires Enabled(g, call) && (call.OpenStep? || call.CloseStep? || call.DestroyStep? || call.QueueStep?)
    ensures Apply(g, call).lists.Keys == g.lists.Keys && Apply(g, call).lastPid == g.lastPid
  {
  }

  /** The descriptors of a process, live or not. */
  function HeldBy(g: Graph, p: Pid): set<Cell> {
    set d | d in g.descriptors && g.descriptors[d].pid == p
  }

  lemma HeldIsListed(g: Graph, p: Pid)
    requires GraphOk(g) && p in g.lists
    ensures HeldBy(g, p) == Elems(g.lists[p])
  {
  }

  lemma HandOverLeavesNone(g: Graph, p: Pid)
    requires GraphOk(g) && p in g.lists
    ensures HeldBy(Apply(g, HandOverStep(p)), p) == {}
  {
    forall d | d in ReleaseAll(g, p, g.lists[p]).descriptors
      ensures ReleaseAll(g, p, g.lists[p]).descriptors[d].pid != p
    {
      HandOverReleasesAll(g, p, d);
    }
  }

  /** A call of one process leaves the descriptors of the others alone. */
  lemma CallSpares(g: Graph, call: Step, p: Pid)
    requires GraphOk(g) && Enabled(g, call)
    requires call.DestroyStep? || call.QueueStep? || ((call.OpenStep? || call.CloseStep?) && call.p != p)
    ensures HeldBy(Apply(g, call), p) == HeldBy(g, p)
  {
    match call
    case OpenStep(q, id, kind, mode) => OpenSpares(g, q, id, kind, mode, p);
    case CloseStep(q, fd) => CloseSpares(g, q, fd, p);
    case _ => OtherCallSpares(g, call, p);
  }

  lemma CloseSpares(g: Graph, q: Pid, fd: int, p: Pid)
    requires OwnLists(g) && q in g.lists && q != p
    ensures HeldBy(Close(g, q, fd).0, p) == HeldBy(g, p)
  {
    var d := ByFd(g, g.lists[q], fd);
    if d.Some? { DetachSpares(g, q, d.value, p); }
  }

  lemma OtherCallSpares(g: Graph, call: Step, p: Pid)
    requires Enabled(g, call) && (call.DestroyStep? || call.QueueStep?)
    ensures HeldBy(Apply(g, call), p) == HeldBy(g, p)
  {
  }

  /** What a process that is gone still holds are its orphans. */
  lemma OrphansAreHeld(g: Graph, p: Pid)
    requires AllListed(g) && p !in g.lists
    ensures forall d :: Orphan(g, d) && g.descriptors[d].pid == p <==> d in HeldBy(g, p)
  {
  }

  lemma OpenSpares(g: Graph, q: Pid, id: int, kind: int, mode: int, p: Pid)
    requires PoolsOk(g) && q in g.lists && q in g.lastFd && q != p
    ensures HeldBy(Open(g, q, id, kind, mode).0, p) == HeldBy(g, p)
  {
    if g.freeDescriptors != [] { assert g.freeDescriptors[0] in g.freeDescriptors; }
  }

  lemma DetachSpares(g: Graph, q: Pid, d: Cell, p: Pid)
    requires OwnLists(g) && q in g.lists && d in g.lists[q] && q != p
    ensures d in g.descriptors && HeldBy(Detach(g, q, d), p) == HeldBy(g, p)
  {
  }

  lemma {:induction false} ReleaseSpares(g: Graph, q: Pid, list: seq<Cell>, p: Pid)
    requires GraphOk(g) && q in g.lists && NoDup(list) && q != p
    requires forall e {:trigger e in list} :: e in list ==> e in g.lists[q]
    ensures HeldBy(ReleaseAll(g, q, list), p) == HeldBy(g, p)
    decreases list
  {
    if list != [] {
      assert list[0] in list;
      DetachSpares(g, q, list[0], p);
      DetachKeeps(g, q, list[0]);
      DetachShrinks(g, q, list);
      RestOf(list);
      ReleaseSpares(Detach(g, q, list[0]), q, list[1..], p);
    }
  }

  lemma HandOverSpares(g: Graph, q: Pid, p: Pid)
    requires GraphOk(g) && q in g.lists && q != p
    ensures HeldBy(Apply(g, HandOverStep(q)), p) == HeldBy(g, p)
  {
    ReleaseSpares(g, q, g.lists[q], p);
  }

  /** Leaving the system: exit with a waiting parent releases the descriptors, and without one
      the process is reaped with them. */
  function LeaveStep(p: Pid, waited: bool): Step {
    if waited then HandOverStep(p) else ReapStep(p)
  }

  /** A process leaves a descriptor behind exactly when no parent was waiting and it had one. */
  lemma LeavingLeaksIff(g: Graph, p: Pid, waited: bool)
    requires GraphOk(g) && p in g.lists
    ensures var t := Apply(g, LeaveStep(p, waited));
            (exists d :: Orphan(t, d) && t.descriptors[d].pid == p) <==> !waited && g.lists[p] != []
  {
    var t := Apply(g, LeaveStep(p, waited));
    if waited {
      ReleaseLists(g, p);
      forall d | d in t.descriptors ensures t.descriptors[d].pid != p { HandOverReleasesAll(g, p, d); }
    } else if g.lists[p] != [] {
      assert g.lists[p][0] in g.lists[p];
      assert Orphan(t, g.lists[p][0]);
    } else {
      forall d | d in t.descriptors ensures t.descriptors[d].pid != p { assert g.descriptors[d].pid != p; }
    }
  }

  lemma ReleaseLists(g: Graph, p: Pid)
    requires GraphOk(g) && p in g.lists
    ensures ListsOk(ReleaseAll(g, p, g.lists[p]))
  {
    ReleaseKeeps(g, p, g.lists[p]);
  }

  lemma NothingHeld(g: Graph, p: Pid)
    requires ListsOk(g) && p in g.lists
    ensures p in ReleaseAll(g, p, g.lists[p]).lists
    ensures forall e {:trigger e in ReleaseAll(g, p, g.lists[p]).lists[p]} ::
            e !in ReleaseAll(g, p, g.lists[p]).lists[p]
  {
    ReleasedAreGone(g, p, g.lists[p]);
  }

  lemma NoneLeft(g: Graph, p: Pid, d: Cell)
    requires ListsOk(g) && p in g.lists && (forall e {:trigger e in g.lists[p]} :: e !in g.lists[p])
             && d in g.descriptors
    ensures g.descriptors[d].pid != p
  {
  }

  lemma {:induction false} ReleasedAreGone(g: Graph, p: Pid, list: seq<Cell>)
    requires p in g.lists && NoDup(list)
    requires forall e {:trigger e in list} :: e in list ==> e in g.descriptors
    ensures p in ReleaseAll(g, p, list).lists
    ensures forall e {:trigger e in ReleaseAll(g, p, list).lists[p]} :: e in ReleaseAll(g, p, list).lists[p] ==>
            e in g.lists[p] && e !in list
    decreases list
  {
    if list != [] {
      assert list[0] in list;
      RestOf(list);
      var t := Detach(g, p, list[0]);
      assert t.lists[p] == Without(g.lists[p], {list[0]});
      ReleasedAreGone(t, p, list[1..]);
      forall e | e in ReleaseAll(g, p, list).lists[p] ensures e in g.lists[p] && e !in list {
        assert e in t.lists[p];
      }
    }
  }
}
