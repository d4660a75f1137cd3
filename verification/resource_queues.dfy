/** The queue block of a resource: which resources have one of their own. Resource_alloc does not
    write the address, so that a block of the resource pool keeps it from the first queue on. */
module ResourceQueues {
  import opened Seqs
  import opened Constants
  import opened ResourceGraph
  import opened ResourceRuns

  /** The address in a block of the resource pool, which is zeroed storage. */
  function ValueOf(g: Graph, r: Cell): int {
    if r in g.memory then g.memory[r].value else 0
  }

  /** The step allocates a queue for the resource in block `r`. */
  predicate Gives(g: Graph, step: Step, r: Cell) {
    step.QueueStep? && ById(g, g.resources, step.id) == Some(r) && ValueOf(g, r) == 0 && g.freeQueues != []
  }

  /** The step is an open that creates a resource, in the block at the head of the pool. */
  predicate Creates(g: Graph, step: Step) {
    step.OpenStep? && Has(step.mode, DSOS_CREATE) && ById(g, g.resources, step.id).None? && g.freeResources != []
  }

  /** Some earlier step allocated a queue for a resource in block `r`. */
  ghost predicate HeldQueue(states: seq<Graph>, steps: seq<Step>, i: nat, r: Cell)
    requires i <= |steps| && |states| == |steps| + 1
  {
    exists j :: 0 <= j < i && Gives(states[j], steps[j], r)
  }

  function KindOf(g: Graph, r: Cell): int {
    if r in g.memory then g.memory[r].kind else 0
  }

  // What the steps do to the addresses.

  /** The same resources of the same types have the same addresses, and the same are free. */
  ghost predicate SameQueues(g: Graph, t: Graph) {
    && t.resources == g.resources && t.freeQueues == g.freeQueues
    && forall r :: ValueOf(t, r) == ValueOf(g, r) && KindOf(t, r) == KindOf(g, r)
  }

  lemma DetachQueues(g: Graph, p: Pid, d: Cell)
    requires p in g.lists && d in g.descriptors
    ensures SameQueues(g, Detach(g, p, d))
  {
  }

  lemma {:induction false} ReleaseQueues(g: Graph, p: Pid, list: seq<Cell>)
    requires p in g.lists
    ensures SameQueues(g, ReleaseAll(g, p, list))
    decreases list
  {
    if list != [] {
      if list[0] in g.descriptors {
        DetachQueues(g, p, list[0]);
        ReleaseQueues(Detach(g, p, list[0]), p, list[1..]);
      } else {
        ReleaseQueues(g, p, list[1..]);
      }
    }
  }

  lemma OpenAtQueues(g: Graph, p: Pid, r: Cell, kind: int, mode: int)
    requires p in g.lists && p in g.lastFd && r in g.memory
    ensures SameQueues(g, OpenAt(g, p, r, kind, mode).0)
  {
  }

  /** Apart from the resource that it may create, an open changes nothing here. */
  lemma OpenQueues(g: Graph, p: Pid, id: int, kind: int, mode: int)
    requires p in g.lists && p in g.lastFd
    ensures var step := OpenStep(p, id, kind, mode);
            SameQueues(if Creates(g, step) then Create(g, id, kind) else g, Open(g, p, id, kind, mode).0)
  {
    var found := ById(g, g.resources, id);
    if Creates(g, OpenStep(p, id, kind, mode)) {
      OpenAtQueues(Create(g, id, kind), p, g.freeResources[0], kind, mode);
    } else if found.Some? {
      OpenAtQueues(g, p, found.value, kind, mode);
    }
  }

  lemma CloseQueues(g: Graph, p: Pid, fd: int)
    requires p in g.lists
    ensures SameQueues(g, Close(g, p, fd).0)
  {
    var d := ByFd(g, g.lists[p], fd);
    if d.Some? { DetachQueues(g, p, d.value); }
  }

  /** A block keeps its address in every step but the one that gives it its first queue. */
  lemma StepValues(g: Graph, step: Step, r: Cell)
    requires Enabled(g, step)
    ensures ValueOf(Apply(g, step), r) == if Gives(g, step, r) then g.freeQueues[0] else ValueOf(g, r)
  {
    match step
    case OpenStep(p, id, kind, mode) => OpenQueues(g, p, id, kind, mode);
    case CloseStep(p, fd) => CloseQueues(g, p, fd);
    case HandOverStep(p) => ReleaseQueues(g, p, g.lists[p]);
    case _ =>
  }

  // Which resources are without a queue.

  /** No queue has the null address. */
  predicate NotNull(g: Graph) {
    (forall q {:trigger q in g.freeQueues} :: q in g.freeQueues ==> q > 0)
    && forall r {:trigger g.memory[r]} :: r in g.memory ==> g.memory[r].value >= 0
  }

  lemma StepNotNull(g: Graph, step: Step)
    requires Enabled(g, step) && NotNull(g)
    ensures NotNull(Apply(g, step))
  {
    var t := Apply(g, step);
    forall r | r in t.memory ensures t.memory[r].value >= 0 {
      StepValues(g, step, r);
      assert t.memory[r].value == ValueOf(t, r) && ValueOf(g, r) >= 0;
      if Gives(g, step, r) { assert g.freeQueues[0] in g.freeQueues; }
    }
    FreeStaysNotNull(g, step);
  }

  lemma FreeStaysNotNull(g: Graph, step: Step)
    requires Enabled(g, step) && NotNull(g)
    ensures forall q {:trigger q in Apply(g, step).freeQueues} :: q in Apply(g, step).freeQueues ==> q > 0
  {
    match step
    case OpenStep(p, id, kind, mode) => OpenQueues(g, p, id, kind, mode);
    case CloseStep(p, fd) => CloseQueues(g, p, fd);
    case HandOverStep(p) => ReleaseQueues(g, p, g.lists[p]);
    case DestroyStep(id) =>
      var found := ById(g, g.resources, id);
      if found.Some? { assert g.memory[found.value].value >= 0; }
    case QueueStep(id) =>
      assert g.freeQueues != [] ==>
          forall q {:trigger q in g.freeQueues[1..]} :: q in g.freeQueues[1..] ==> q in g.freeQueues;
    case _ =>
  }

  lemma GivenIsHeld(states: seq<Graph>, steps: seq<Step>, i: nat, r: Cell)
    requires |states| == |steps| + 1 && 0 < i <= |steps|
    ensures HeldQueue(states, steps, i, r) <==>
              HeldQueue(states, steps, i - 1, r) || Gives(states[i - 1], steps[i - 1], r)
  {
    if HeldQueue(states, steps, i, r) {
      var j :| 0 <= j < i && Gives(states[j], steps[j], r);
    }
  }

  /** In every reachable state a block has an address exactly when a queue was ever allocated for
      a resource in it. */
  lemma {:induction false} ValueIff(states: seq<Graph>, steps: seq<Step>, i: nat, r: Cell)
    requires Run(states, steps) && i < |states|
    ensures NotNull(states[i]) && (ValueOf(states[i], r) != 0 <==> HeldQueue(states, steps, i, r))
  {
    if i > 0 {
      ValueIff(states, steps, i - 1, r);
      assert Enabled(states[i - 1], steps[i - 1]) && states[i - 1 + 1] == Apply(states[i - 1], steps[i - 1]);
      StepNotNull(states[i - 1], steps[i - 1]);
      StepValues(states[i - 1], steps[i - 1], r);
      GivenIsHeld(states, steps, i, r);
      if Gives(states[i - 1], steps[i - 1], r) { assert states[i - 1].freeQueues[0] in states[i - 1].freeQueues; }
    }
  }

  /** A resource that an open creates is without a queue, so that openQueue allocates one,
      exactly when no resource in its block ever had one. */
  lemma FreshIff(states: seq<Graph>, steps: seq<Step>, i: nat)
    requires Run(states, steps) && i < |steps| && Creates(states[i], steps[i])
    ensures var r, t := states[i].freeResources[0], states[i + 1];
            && ById(t, t.resources, steps[i].id) == Some(r)
            && (ValueOf(t, r) == 0 <==> !HeldQueue(states, steps, i, r))
            && (!HeldQueue(states, steps, i, r) && t.freeQueues != [] <==> Gives(t, QueueStep(steps[i].id), r))
  {
    var g, step, r := states[i], steps[i], states[i].freeResources[0];
    assert Enabled(g, step) && states[i + 1] == Apply(g, step);
    RunOk(states, steps, i);
    ValueIff(states, steps, i, r);
    StepValues(g, step, r);
    assert r in g.freeResources;
    FoundLast(g, r, Create(g, step.id, step.kind), step.id);
    FoundAfterOpen(g, step);
  }

  lemma FoundAfterOpen(g: Graph, step: Step)
    requires Enabled(g, step) && Creates(g, step)
    ensures var c, t := Create(g, step.id, step.kind), Apply(g, step);
            ById(t, t.resources, step.id) == ById(c, c.resources, step.id)
  {
    var c := Create(g, step.id, step.kind);
    SameLookup(c, Apply(g, step), step.id);
  }

  // Which resources have a queue of their own.

  /** A listed resource of the type of queues with an address. */
  predicate ListedQueue(g: Graph, r: Cell) {
    r in g.resources && KindOf(g, r) == QUEUE_KIND && ValueOf(g, r) != 0
  }

  /** No queue block is shared by two listed resources, or free while one of them has it. */
  ghost predicate OwnQueues(g: Graph) {
    && (forall r {:trigger ListedQueue(g, r)} :: ListedQueue(g, r) ==> ValueOf(g, r) !in g.freeQueues)
    && (forall r, t {:trigger ListedQueue(g, r), ListedQueue(g, t)} ::
          ListedQueue(g, r) && ListedQueue(g, t) && r != t ==> ValueOf(g, r) != ValueOf(g, t))
  }

  /** An address that was left behind belongs to a free queue block, or to the resource that has
      the block now. */
  ghost predicate LeftOk(g: Graph, r: Cell) {
    ValueOf(g, r) != 0 && !ListedQueue(g, r) ==>
      ValueOf(g, r) in g.freeQueues || exists t {:trigger ListedQueue(g, t)} :: HasToo(g, r, t)
  }

  predicate HasToo(g: Graph, r: Cell, t: Cell) {
    ListedQueue(g, t) && ValueOf(g, t) == ValueOf(g, r)
  }

  ghost predicate Traced(g: Graph) {
    NoDup(g.freeQueues) && NotNull(g) && forall r {:trigger LeftOk(g, r)} :: LeftOk(g, r)
  }

  /** What an open creates gets a block that never had a queue, unless it is of another type. */
  predicate FreshOpen(g: Graph, step: Step) {
    Creates(g, step) && step.kind == QUEUE_KIND ==> ValueOf(g, g.freeResources[0]) == 0
  }

  lemma SameListed(g: Graph, t: Graph, r: Cell)
    requires SameQueues(g, t)
    ensures ListedQueue(t, r) <==> ListedQueue(g, r)
  {
  }

  lemma SameOwn(g: Graph, t: Graph)
    requires SameQueues(g, t)
    ensures OwnQueues(t) <==> OwnQueues(g)
  {
    forall r ensures ListedQueue(t, r) <==> ListedQueue(g, r) { SameListed(g, t, r); }
  }

  lemma SameLeft(g: Graph, t: Graph)
    requires SameQueues(g, t) && Traced(g) && NotNull(t)
    ensures Traced(t)
  {
    forall r ensures LeftOk(t, r) {
      assert LeftOk(g, r);
      SameListed(g, t, r);
      if x :| HasToo(g, r, x) {
        SameListed(g, t, x);
        assert HasToo(t, r, x);
      }
    }
  }

  lemma WhoHas(g: Graph, r: Cell) returns (x: Cell)
    requires LeftOk(g, r) && ValueOf(g, r) != 0 && !ListedQueue(g, r) && ValueOf(g, r) !in g.freeQueues
    ensures x in g.resources && x != r && ListedQueue(g, x) && ValueOf(g, x) == ValueOf(g, r)
  {
    x :| HasToo(g, r, x);
    assert ListedQueue(g, x);
  }

  /** A new resource has a queue of its own exactly when it has none yet, or is of another type. */
  lemma CreateOwnIff(g: Graph, id: int, kind: int)
    requires ResourcesOk(g) && OwnQueues(g) && Traced(g) && g.freeResources != []
    ensures OwnQueues(Create(g, id, kind)) <==> (kind == QUEUE_KIND ==> ValueOf(g, g.freeResources[0]) == 0)
  {
    var t, b := Create(g, id, kind), g.freeResources[0];
    assert b in g.freeResources && t.resources[|g.resources|] == b;
    assert forall r :: r in t.resources <==> r in g.resources || r == b;
    assert forall r :: ValueOf(t, r) == ValueOf(g, r) && (r != b ==> KindOf(t, r) == KindOf(g, r));
    forall r | r != b ensures ListedQueue(t, r) <==> ListedQueue(g, r) {}
    assert ListedQueue(t, b) <==> kind == QUEUE_KIND && ValueOf(g, b) != 0;
    if ListedQueue(t, b) {
      assert LeftOk(g, b);
      if ValueOf(g, b) !in g.freeQueues {
        var x := WhoHas(g, b);
        assert ListedQueue(t, x) && x != b && ValueOf(t, x) == ValueOf(t, b);
      }
    }
  }

  lemma CreateTraced(g: Graph, id: int, kind: int)
    requires ResourcesOk(g) && Traced(g) && g.freeResources != []
    ensures Traced(Create(g, id, kind))
  {
    var t, b := Create(g, id, kind), g.freeResources[0];
    assert b in g.freeResources;
    forall r ensures LeftOk(t, r) {
      assert LeftOk(g, r);
      if x :| HasToo(g, r, x) {
        assert x in g.resources && HasToo(t, r, x);
      }
    }
  }

  lemma GiveOwn(g: Graph, id: int)
    requires OwnQueues(g) && Traced(g)
    ensures OwnQueues(GiveQueue(g, id))
  {
    var t := GiveQueue(g, id);
    if t != g {
      var b := ById(g, g.resources, id).value;
      assert forall q :: q in t.freeQueues ==> q in g.freeQueues && q != g.freeQueues[0];
      assert g.freeQueues[0] in g.freeQueues;
      forall r | r != b ensures ListedQueue(t, r) <==> ListedQueue(g, r) {}
    }
  }

  lemma GiveTraced(g: Graph, id: int)
    requires Traced(g) && (ById(g, g.resources, id).Some? ==> OfKind(g, id, QUEUE_KIND))
    ensures Traced(GiveQueue(g, id))
  {
    var t, step := GiveQueue(g, id), QueueStep(id);
    assert Enabled(g, step) && Apply(g, step) == t;
    StepNotNull(g, step);
    if t != g {
      var b := ById(g, g.resources, id).value;
      assert g.freeQueues[0] in g.freeQueues && ListedQueue(t, b);
      forall r ensures LeftOk(t, r) {
        assert LeftOk(g, r);
        if ValueOf(g, r) == g.freeQueues[0] { assert HasToo(t, r, b); }
        if x :| HasToo(g, r, x) { assert HasToo(t, r, x); }
        assert forall q :: q in g.freeQueues && q != g.freeQueues[0] ==> q in t.freeQueues;
      }
    }
  }

  lemma DestroyOwn(g: Graph, id: int)
    requires OwnQueues(g) && Traced(g)
    ensures OwnQueues(Destroy(g, id).0)
  {
    var t := Destroy(g, id).0;
    if t != g {
      var b := ById(g, g.resources, id).value;
      forall r ensures ListedQueue(t, r) <==> ListedQueue(g, r) && r != b {}
      if IsQueue(g, b) { assert ListedQueue(g, b); }
    }
  }

  lemma DestroyTraced(g: Graph, id: int)
    requires OwnQueues(g) && Traced(g)
    ensures Traced(Destroy(g, id).0)
  {
    var t := Destroy(g, id).0;
    StepNotNull(g, DestroyStep(id));
    if t != g {
      var b := ById(g, g.resources, id).value;
      forall r ensures ListedQueue(t, r) <==> ListedQueue(g, r) && r != b {}
      assert forall q :: q in g.freeQueues ==> q in t.freeQueues;
      if IsQueue(g, b) { assert ListedQueue(g, b) && ValueOf(g, b) in t.freeQueues; }
      forall r ensures LeftOk(t, r) {
        assert LeftOk(g, r);
        if x :| HasToo(g, r, x) {
          if x != b { assert HasToo(t, r, x); }
        }
      }
    }
  }

  lemma OpenOwnIff(g: Graph, p: Pid, id: int, kind: int, mode: int)
    requires ResourcesOk(g) && OwnQueues(g) && Traced(g) && p in g.lists && p in g.lastFd
    ensures OwnQueues(Open(g, p, id, kind, mode).0) <==> FreshOpen(g, OpenStep(p, id, kind, mode))
    ensures Traced(Open(g, p, id, kind, mode).0)
  {
    var step, t := OpenStep(p, id, kind, mode), Open(g, p, id, kind, mode).0;
    assert Apply(g, step) == t;
    StepNotNull(g, step);
    OpenQueues(g, p, id, kind, mode);
    if Creates(g, step) {
      CreateOwnIff(g, id, kind);
      CreateTraced(g, id, kind);
      SameOwn(Create(g, id, kind), t);
      SameLeft(Create(g, id, kind), t);
    } else {
      SameOwn(g, t);
      SameLeft(g, t);
    }
  }

  lemma SameStep(g: Graph, step: Step)
    requires Enabled(g, step) && OwnQueues(g) && Traced(g)
    requires step.CloseStep? || step.HandOverStep? || step.SpawnStep? || step.ReapStep?
    ensures OwnQueues(Apply(g, step)) && Traced(Apply(g, step))
  {
    match step {
      case CloseStep(p, fd) => CloseQueues(g, p, fd);
      case HandOverStep(p) => ReleaseQueues(g, p, g.lists[p]);
      case _ =>
    }
    StepNotNull(g, step);
    SameOwn(g, Apply(g, step));
    SameLeft(g, Apply(g, step));
  }

  lemma StepOwnIff(g: Graph, step: Step)
    requires ResourcesOk(g) && OwnQueues(g) && Traced(g) && Enabled(g, step)
    ensures OwnQueues(Apply(g, step)) <==> FreshOpen(g, step)
    ensures Traced(Apply(g, step))
  {
    match step
    case OpenStep(p, id, kind, mode) => OpenOwnIff(g, p, id, kind, mode);
    case QueueStep(id) =>
      GiveOwn(g, id);
      GiveTraced(g, id);
    case DestroyStep(id) =>
      DestroyOwn(g, id);
      DestroyTraced(g, id);
    case _ => SameStep(g, step);
  }

  ghost predicate AlwaysOwn(states: seq<Graph>, i: nat)
    requires i < |states|
  {
    forall j :: 0 <= j <= i ==> OwnQueues(states[j])
  }

  ghost predicate OpensFresh(states: seq<Graph>, steps: seq<Step>, i: nat)
    requires i <= |steps| && |states| == |steps| + 1
  {
    forall j :: 0 <= j < i ==> FreshOpen(states[j], steps[j])
  }

  lemma OwnNext(states: seq<Graph>, i: nat)
    requires 0 < i < |states|
    ensures AlwaysOwn(states, i) <==> AlwaysOwn(states, i - 1) && OwnQueues(states[i])
  {
  }

  lemma FreshNext(states: seq<Graph>, steps: seq<Step>, i: nat)
    requires 0 < i <= |steps| && |states| == |steps| + 1
    ensures OpensFresh(states, steps, i) <==> OpensFresh(states, steps, i - 1) && FreshOpen(states[i - 1], steps[i - 1])
  {
  }

  /** Over every run: queue blocks were never shared by two resources, nor free while a resource
      had one, exactly when every resource of that type was created in a block that never had a
      queue before. */
  lemma {:induction false} OwnQueuesIff(states: seq<Graph>, steps: seq<Step>, i: nat)
    requires Run(states, steps) && i < |states|
    ensures AlwaysOwn(states, i) <==> OpensFresh(states, steps, i)
    ensures AlwaysOwn(states, i) ==> Traced(states[i])
  {
    if i > 0 {
      OwnQueuesIff(states, steps, i - 1);
      OwnNext(states, i);
      FreshNext(states, steps, i);
      if AlwaysOwn(states, i - 1) {
        assert Enabled(states[i - 1], steps[i - 1]) && states[i - 1 + 1] == Apply(states[i - 1], steps[i - 1]);
        RunOk(states, steps, i - 1);
        StepOwnIff(states[i - 1], steps[i - 1]);
      }
    } else {
      StartOwn();
    }
  }

  lemma StartOwn()
    ensures OwnQueues(Start()) && Traced(Start())
  {
  }

  /** What goes wrong otherwise: the queue of a destroyed resource is free, the next new id has
      its address, and the queue that is allocated for the one after that is the same block. */
  lemma SharedBlock(g: Graph, id: int, id2: int, id3: int)
    requires ResourcesOk(g) && OwnQueues(g) && Destroy(g, id).1 == 0 && ListedQueue(g, ById(g, g.resources, id).value)
    requires g.freeResources != [] && ValueOf(g, g.freeResources[0]) == 0 && id2 != id3
    requires ById(Destroy(g, id).0, Destroy(g, id).0.resources, id2).None?
    requires ById(Destroy(g, id).0, Destroy(g, id).0.resources, id3).None?
    ensures var r, b := ById(g, g.resources, id).value, g.freeResources[0];
            var u := Create(Destroy(g, id).0, id2, QUEUE_KIND);
            var t := GiveQueue(Create(u, id3, QUEUE_KIND), id3);
            && ById(u, u.resources, id2) == Some(r) && ById(t, t.resources, id3) == Some(b) && r != b
            && ValueOf(u, r) == ValueOf(g, r) && ValueOf(u, r) in u.freeQueues
            && ValueOf(t, r) == ValueOf(t, b) == ValueOf(g, r) && r in t.resources && b in t.resources
  {
    var r, b := ById(g, g.resources, id).value, g.freeResources[0];
    var d := Destroy(g, id).0;
    assert b in g.freeResources && r in g.resources;
    FoundLast(d, r, Create(d, id2, QUEUE_KIND), id2);
    var u := Create(d, id2, QUEUE_KIND);
    assert u.freeResources[0] == b && u.resources[|d.resources|] == r;
    StillUnknown(d, r, id2, id3);
    NextQueue(u, b, r, id3);
  }

  lemma StillUnknown(d: Graph, r: Cell, id2: int, id3: int)
    requires d.freeResources != [] && d.freeResources[0] == r && r !in d.resources && id2 != id3
    requires ById(d, d.resources, id3).None?
    ensures var u := Create(d, id2, QUEUE_KIND); ById(u, u.resources, id3).None?
  {
    var u := Create(d, id2, QUEUE_KIND);
    assert forall b :: b in u.resources ==> b in d.resources || b == r;
  }

  lemma NextQueue(u: Graph, b: Cell, r: Cell, id: int)
    requires u.freeResources != [] && u.freeResources[0] == b && b !in u.resources && ValueOf(u, b) == 0
    requires ById(u, u.resources, id).None? && u.freeQueues != [] && r in u.resources && r in u.memory
    ensures var t := GiveQueue(Create(u, id, QUEUE_KIND), id);
            && ById(t, t.resources, id) == Some(b) && ValueOf(t, b) == u.freeQueues[0]
            && ValueOf(t, r) == ValueOf(u, r) && r in t.resources && b in t.resources
  {
    var c := Create(u, id, QUEUE_KIND);
    assert c.resources[|u.resources|] == b;
    FoundLast(u, b, c, id);
    SameLookup(c, GiveQueue(c, id), id);
  }

  // A run on which that happens.

  const OPEN_7 := OpenStep(0, 7, QUEUE_KIND, DSOS_CREATE)
  const OPEN_8 := OpenStep(0, 8, QUEUE_KIND, DSOS_CREATE)
  const OPEN_9 := OpenStep(0, 9, QUEUE_KIND, DSOS_CREATE)

  /** One process with at most one descriptor open, `fd` being the number of it or of the next. */
  function Scene(resources: seq<Cell>, memory: map<Cell, Resource>, descriptors: map<Cell, Descriptor>,
      lastFd: Fd, freeQueues: seq<int>): Graph
  {
    var n := |descriptors|;
    Graph(resources, memory, AllCells()[if |resources| <= POOL_SIZE then |resources| else 0..],
        descriptors, AllCells()[if n <= POOL_SIZE then n else 0..],
        map d | d in descriptors :: d, AllCells()[if n <= POOL_SIZE then n else 0..],
        map[0 := if n == 0 then [] else if n == 1 then [0] else [0, 1]], map[0 := lastFd], 1, freeQueues)
  }

  const FIRST := Descriptor(0, 0, 0, Some(0))
  const SECOND := Descriptor(0, 1, 0, Some(0))
  const THIRD := Descriptor(0, 2, 1, Some(1))
  const OPENED_7 := Scene([0], map[0 := Resource(7, QUEUE_KIND, [0], 0)], map[0 := FIRST], 1, AllQueues())
  const QUEUE_7 := Scene([0], map[0 := Resource(7, QUEUE_KIND, [0], 1)], map[0 := FIRST], 1, AllQueues()[1..])
  const CLOSED_7 := Scene([0], map[0 := Resource(7, QUEUE_KIND, [], 1)], map[], 1, AllQueues()[1..])
  const GONE_7 := Scene([], map[0 := Resource(7, QUEUE_KIND, [], 1)], map[], 1, AllQueues())
  const OPENED_8 := Scene([0], map[0 := Resource(8, QUEUE_KIND, [0], 1)], map[0 := SECOND], 2, AllQueues())
  const OPENED_9 := Scene([0, 1], map[0 := Resource(8, QUEUE_KIND, [0], 1), 1 := Resource(9, QUEUE_KIND, [1], 0)],
                          map[0 := SECOND, 1 := THIRD], 3, AllQueues())
  const SHARED := Scene([0, 1], map[0 := Resource(8, QUEUE_KIND, [0], 1), 1 := Resource(9, QUEUE_KIND, [1], 1)],
                          map[0 := SECOND, 1 := THIRD], 3, AllQueues()[1..])
  /** An open that creates a resource of the type of queues, from a state with free blocks. */
  lemma OpensNew(g: Graph, id: int)
    requires ById(g, g.resources, id).None? && 0 in g.lists && 0 in g.lastFd
    requires g.freeResources != [] && g.freeDescriptors != [] && g.freePointers != []
    ensures var b, d, q := g.freeResources[0], g.freeDescriptors[0], g.freePointers[0];
            Apply(g, OpenStep(0, id, QUEUE_KIND, DSOS_CREATE)) ==
              g.(resources := g.resources + [b], freeResources := g.freeResources[1..],
                 memory := g.memory[b := Resource(id, QUEUE_KIND, [q], ValueOf(g, b))],
                 descriptors := g.descriptors[d := Descriptor(0, g.lastFd[0], b, Some(q))],
                 freeDescriptors := g.freeDescriptors[1..],
                 pointers := g.pointers[q := d], freePointers := g.freePointers[1..],
                 lists := g.lists[0 := g.lists[0] + [d]], lastFd := g.lastFd[0 := g.lastFd[0] + 1])
  {
    assert [] + [g.freePointers[0]] == [g.freePointers[0]];
    Overwritten(g.memory, g.freeResources[0], Create(g, id, QUEUE_KIND).memory[g.freeResources[0]],
        Resource(id, QUEUE_KIND, [g.freePointers[0]], ValueOf(g, g.freeResources[0])));
  }

  lemma Overwritten(m: map<Cell, Resource>, b: Cell, x: Resource, y: Resource)
    ensures m[b := x][b := y] == m[b := y]
  {
  }

  lemma Opens7()
    ensures Apply(Start(), OPEN_7) == OPENED_7
  {
    OpensNew(Start(), 7);
    assert [] + [0] == [0];
  }

  lemma Queue7()
    ensures Enabled(OPENED_7, QueueStep(7)) && Apply(OPENED_7, QueueStep(7)) == QUEUE_7
  {
    assert AllQueues()[0] == 1;
    assert ById(OPENED_7, [0], 7) == Some(0);
    assert Apply(OPENED_7, QueueStep(7)).memory == QUEUE_7.memory;
  }

  lemma Closes7()
    ensures Apply(QUEUE_7, CloseStep(0, 0)) == CLOSED_7
  {
    assert ByFd(QUEUE_7, [0], 0) == Some(0);
    CloseIsDetach(QUEUE_7, 0, 0, 0);
    Detaches7();
  }

  lemma Detaches7()
    ensures Detach(QUEUE_7, 0, 0) == CLOSED_7
  {
    var t := Detach(QUEUE_7, 0, 0);
    WithoutLast([], 0);
    assert [] + [0] == [0];
    assert [0] + AllCells()[1..] == AllCells();
    assert t.memory == CLOSED_7.memory && t.lists == CLOSED_7.lists;
    assert t.descriptors == CLOSED_7.descriptors && t.pointers == CLOSED_7.pointers;
  }

  lemma Destroys7()
    ensures Apply(CLOSED_7, DestroyStep(7)) == GONE_7
  {
    assert ById(CLOSED_7, [0], 7) == Some(0);
    WithoutLast([], 0);
    assert [] + [0] == [0];
    assert [0] + AllCells()[1..] == AllCells();
    assert [1] + AllQueues()[1..] == AllQueues();
    assert 1 !in AllQueues()[1..];
  }

  lemma Opens8()
    ensures Apply(GONE_7, OPEN_8) == OPENED_8
  {
    assert ById(GONE_7, [], 8) == None && ValueOf(GONE_7, 0) == 1;
    OpensNew(GONE_7, 8);
    assert [] + [0] == [0] && AllCells()[0] == 0;
    assert GONE_7.memory[0 := Resource(8, QUEUE_KIND, [0], 1)] == OPENED_8.memory;
    assert GONE_7.descriptors[0 := SECOND] == OPENED_8.descriptors && GONE_7.pointers[0 := 0] == OPENED_8.pointers;
    assert GONE_7.lists[0 := [0]] == OPENED_8.lists && GONE_7.lastFd[0 := 2] == OPENED_8.lastFd;
  }

  lemma Opens9()
    ensures Apply(OPENED_8, OPEN_9) == OPENED_9
  {
    assert ById(OPENED_8, [0], 9) == None;
    OpensNew(OPENED_8, 9);
    assert [0] + [1] == [0, 1];
    assert AllCells()[1..][1..] == AllCells()[2..];
  }

  lemma Queue9()
    ensures Enabled(OPENED_9, QueueStep(9)) && Apply(OPENED_9, QueueStep(9)) == SHARED
  {
    assert AllQueues()[0] == 1;
    assert ById(OPENED_9, [0, 1], 9) == Some(1) by { assert [0, 1][1..] == [1]; }
    assert Apply(OPENED_9, QueueStep(9)).memory == SHARED.memory;
  }

  lemma GoneReachable()
    ensures Reachable(GONE_7)
  {
    StartReachable();
    Opens7();
    Extend(Start(), OPEN_7, OPENED_7);
    Queue7();
    Extend(OPENED_7, QueueStep(7), QUEUE_7);
    Closes7();
    Extend(QUEUE_7, CloseStep(0, 0), CLOSED_7);
    Destroys7();
    Extend(CLOSED_7, DestroyStep(7), GONE_7);
  }

  lemma SharedReachable()
    ensures Reachable(OPENED_8) && Reachable(SHARED)
  {
    GoneReachable();
    Opens8();
    Extend(GONE_7, OPEN_8, OPENED_8);
    Opens9();
    Extend(OPENED_8, OPEN_9, OPENED_9);
    Queue9();
    Extend(OPENED_9, QueueStep(9), SHARED);
  }

  lemma SharedAddress()
    ensures ListedQueue(SHARED, 0) && ListedQueue(SHARED, 1) && ValueOf(SHARED, 0) == ValueOf(SHARED, 1)
  {
    assert [0, 1][1] == 1;
  }

  lemma StaleAddress()
    ensures ListedQueue(OPENED_8, 0) && ValueOf(OPENED_8, 0) in OPENED_8.freeQueues
  {
    assert AllQueues()[0] == 1;
  }

  /** After queue 7 was destroyed two new ids are opened. The first has the address of the old
      queue, which is free, and then the second is given the same block. */
  lemma TwoIdsOneQueue()
    ensures Reachable(GONE_7) && Apply(GONE_7, OPEN_8) == OPENED_8
    ensures ListedQueue(OPENED_8, 0) && ValueOf(OPENED_8, 0) in OPENED_8.freeQueues
    ensures Reachable(SHARED) && ListedQueue(SHARED, 0) && ListedQueue(SHARED, 1)
    ensures ValueOf(SHARED, 0) == ValueOf(SHARED, 1) && !OwnQueues(SHARED)
  {
    GoneReachable();
    SharedReachable();
    Opens8();
    StaleAddress();
    SharedAddress();
  }
}
