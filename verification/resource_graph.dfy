/** Resources, descriptors and the pointers back from a resource to its descriptors. */
module ResourceGraph {
  import opened Seqs
  import opened Constants

  type Cell = nat      // a block of one of the three pools

  /** MAX_NUM_RESOURCES, and MAX_NUM_PROCESSES for both descriptor pools. */
  const POOL_SIZE := 1024

  /** The bit is set in the two's complement form of the mode. */
  predicate Has(mode: int, bit: int)
    requires bit > 0
  {
    mode / bit % 2 == 1
  }

  datatype Descriptor = Descriptor(pid: Pid, fd: Fd, resource: Cell, ptr: Option<Cell>)

  /** A resource block; `value` is the address of its queue, 0 when it has none. */
  datatype Resource = Resource(id: int, kind: int, ptrs: seq<Cell>, value: int)

  /** `resources` is the list of resources and `memory` the content of every resource block,
      released ones included. `pointers` gives the descriptor of each descriptor pointer that
      is out. `lists` and `lastFd` are fields of the live control blocks. Each pool is the
      list of its free blocks, the next one to be handed out first; queue blocks are given by
      their addresses, which are not 0. */
  datatype Graph = Graph(
    resources: seq<Cell>, memory: map<Cell, Resource>, freeResources: seq<Cell>,
    descriptors: map<Cell, Descriptor>, freeDescriptors: seq<Cell>,
    pointers: map<Cell, Cell>, freePointers: seq<Cell>,
    lists: map<Pid, seq<Cell>>, lastFd: map<Pid, Fd>, lastPid: Pid,
    freeQueues: seq<int>)

  /** The type of the resources that dmq_open opens. */
  const QUEUE_KIND := 2

  function AllQueues(): (r: seq<int>)
    ensures |r| == MAX_NUM_QUEUES && NoDup(r) && forall q :: q in r ==> q > 0
  {
    seq(MAX_NUM_QUEUES, i requires 0 <= i => i + 1)
  }

  function AllCells(): (r: seq<Cell>)
    ensures |r| == POOL_SIZE && NoDup(r)
  {
    seq(POOL_SIZE, i requires 0 <= i => i)
  }

  /** After initialisation, with the first process. */
  function Start(): Graph {
    Graph([], map[], AllCells(), map[], AllCells(), map[], AllCells(), map[0 := []], map[0 := 0], 1, AllQueues())
  }

  // Lookup.

  /** ResourceList_byId: the first resource with the id. */
  function ById(g: Graph, list: seq<Cell>, id: int): (r: Option<Cell>)
    ensures r.Some? ==> r.value in list && r.value in g.memory && g.memory[r.value].id == id
    ensures r.None? ==> forall b :: b in list && b in g.memory ==> g.memory[b].id != id
  {
    if list == [] then None
    else if list[0] in g.memory && g.memory[list[0]].id == id then Some(list[0])
    else ById(g, list[1..], id)
  }

  /** DescriptorList_byFd: the first descriptor with the number. */
  function ByFd(g: Graph, list: seq<Cell>, fd: int): (r: Option<Cell>)
    ensures r.Some? ==> r.value in list && r.value in g.descriptors && g.descriptors[r.value].fd == fd
    ensures r.None? ==> forall d :: d in list && d in g.descriptors ==> g.descriptors[d].fd != fd
  {
    if list == [] then None
    else if list[0] in g.descriptors && g.descriptors[list[0]].fd == fd then Some(list[0])
    else ByFd(g, list[1..], fd)
  }

  // disastrOS_open_resource.c

  /** Resource_alloc, and the insertion at the end of the list. The value stays what it was
      when the block was last used; a block never used before is zero. */
  function Create(g: Graph, id: int, kind: int): Graph
    requires g.freeResources != []
  {
    var b := g.freeResources[0];
    g.(resources := g.resources + [b],
       memory := g.memory[b := Resource(id, kind, [], if b in g.memory then g.memory[b].value else 0)],
       freeResources := g.freeResources[1..])
  }

  /** Descriptor_alloc and DescriptorPtr_alloc, whose result is not tested: when it is null
      the descriptor is left without a pointer and List_insert refuses the null item. */
  function Attach(g: Graph, p: Pid, r: Cell): Graph
    requires p in g.lists && p in g.lastFd && r in g.memory && g.freeDescriptors != []
  {
    var d, fd := g.freeDescriptors[0], g.lastFd[p];
    var ptr := if g.freePointers == [] then None else Some(g.freePointers[0]);
    var added := g.(descriptors := g.descriptors[d := Descriptor(p, fd, r, ptr)],
                    freeDescriptors := g.freeDescriptors[1..],
                    lists := g.lists[p := g.lists[p] + [d]],
                    lastFd := g.lastFd[p := fd + 1]);
    if ptr.None? then added
    else
      added.(pointers := g.pointers[ptr.value := d],
             freePointers := g.freePointers[1..],
             memory := g.memory[r := g.memory[r].(ptrs := g.memory[r].ptrs + [ptr.value])])
  }

  function Open(g: Graph, p: Pid, id: int, kind: int, mode: int): (Graph, int)
    requires p in g.lists && p in g.lastFd
  {
    var found := ById(g, g.resources, id);
    if Has(mode, DSOS_CREATE) && Has(mode, DSOS_EXCL) && found.Some? then (g, DSOS_ERESOURCENOEXCL)
    else if Has(mode, DSOS_CREATE) && found.None? then
      if g.freeResources == [] then (g, DSOS_ERESOURCECREATE)
      else OpenAt(Create(g, id, kind), p, g.freeResources[0], kind, mode)
    else if found.None? then (g, DSOS_ERESOURCEOPEN)
    else OpenAt(g, p, found.value, kind, mode)
  }

  function OpenAt(g: Graph, p: Pid, r: Cell, kind: int, mode: int): (Graph, int)
    requires p in g.lists && p in g.lastFd && r in g.memory
  {
    if g.memory[r].kind != kind then (g, DSOS_ERESOURCEOPEN)
    else if Has(mode, DSOS_EXCL) && g.memory[r].ptrs != [] then (g, DSOS_ERESOURCENOEXCL)
    else if g.freeDescriptors == [] then (g, DSOS_ERESOURCENOFD)
    else (Attach(g, p, r), g.lastFd[p])
  }

  // disastrOS_close_resource.c, the release loop of disastrOS_exit.c

  /** Both halves of a descriptor are taken out of their lists and released. */
  function Detach(g: Graph, p: Pid, d: Cell): Graph
    requires p in g.lists && d in g.descriptors
  {
    var des := g.descriptors[d];
    var gone := g.(lists := g.lists[p := Without(g.lists[p], {d})],
                   descriptors := g.descriptors - {d},
                   freeDescriptors := [d] + g.freeDescriptors);
    if des.ptr.Some? && des.ptr.value in g.pointers && des.resource in g.memory then
      var q, r := des.ptr.value, des.resource;
      gone.(memory := g.memory[r := g.memory[r].(ptrs := Without(g.memory[r].ptrs, {q}))],
            pointers := g.pointers - {q},
            freePointers := [q] + g.freePointers)
    else gone
  }

  function Close(g: Graph, p: Pid, fd: int): (Graph, int)
    requires p in g.lists
  {
    var d := ByFd(g, g.lists[p], fd);
    if d.None? then (g, DSOS_ERESOURCECLOSE) else (Detach(g, p, d.value), 0)
  }

  /** Every descriptor of a process is released, first to last. */
  function ReleaseAll(g: Graph, p: Pid, list: seq<Cell>): Graph
    requires p in g.lists
    decreases list
  {
    if list == [] then g
    else if list[0] in g.descriptors then ReleaseAll(Detach(g, p, list[0]), p, list[1..])
    else ReleaseAll(g, p, list[1..])
  }

  // disastrOS_destroy_resource.c

  /** Queue_free: the block goes back to the pool, which refuses one that is free already. */
  function FreeQueue(free: seq<int>, value: int): seq<int> {
    if value in free then free else [value] + free
  }

  function Destroy(g: Graph, id: int): (Graph, int) {
    var found := ById(g, g.resources, id);
    if found.None? then (g, DSOS_ERESOURCECLOSE)
    else
      var r := found.value;
      if g.memory[r].ptrs != [] then (g, DSOS_ERESOURCEINUSE)
      else
        (g.(resources := Without(g.resources, {r}), freeResources := [r] + g.freeResources,
            freeQueues := if IsQueue(g, r) then FreeQueue(g.freeQueues, g.memory[r].value) else g.freeQueues), 0)
  }

  /** A resource of the type of queues that has the address of one. */
  predicate IsQueue(g: Graph, r: Cell) {
    r in g.memory && g.memory[r].kind == QUEUE_KIND && g.memory[r].value != 0
  }

  // What else happens to the graph.

  /** What internal_openQueue does to the resource: when the value is null a queue is allocated
      and its address stored. */
  function GiveQueue(g: Graph, id: int): Graph {
    var found := ById(g, g.resources, id);
    if found.None? || g.memory[found.value].value != 0 || g.freeQueues == [] then g
    else
      g.(memory := g.memory[found.value := g.memory[found.value].(value := g.freeQueues[0])],
         freeQueues := g.freeQueues[1..])
  }

  /** PCB_alloc: no descriptors, numbers from 0 on, a pid that was never used. */
  function AddProcess(g: Graph): Graph {
    g.(lists := g.lists[g.lastPid := []], lastFd := g.lastFd[g.lastPid := 0], lastPid := g.lastPid + 1)
  }

  /** PCB_free. A process that exited without a waiting parent still has its descriptors, and
      nothing releases them. */
  function DropProcess(g: Graph, p: Pid): Graph {
    g.(lists := g.lists - {p}, lastFd := g.lastFd - {p})
  }

  // Invariant.

  /** A process lists its own descriptors, once each. */
  predicate OwnLists(g: Graph) {
    && g.lists.Keys == g.lastFd.Keys
    && (forall p {:trigger g.lists[p]} :: p in g.lists ==> p < g.lastPid && NoDup(g.lists[p]))
    && (forall p, d {:trigger d in g.lists[p]} :: p in g.lists && d in g.lists[p] ==>
        d in g.descriptors && g.descriptors[d].pid == p)
  }

  /** A live process lists all its descriptors, and their numbers are below `lastFd`. */
  predicate AllListed(g: Graph) {
    forall d {:trigger g.descriptors[d]} :: d in g.descriptors ==>
      var p := g.descriptors[d].pid;
      p < g.lastPid && (p in g.lists && p in g.lastFd ==> d in g.lists[p] && g.descriptors[d].fd < g.lastFd[p])
  }

  /** Two descriptors of a process have different numbers. */
  predicate NumbersDiffer(g: Graph) {
    forall d, e {:trigger g.descriptors[d], g.descriptors[e]} ::
      d in g.descriptors && e in g.descriptors && d != e && g.descriptors[d].pid == g.descriptors[e].pid ==>
        g.descriptors[d].fd != g.descriptors[e].fd
  }

  predicate ListsOk(g: Graph) {
    OwnLists(g) && AllListed(g) && NumbersDiffer(g)
  }

  /** Descriptors and pointers name each other, and the pointer is in the list of the
      descriptor's resource, which is a listed one. */
  predicate Paired(g: Graph) {
    && (forall d {:trigger g.descriptors[d]} :: d in g.descriptors ==> HasPointer(g, d))
    && (forall q {:trigger g.pointers[q]} :: q in g.pointers ==>
          g.pointers[q] in g.descriptors && g.descriptors[g.pointers[q]].ptr == Some(q))
    && (forall r, q {:trigger q in g.memory[r].ptrs} :: r in g.memory && r in g.resources && q in g.memory[r].ptrs ==>
          q in g.pointers && g.pointers[q] in g.descriptors && g.descriptors[g.pointers[q]].resource == r)
  }

  predicate HasPointer(g: Graph, d: Cell)
    requires d in g.descriptors
  {
    var des := g.descriptors[d];
    && des.ptr.Some? && des.ptr.value in g.pointers && g.pointers[des.ptr.value] == d
    && des.resource in g.resources && des.resource in g.memory
    && des.ptr.value in g.memory[des.resource].ptrs
  }

  predicate ResourcesOk(g: Graph) {
    && NoDup(g.resources) && NoDup(g.freeResources)
    && (forall r {:trigger r in g.resources} :: r in g.resources ==> r in g.memory && r !in g.freeResources)
    && (forall r {:trigger g.memory[r]} :: r in g.memory && r in g.resources ==> NoDup(g.memory[r].ptrs))
    && (forall r, t {:trigger g.memory[r], g.memory[t]} ::
          r in g.memory && t in g.memory && r in g.resources && t in g.resources && r != t ==>
              g.memory[r].id != g.memory[t].id)
  }

  /** The free blocks of the two descriptor pools are those that are not out, and the pools
      are equally full. */
  predicate PoolsOk(g: Graph) {
    && NoDup(g.freeDescriptors) && NoDup(g.freePointers)
    && (forall d {:trigger d in g.freeDescriptors} :: d in g.freeDescriptors ==> d !in g.descriptors)
    && (forall q {:trigger q in g.freePointers} :: q in g.freePointers ==> q !in g.pointers)
    && |g.freeDescriptors| == |g.freePointers|
    && |g.descriptors| + |g.freeDescriptors| == POOL_SIZE
    && |g.pointers| + |g.freePointers| == POOL_SIZE
  }

  predicate GraphOk(g: Graph) {
    ListsOk(g) && Paired(g) && ResourcesOk(g) && PoolsOk(g)
  }

  // Every operation keeps the invariant.

  lemma StartOk()
    ensures GraphOk(Start())
  {
  }

  lemma RestOf(free: seq<Cell>)
    requires free != [] && NoDup(free)
    ensures NoDup(free[1..]) && free[0] in free && free[0] !in free[1..]
    ensures forall x {:trigger x in free[1..]} :: x in free[1..] ==> x in free
  {
  }

  lemma NoDupAppend(xs: seq<Cell>, x: Cell)
    requires NoDup(xs) && x !in xs
    ensures NoDup(xs + [x])
  {
  }

  lemma NoDupPrepend(xs: seq<Cell>, x: Cell)
    requires NoDup(xs) && x !in xs
    ensures NoDup([x] + xs)
  {
  }

  lemma CreatePaired(g: Graph, id: int, kind: int)
    requires Paired(g) && ResourcesOk(g) && g.freeResources != []
    ensures Paired(Create(g, id, kind))
  {
    assert g.freeResources[0] in g.freeResources;
    var t := Create(g, id, kind);
    forall d | d in t.descriptors ensures HasPointer(t, d) { assert HasPointer(g, d); }
  }

  lemma CreateResources(g: Graph, id: int, kind: int)
    requires ResourcesOk(g) && g.freeResources != [] && ById(g, g.resources, id).None?
    ensures ResourcesOk(Create(g, id, kind))
  {
    RestOf(g.freeResources);
    NoDupAppend(g.resources, g.freeResources[0]);
  }

  lemma CreateKeeps(g: Graph, id: int, kind: int)
    requires GraphOk(g) && g.freeResources != [] && ById(g, g.resources, id).None?
    ensures GraphOk(Create(g, id, kind))
  {
    CreateResources(g, id, kind);
    CreatePaired(g, id, kind);
  }

  /** The blocks that the pools hand out next are not in use, and there are two of them. */
  predicate FreshPair(g: Graph) {
    && g.freeDescriptors != [] && g.freeDescriptors[0] !in g.descriptors
    && g.freePointers != [] && g.freePointers[0] !in g.pointers
  }

  /** Because the pools are equally full, a descriptor always comes with a pointer. */
  lemma PairIsFresh(g: Graph)
    requires PoolsOk(g) && g.freeDescriptors != []
    ensures FreshPair(g)
  {
    assert g.freeDescriptors[0] in g.freeDescriptors;
    assert g.freePointers[0] in g.freePointers;
  }

  lemma AttachLists(g: Graph, p: Pid, r: Cell)
    requires ListsOk(g) && FreshPair(g) && p in g.lists && r in g.memory
    ensures ListsOk(Attach(g, p, r))
  {
    NoDupAppend(g.lists[p], g.freeDescriptors[0]);
  }

  lemma AttachPaired(g: Graph, p: Pid, r: Cell)
    requires Paired(g) && FreshPair(g) && p in g.lists && p in g.lastFd && r in g.resources && r in g.memory
    ensures Paired(Attach(g, p, r))
  {
    var t := Attach(g, p, r);
    forall d | d in t.descriptors ensures HasPointer(t, d) {
      if d != g.freeDescriptors[0] { assert HasPointer(g, d); }
    }
  }

  lemma AttachResources(g: Graph, p: Pid, r: Cell)
    requires ResourcesOk(g) && Paired(g) && FreshPair(g) && p in g.lists && p in g.lastFd && r in g.resources
             && r in g.memory
    ensures ResourcesOk(Attach(g, p, r))
  {
    assert g.freePointers[0] !in g.memory[r].ptrs;
    NoDupAppend(g.memory[r].ptrs, g.freePointers[0]);
  }

  lemma AttachPools(g: Graph, p: Pid, r: Cell)
    requires PoolsOk(g) && FreshPair(g) && p in g.lists && p in g.lastFd && r in g.memory
    ensures PoolsOk(Attach(g, p, r))
  {
    RestOf(g.freeDescriptors);
    RestOf(g.freePointers);
    assert g.descriptors.Keys + {g.freeDescriptors[0]} == Attach(g, p, r).descriptors.Keys;
    assert g.pointers.Keys + {g.freePointers[0]} == Attach(g, p, r).pointers.Keys;
  }

  lemma AttachKeeps(g: Graph, p: Pid, r: Cell)
    requires GraphOk(g) && p in g.lists && r in g.resources && r in g.memory && g.freeDescriptors != []
    ensures GraphOk(Attach(g, p, r))
  {
    PairIsFresh(g);
    AttachLists(g, p, r);
    AttachPaired(g, p, r);
    AttachResources(g, p, r);
    AttachPools(g, p, r);
  }

  lemma DetachLists(g: Graph, p: Pid, d: Cell)
    requires ListsOk(g) && p in g.lists && d in g.lists[p]
    ensures ListsOk(Detach(g, p, d))
  {
    assert g.descriptors[d].pid == p;
    var t := Detach(g, p, d);
    assert t.lists == g.lists[p := Without(g.lists[p], {d})] && t.descriptors == g.descriptors - {d};
    assert t.lastFd == g.lastFd && t.lastPid == g.lastPid;
    ListsWithout(g, t, p, d);
  }

  lemma ListsWithout(g: Graph, t: Graph, p: Pid, d: Cell)
    requires ListsOk(g) && p in g.lists && d in g.descriptors && g.descriptors[d].pid == p
    requires t.lists == g.lists[p := Without(g.lists[p], {d})] && t.descriptors == g.descriptors - {d}
    requires t.lastFd == g.lastFd && t.lastPid == g.lastPid
    ensures ListsOk(t)
  {
  }

  /** What a detachment leaves, given that the descriptor has its pointer. */
  lemma DetachEffect(g: Graph, p: Pid, d: Cell)
    requires p in g.lists && d in g.descriptors && HasPointer(g, d)
    ensures var t, q, r := Detach(g, p, d), g.descriptors[d].ptr.value, g.descriptors[d].resource;
            && t.descriptors == g.descriptors - {d} && t.pointers == g.pointers - {q}
            && t.resources == g.resources && t.memory.Keys == g.memory.Keys
            && t.memory[r].ptrs == Without(g.memory[r].ptrs, {q})
            && forall x {:trigger t.memory[x]} :: x in g.memory && x != r ==> t.memory[x] == g.memory[x]
  {
  }

  lemma DetachPointers(g: Graph, p: Pid, d: Cell)
    requires Paired(g) && p in g.lists && d in g.descriptors
    ensures forall e {:trigger HasPointer(Detach(g, p, d), e)} :: e in Detach(g, p, d).descriptors ==>
            HasPointer(Detach(g, p, d), e)
  {
    assert HasPointer(g, d);
    DetachEffect(g, p, d);
    var t := Detach(g, p, d);
    forall e {:trigger HasPointer(t, e)} | e in t.descriptors ensures HasPointer(t, e) {
      assert HasPointer(g, e);
    }
  }

  lemma DetachPaired(g: Graph, p: Pid, d: Cell)
    requires Paired(g) && p in g.lists && d in g.descriptors
    ensures Paired(Detach(g, p, d))
  {
    assert HasPointer(g, d);
    DetachEffect(g, p, d);
    DetachPointers(g, p, d);
    var t := Detach(g, p, d);
    forall r, q {:trigger q in t.memory[r].ptrs} | r in t.memory && r in t.resources && q in t.memory[r].ptrs
      ensures q in t.pointers && t.pointers[q] in t.descriptors && t.descriptors[t.pointers[q]].resource == r
    {
      assert q in g.memory[r].ptrs;
    }
  }

  lemma DetachResources(g: Graph, p: Pid, d: Cell)
    requires ResourcesOk(g) && p in g.lists && d in g.descriptors
    ensures ResourcesOk(Detach(g, p, d))
  {
  }

  lemma DetachPools(g: Graph, p: Pid, d: Cell)
    requires PoolsOk(g) && Paired(g) && p in g.lists && d in g.descriptors
    ensures PoolsOk(Detach(g, p, d))
  {
    assert HasPointer(g, d);
    var t := Detach(g, p, d);
    var q := g.descriptors[d].ptr.value;
    NoDupPrepend(g.freeDescriptors, d);
    NoDupPrepend(g.freePointers, q);
    assert t.descriptors.Keys == g.descriptors.Keys - {d};
    assert t.pointers.Keys == g.pointers.Keys - {q};
  }

  lemma DetachKeeps(g: Graph, p: Pid, d: Cell)
    requires GraphOk(g) && p in g.lists && d in g.lists[p]
    ensures d in g.descriptors && GraphOk(Detach(g, p, d))
  {
    DetachLists(g, p, d);
    DetachPaired(g, p, d);
    DetachResources(g, p, d);
    DetachPools(g, p, d);
  }

  lemma DetachShrinks(g: Graph, p: Pid, list: seq<Cell>)
    requires p in g.lists && list != [] && list[0] in g.descriptors && NoDup(list)
    requires forall e {:trigger e in list} :: e in list ==> e in g.lists[p]
    ensures p in Detach(g, p, list[0]).lists
    ensures forall e {:trigger e in list[1..]} :: e in list[1..] ==> e in Detach(g, p, list[0]).lists[p]
  {
    RestOf(list);
  }

  lemma {:induction false} ReleaseKeeps(g: Graph, p: Pid, list: seq<Cell>)
    requires GraphOk(g) && p in g.lists && NoDup(list)
    requires forall d {:trigger d in list} :: d in list ==> d in g.lists[p]
    ensures GraphOk(ReleaseAll(g, p, list))
    decreases list
  {
    if list != [] {
      assert list[0] in list;
      DetachKeeps(g, p, list[0]);
      DetachShrinks(g, p, list);
      RestOf(list);
      ReleaseKeeps(Detach(g, p, list[0]), p, list[1..]);
    }
  }

  lemma DestroyPaired(g: Graph, id: int)
    requires Paired(g) && ResourcesOk(g)
    ensures Paired(Destroy(g, id).0)
  {
    var t := Destroy(g, id).0;
    forall d | d in t.descriptors ensures HasPointer(t, d) { assert HasPointer(g, d); }
  }

  lemma DestroyResources(g: Graph, id: int)
    requires ResourcesOk(g)
    ensures ResourcesOk(Destroy(g, id).0)
  {
    var found := ById(g, g.resources, id);
    if found.Some? && g.memory[found.value].ptrs == [] {
      assert found.value !in g.freeResources;
      NoDupPrepend(g.freeResources, found.value);
    }
  }

  lemma DestroyKeeps(g: Graph, id: int)
    requires GraphOk(g)
    ensures GraphOk(Destroy(g, id).0)
  {
    DestroyPaired(g, id);
    DestroyResources(g, id);
    DestroySpares(g, id);
  }

  lemma DestroySpares(g: Graph, id: int)
    requires ListsOk(g) && PoolsOk(g)
    ensures ListsOk(Destroy(g, id).0) && PoolsOk(Destroy(g, id).0)
  {
  }

  /** Pairs depend on the descriptors, the pointers and the lists of the resources only. */
  lemma PairedFrame(g: Graph, t: Graph)
    requires Paired(g) && t.descriptors == g.descriptors && t.pointers == g.pointers && t.resources == g.resources
    requires t.memory.Keys == g.memory.Keys
    requires forall r {:trigger t.memory[r]} :: r in g.memory ==> t.memory[r].ptrs == g.memory[r].ptrs
    ensures Paired(t)
  {
    forall d | d in t.descriptors ensures HasPointer(t, d) { assert HasPointer(g, d); }
  }

  lemma GiveQueueResources(g: Graph, id: int)
    requires ResourcesOk(g)
    ensures ResourcesOk(GiveQueue(g, id))
  {
  }

  lemma GiveQueueFrame(g: Graph, id: int)
    ensures var t := GiveQueue(g, id);
            && t == g.(memory := t.memory, freeQueues := t.freeQueues) && t.memory.Keys == g.memory.Keys
            && forall r {:trigger t.memory[r]} :: r in g.memory ==>
                 t.memory[r] == g.memory[r].(value := t.memory[r].value)
  {
  }

  lemma GiveQueueKeeps(g: Graph, id: int)
    requires GraphOk(g)
    ensures GraphOk(GiveQueue(g, id))
  {
    GiveQueueFrame(g, id);
    PairedFrame(g, GiveQueue(g, id));
    GiveQueueResources(g, id);
  }

  lemma AddProcessOwn(g: Graph)
    requires OwnLists(g)
    ensures OwnLists(AddProcess(g))
  {
  }

  lemma AddProcessListed(g: Graph)
    requires AllListed(g)
    ensures AllListed(AddProcess(g))
  {
  }

  lemma AddProcessLists(g: Graph)
    requires ListsOk(g)
    ensures ListsOk(AddProcess(g))
  {
    AddProcessOwn(g);
    AddProcessListed(g);
  }

  lemma AddProcessKeeps(g: Graph)
    requires GraphOk(g)
    ensures GraphOk(AddProcess(g))
  {
    AddProcessLists(g);
    PairedFrame(g, AddProcess(g));
  }

  lemma DropProcessLists(g: Graph, p: Pid)
    requires ListsOk(g)
    ensures ListsOk(DropProcess(g, p))
  {
  }

  lemma DropProcessKeeps(g: Graph, p: Pid)
    requires GraphOk(g)
    ensures GraphOk(DropProcess(g, p))
  {
    DropProcessLists(g, p);
    PairedFrame(g, DropProcess(g, p));
  }

  lemma OpenAtForms(g: Graph, p: Pid, r: Cell, kind: int, mode: int)
    requires p in g.lists && p in g.lastFd && r in g.memory
    ensures OpenAt(g, p, r, kind, mode).0 == g
            || (g.freeDescriptors != [] && OpenAt(g, p, r, kind, mode).0 == Attach(g, p, r))
  {
  }

  lemma OpenAtKeeps(g: Graph, p: Pid, r: Cell, kind: int, mode: int)
    requires GraphOk(g) && p in g.lists && r in g.resources && r in g.memory
    ensures GraphOk(OpenAt(g, p, r, kind, mode).0)
  {
    OpenAtForms(g, p, r, kind, mode);
    if g.freeDescriptors != [] { AttachKeeps(g, p, r); }
  }

  lemma OpenNewKeeps(g: Graph, p: Pid, id: int, kind: int, mode: int)
    requires GraphOk(g) && p in g.lists && g.freeResources != [] && ById(g, g.resources, id).None?
    ensures GraphOk(OpenAt(Create(g, id, kind), p, g.freeResources[0], kind, mode).0)
  {
    CreateKeeps(g, id, kind);
    OpenAtKeeps(Create(g, id, kind), p, g.freeResources[0], kind, mode);
  }

  lemma OpenKeeps(g: Graph, p: Pid, id: int, kind: int, mode: int)
    requires GraphOk(g) && p in g.lists
    ensures GraphOk(Open(g, p, id, kind, mode).0)
  {
    var found := ById(g, g.resources, id);
    var t := Open(g, p, id, kind, mode).0;
    if t != g {
      if found.Some? {
        assert t == OpenAt(g, p, found.value, kind, mode).0;
        OpenAtKeeps(g, p, found.value, kind, mode);
      } else {
        assert t == OpenAt(Create(g, id, kind), p, g.freeResources[0], kind, mode).0;
        OpenNewKeeps(g, p, id, kind, mode);
      }
    }
  }

  lemma CloseKeeps(g: Graph, p: Pid, fd: int)
    requires GraphOk(g) && p in g.lists
    ensures GraphOk(Close(g, p, fd).0)
  {
    var d := ByFd(g, g.lists[p], fd);
    if d.Some? { DetachKeeps(g, p, d.value); }
  }
}
