/** The resource system calls as loops and assignments over variables that hold sequences and
    maps; the linked lists and the allocators behind them have modules of their own. */
module ResourceTables {
  import opened Seqs
  import opened Constants
  import opened ResourceGraph

  class ResourceTable {
    var resources: seq<Cell>
    var memory: map<Cell, Resource>
    var freeResources: seq<Cell>
    var descriptors: map<Cell, Descriptor>
    var freeDescriptors: seq<Cell>
    var pointers: map<Cell, Cell>
    var freePointers: seq<Cell>
    var lists: map<Pid, seq<Cell>>
    var lastFd: map<Pid, Fd>
    var lastPid: Pid
    var freeQueues: seq<int>

    function Abs(): Graph
      reads this
    {
      Graph(resources, memory, freeResources, descriptors, freeDescriptors, pointers, freePointers, lists, lastFd,
          lastPid, freeQueues)
    }

    constructor ()
      ensures Abs() == Start()
    {
      resources, memory, freeResources := [], map[], AllCells();
      descriptors, freeDescriptors := map[], AllCells();
      pointers, freePointers := map[], AllCells();
      lists, lastFd, lastPid := map[0 := []], map[0 := 0], 1;
      freeQueues := AllQueues();
    }

    /** ResourceList_byId. */
    method FindById(id: int) returns (r: Option<Cell>)
      ensures r == ById(Abs(), resources, id)
    {
      var i := 0;
      while i < |resources|
        invariant 0 <= i <= |resources|
        invariant ById(Abs(), resources, id) == ById(Abs(), resources[i..], id)
      {
        assert resources[i..][1..] == resources[i + 1..];
        if resources[i] in memory && memory[resources[i]].id == id { return Some(resources[i]); }
        i := i + 1;
      }
      return None;
    }

    /** DescriptorList_byFd. */
    method FindByFd(list: seq<Cell>, fd: int) returns (d: Option<Cell>)
      ensures d == ByFd(Abs(), list, fd)
    {
      var i := 0;
      while i < |list|
        invariant 0 <= i <= |list|
        invariant ByFd(Abs(), list, fd) == ByFd(Abs(), list[i..], fd)
      {
        assert list[i..][1..] == list[i + 1..];
        if list[i] in descriptors && descriptors[list[i]].fd == fd { return Some(list[i]); }
        i := i + 1;
      }
      return None;
    }

    /** Resource_alloc and the insertion into the list of resources. */
    method CreateResource(id: int, kind: int) returns (r: Cell)
      requires freeResources != []
      modifies this`resources, this`memory, this`freeResources
      ensures r == old(freeResources)[0] && Abs() == Create(old(Abs()), id, kind)
    {
      r := freeResources[0];
      freeResources := freeResources[1..];
      var value := if r in memory then memory[r].value else 0;
      memory := memory[r := Resource(id, kind, [], value)];
      resources := resources + [r];
    }

    /** DescriptorPtr_alloc. */
    method TakePointer(d: Cell) returns (ptr: Option<Cell>)
      modifies this`freePointers, this`pointers
      ensures ptr == if old(freePointers) == [] then None else Some(old(freePointers)[0])
      ensures ptr.None? ==> freePointers == old(freePointers) && pointers == old(pointers)
      ensures ptr.Some? ==>
                freePointers == old(freePointers)[1..] && pointers == old(pointers)[ptr.value := d]
    {
      if freePointers == [] { return None; }
      ptr := Some(freePointers[0]);
      freePointers := freePointers[1..];
      pointers := pointers[ptr.value := d];
    }

    /** The descriptor and its pointer are allocated, linked to each other and appended to
        the lists of the process and of the resource. */
    method AttachDescriptor(p: Pid, r: Cell)
      requires p in lists && p in lastFd && r in memory && freeDescriptors != []
      modifies this
      ensures Abs() == Attach(old(Abs()), p, r)
    {
      var d := freeDescriptors[0];
      freeDescriptors := freeDescriptors[1..];
      var des := Descriptor(p, lastFd[p], r, None);
      lastFd := lastFd[p := lastFd[p] + 1];
      var ptr := TakePointer(d);
      lists := lists[p := lists[p] + [d]];
      descriptors := descriptors[d := des.(ptr := ptr)];
      if ptr.Some? {
        memory := memory[r := memory[r].(ptrs := memory[r].ptrs + [ptr.value])];
      }
    }

    /** internal_openResource. */
    method OpenResource(p: Pid, id: int, kind: int, mode: int) returns (ret: int)
      requires p in lists && p in lastFd
      modifies this
      ensures (Abs(), ret) == Open(old(Abs()), p, id, kind, mode)
    {
      var res := FindById(id);
      if Has(mode, DSOS_CREATE) {
        if Has(mode, DSOS_EXCL) && res.Some? { return DSOS_ERESOURCENOEXCL; }
        if res.None? {
          if freeResources == [] { return DSOS_ERESOURCECREATE; }
          var r := CreateResource(id, kind);
          res := Some(r);
        }
      }
      if res.None? || memory[res.value].kind != kind { return DSOS_ERESOURCEOPEN; }
      if Has(mode, DSOS_EXCL) && |memory[res.value].ptrs| != 0 { return DSOS_ERESOURCENOEXCL; }
      if freeDescriptors == [] { return DSOS_ERESOURCENOFD; }
      ret := lastFd[p];
      AttachDescriptor(p, res.value);
    }

    /** Both halves of a descriptor are taken out and released. */
    method DetachDescriptor(p: Pid, d: Cell)
      requires p in lists && d in descriptors
      modifies this
      ensures Abs() == Detach(old(Abs()), p, d)
    {
      var des := descriptors[d];
      lists := lists[p := Without(lists[p], {d})];
      if des.ptr.Some? && des.ptr.value in pointers && des.resource in memory {
        var r := des.resource;
        memory := memory[r := memory[r].(ptrs := Without(memory[r].ptrs, {des.ptr.value}))];
        pointers := pointers - {des.ptr.value};
        freePointers := [des.ptr.value] + freePointers;
      }
      descriptors := descriptors - {d};
      freeDescriptors := [d] + freeDescriptors;
    }

    /** internal_closeResource. */
    method CloseResource(p: Pid, fd: int) returns (ret: int)
      requires p in lists
      modifies this
      ensures (Abs(), ret) == Close(old(Abs()), p, fd)
    {
      var des := FindByFd(lists[p], fd);
      if des.None? { return DSOS_ERESOURCECLOSE; }
      DetachDescriptor(p, des.value);
      return 0;
    }

    /** internal_destroyResource. */
    method DestroyResource(id: int) returns (ret: int)
      modifies this`resources, this`freeResources, this`freeQueues
      ensures (Abs(), ret) == Destroy(old(Abs()), id)
    {
      var res := FindById(id);
      if res.None? { return DSOS_ERESOURCECLOSE; }
      if |memory[res.value].ptrs| != 0 { return DSOS_ERESOURCEINUSE; }
      if memory[res.value].value != 0 && memory[res.value].kind == QUEUE_KIND {
        freeQueues := FreeQueue(freeQueues, memory[res.value].value);
      }
      resources := Without(resources, {res.value});
      freeResources := [res.value] + freeResources;
      return 0;
    }

    /** internal_openQueue, as far as the resource goes. */
    method AllocateQueue(id: int)
      modifies this`memory, this`freeQueues
      ensures Abs() == GiveQueue(old(Abs()), id)
    {
      var res := FindById(id);
      if res.Some? && memory[res.value].value == 0 && freeQueues != [] {
        memory := memory[res.value := memory[res.value].(value := freeQueues[0])];
        freeQueues := freeQueues[1..];
      }
    }

    /** The release loop of internal_exit: first descriptor first, until there is none. */
    method ReleaseDescriptors(p: Pid)
      requires GraphOk(Abs()) && p in lists
      modifies this
      ensures Abs() == ReleaseAll(old(Abs()), p, old(lists[p]))
      ensures p in lists && lists[p] == []
    {
      ghost var g, all := Abs(), lists[p];
      while lists[p] != []
        invariant GraphOk(Abs()) && p in lists
        invariant ReleaseAll(g, p, all) == ReleaseAll(Abs(), p, lists[p])
        decreases |lists[p]|
      {
        ghost var now := Abs();
        var d := lists[p][0];
        assert d in now.lists[p];
        DetachKeeps(now, p, d);
        FirstGone(now.lists[p]);
        DetachDescriptor(p, d);
      }
    }
  }

  lemma FirstGone(list: seq<Cell>)
    requires list != [] && NoDup(list)
    ensures Without(list, {list[0]}) == list[1..]
  {
    WithoutAt(list, 0);
  }
}
