/** What the calls on resources change, in terms of the graph before. */
module ResourceEffects {
  import opened Seqs
  import opened Constants
  import opened ResourceGraph
  import opened ResourceRuns

  /** A mode has a bit exactly when the bit is there in its binary form. */
  lemma HasMeaning(high: int, bit: int, low: int)
    requires bit > 0 && 0 <= low < bit
    ensures Has(2 * bit * high + bit + low, bit) && !Has(2 * bit * high + low, bit)
  {
    Quotient(2 * high + 1, bit, low);
    Quotient(2 * high, bit, low);
    assert (2 * high + 1) * bit + low == 2 * bit * high + bit + low;
    assert 2 * high * bit + low == 2 * bit * high + low;
  }

  lemma Quotient(k: int, bit: int, low: int)
    requires bit > 0 && 0 <= low < bit
    ensures (k * bit + low) / bit == k
  {
    var n := k * bit + low;
    assert n == n / bit * bit + n % bit;
    Between(n / bit, k, bit);
    Between(k, n / bit, bit);
  }

  lemma Between(a: int, b: int, bit: int)
    requires bit > 0 && a * bit < (b + 1) * bit
    ensures a <= b
  {
    assert (b + 1 - a) * bit > 0;
  }

  // Close.

  /** Descriptor `d` of the process and its pointer are gone, from their lists and back to their
      pools, and nothing else changes. */
  ghost predicate Removes(g: Graph, t: Graph, p: Pid, d: Cell) {
    && p in g.lists && d in g.descriptors && g.descriptors[d].ptr.Some? && g.descriptors[d].resource in g.memory
    && var q, r := g.descriptors[d].ptr.value, g.descriptors[d].resource;
       && q in g.pointers && g.pointers[q] == d
       && t == g.(descriptors := g.descriptors - {d}, freeDescriptors := [d] + g.freeDescriptors,
                  pointers := g.pointers - {q}, freePointers := [q] + g.freePointers,
                  lists := g.lists[p := Without(g.lists[p], {d})],
                  memory := g.memory[r := g.memory[r].(ptrs := Without(g.memory[r].ptrs, {q}))])
  }

  /** close of any number that the process holds removes exactly the descriptor with that number. */
  lemma CloseRemoves(g: Graph, p: Pid, d: Cell)
    requires GraphOk(g) && p in g.lists && d in g.lists[p] && d in g.descriptors
    ensures Removes(g, Close(g, p, g.descriptors[d].fd).0, p, d) && Close(g, p, g.descriptors[d].fd).1 == 0
  {
    assert HasPointer(g, d);
    assert ByFd(g, g.lists[p], g.descriptors[d].fd) == Some(d);
  }

  /** close of any other number is an error and changes nothing. */
  lemma CloseUnknown(g: Graph, p: Pid, fd: int)
    requires p in g.lists && forall d :: d in g.lists[p] && d in g.descriptors ==> g.descriptors[d].fd != fd
    ensures Close(g, p, fd) == (g, DSOS_ERESOURCECLOSE)
  {
  }

  // Open.

  /** The process has one more descriptor, the last of its list, with the next number and with a
      pointer at the end of the list of the resource; nothing else changes. */
  ghost predicate Adds(g: Graph, t: Graph, p: Pid, r: Cell) {
    && p in g.lists && p in g.lastFd && r in g.memory && g.freeDescriptors != [] && g.freePointers != []
    && var d, q := g.freeDescriptors[0], g.freePointers[0];
       t == g.(descriptors := g.descriptors[d := Descriptor(p, g.lastFd[p], r, Some(q))],
               freeDescriptors := g.freeDescriptors[1..],
               pointers := g.pointers[q := d], freePointers := g.freePointers[1..],
               lists := g.lists[p := g.lists[p] + [d]], lastFd := g.lastFd[p := g.lastFd[p] + 1],
               memory := g.memory[r := g.memory[r].(ptrs := g.memory[r].ptrs + [q])])
  }

  /** A successful open of a listed resource. */
  lemma OpenAdds(g: Graph, p: Pid, id: int, kind: int, mode: int, r: Cell)
    requires GraphOk(g) && p in g.lists && r in g.resources && r in g.memory && g.memory[r].id == id
    requires Expected(g, p, id, kind, mode) >= 0
    ensures Open(g, p, id, kind, mode).1 == g.lastFd[p] && Adds(g, Open(g, p, id, kind, mode).0, p, r)
  {
    OpenOutcome(g, p, id, kind, mode);
    assert ById(g, g.resources, id) == Some(r);
    assert Listed(g, id);
  }

  /** The graph with a new resource at the end of the list, without users; its value is that of the
      last use of its block. */
  function Grown(g: Graph, id: int, kind: int): Graph
    requires g.freeResources != []
  {
    var b := g.freeResources[0];
    g.(resources := g.resources + [b], freeResources := g.freeResources[1..],
       memory := g.memory[b := Resource(id, kind, [], if b in g.memory then g.memory[b].value else 0)])
  }

  /** A successful open that creates the resource. */
  lemma OpenCreates(g: Graph, p: Pid, id: int, kind: int, mode: int)
    requires GraphOk(g) && p in g.lists && !Listed(g, id) && Expected(g, p, id, kind, mode) >= 0
    ensures Open(g, p, id, kind, mode).1 == g.lastFd[p] && g.freeResources != []
    ensures Adds(Grown(g, id, kind), Open(g, p, id, kind, mode).0, p, g.freeResources[0])
  {
    OpenOutcome(g, p, id, kind, mode);
    assert ById(g, g.resources, id).None?;
  }

  // Destroy, and the queue of a resource.

  /** destroy of a resource without users takes it out of the list and gives its block back, and
      its queue, if it has one that is not free already. The content of the block stays. */
  lemma DestroyRemoves(g: Graph, id: int, r: Cell)
    requires GraphOk(g) && r in g.resources && r in g.memory && g.memory[r].id == id && !InUse(g, id)
    ensures var value := g.memory[r].value;
            Destroy(g, id) ==
              (g.(resources := Without(g.resources, {r}), freeResources := [r] + g.freeResources,
                  freeQueues := if g.memory[r].kind == QUEUE_KIND && value != 0 && value !in g.freeQueues
                                then [value] + g.freeQueues else g.freeQueues), 0)
  {
    InUseIff(g, r);
    assert ById(g, g.resources, id) == Some(r);
  }

  /** A listed resource without a queue gets the first free one, if there is one; nothing else
      happens. */
  lemma QueueGiven(g: Graph, id: int, r: Cell)
    requires GraphOk(g) && r in g.resources && r in g.memory && g.memory[r].id == id
    ensures GiveQueue(g, id) ==
              if g.memory[r].value == 0 && g.freeQueues != []
              then g.(memory := g.memory[r := g.memory[r].(value := g.freeQueues[0])], freeQueues := g.freeQueues[1..])
              else g
  {
    assert ById(g, g.resources, id) == Some(r);
  }

  // Release.

  /** The pointers of the descriptors in the list. */
  function PointersOf(g: Graph, list: seq<Cell>): set<Cell> {
    set d | d in list && d in g.descriptors && g.descriptors[d].ptr.Some? :: g.descriptors[d].ptr.value
  }

  /** The descriptors in the list are gone from the list of the process, and their pointers from those
      of the resources. */
  ghost predicate Releases(g: Graph, t: Graph, p: Pid, list: seq<Cell>) {
    && ReleasesPairs(g, t, p, list) && LosePointers(g, t, PointersOf(g, list))
    && t == g.(lists := t.lists, descriptors := t.descriptors, pointers := t.pointers, memory := t.memory,
               freeDescriptors := t.freeDescriptors, freePointers := t.freePointers)
  }

  predicate ReleasesPairs(g: Graph, t: Graph, p: Pid, list: seq<Cell>) {
    && p in g.lists && t.lists == g.lists[p := Without(g.lists[p], Elems(list))]
    && t.descriptors == g.descriptors - Elems(list) && t.pointers == g.pointers - PointersOf(g, list)
  }

  ghost predicate LosePointers(g: Graph, t: Graph, gone: set<Cell>) {
    && t.memory.Keys == g.memory.Keys
    && forall r {:trigger t.memory[r]} :: r in g.resources && r in g.memory ==>
         t.memory[r] == g.memory[r].(ptrs := Without(g.memory[r].ptrs, gone))
  }

  lemma NothingReleased(g: Graph, p: Pid)
    requires p in g.lists
    ensures Releases(g, g, p, [])
  {
    WithoutNone(g.lists[p], Elems<Cell>([]));
    assert g.lists[p := g.lists[p]] == g.lists;
    forall r | r in g.memory ensures Without(g.memory[r].ptrs, PointersOf(g, [])) == g.memory[r].ptrs {
      WithoutNone(g.memory[r].ptrs, PointersOf(g, []));
    }
  }

  /** The first of them. */
  lemma DetachRemoves(g: Graph, p: Pid, d: Cell)
    requires Paired(g) && p in g.lists && d in g.descriptors
    ensures Removes(g, Detach(g, p, d), p, d)
  {
    assert HasPointer(g, d);
  }

  lemma PointersSplit(g: Graph, t: Graph, p: Pid, d: Cell, rest: seq<Cell>)
    requires Paired(g) && Removes(g, t, p, d) && d !in rest
    requires forall e :: e in rest ==> e in g.descriptors
    ensures PointersOf(g, [d] + rest) == {g.descriptors[d].ptr.value} + PointersOf(t, rest)
    ensures Elems([d] + rest) == {d} + Elems(rest)
  {
    assert forall e :: e in rest ==> e in t.descriptors && t.descriptors[e] == g.descriptors[e];
    assert d in [d] + rest;
  }

  lemma PairsNext(g: Graph, t: Graph, u: Graph, p: Pid, d: Cell, rest: seq<Cell>)
    requires Paired(g) && Removes(g, t, p, d) && ReleasesPairs(t, u, p, rest) && d !in rest
    requires forall e :: e in rest ==> e in g.descriptors
    ensures ReleasesPairs(g, u, p, [d] + rest)
  {
    PointersSplit(g, t, p, d, rest);
    WithoutTwice(g.lists[p], {d}, Elems(rest));
    var gone := PointersOf(t, rest);
    assert g.pointers - {g.descriptors[d].ptr.value} - gone == g.pointers - ({g.descriptors[d].ptr.value} + gone);
    assert g.descriptors - {d} - Elems(rest) == g.descriptors - ({d} + Elems(rest));
    Replaced(g.lists, p, Without(g.lists[p], {d}), u.lists[p]);
  }

  lemma Replaced(m: map<Pid, seq<Cell>>, p: Pid, a: seq<Cell>, b: seq<Cell>)
    ensures m[p := a][p := b] == m[p := b]
  {
  }

  lemma PointersNext(g: Graph, t: Graph, u: Graph, p: Pid, d: Cell, gone: set<Cell>)
    requires Paired(g) && Removes(g, t, p, d) && LosePointers(t, u, gone)
    ensures LosePointers(g, u, {g.descriptors[d].ptr.value} + gone)
  {
    var q := g.descriptors[d].ptr.value;
    forall r {:trigger u.memory[r]} | r in g.resources && r in g.memory
      ensures u.memory[r] == g.memory[r].(ptrs := Without(g.memory[r].ptrs, {q} + gone))
    {
      WithoutTwice(g.memory[r].ptrs, {q}, gone);
      assert r in t.memory && t.resources == g.resources;
      if r != g.descriptors[d].resource { OthersPointers(g, d, r); }
    }
  }

  lemma ReleaseNext(g: Graph, t: Graph, u: Graph, p: Pid, d: Cell, rest: seq<Cell>)
    requires Paired(g) && Removes(g, t, p, d) && Releases(t, u, p, rest) && d !in rest
    requires forall e :: e in rest ==> e in g.descriptors
    ensures Releases(g, u, p, [d] + rest)
  {
    PairsNext(g, t, u, p, d, rest);
    PointersNext(g, t, u, p, d, PointersOf(t, rest));
    PointersSplit(g, t, p, d, rest);
  }

  /** A pointer is in the list of one resource only. */
  lemma OthersPointers(g: Graph, d: Cell, r: Cell)
    requires Paired(g) && d in g.descriptors && r in g.resources && r in g.memory && r != g.descriptors[d].resource
    ensures g.descriptors[d].ptr.Some? && Without(g.memory[r].ptrs, {g.descriptors[d].ptr.value}) == g.memory[r].ptrs
  {
    assert HasPointer(g, d);
    WithoutNone(g.memory[r].ptrs, {g.descriptors[d].ptr.value});
  }

  lemma StillListed(g: Graph, t: Graph, p: Pid, list: seq<Cell>)
    requires list != [] && NoDup(list) && Removes(g, t, p, list[0])
    requires forall d {:trigger d in list} :: d in list ==> d in g.lists[p] && d in g.descriptors
    ensures p in t.lists
    ensures forall d {:trigger d in list[1..]} :: d in list[1..] ==>
              d in t.lists[p] && d in t.descriptors && d in g.descriptors && d != list[0]
  {
    RestOf(list);
    assert forall d {:trigger d in list[1..]} :: d in list[1..] ==> d in list && d != list[0];
  }

  lemma FirstDetached(g: Graph, p: Pid, list: seq<Cell>)
    requires GraphOk(g) && p in g.lists && list != [] && NoDup(list)
    requires forall d {:trigger d in list} :: d in list ==> d in g.lists[p] && d in g.descriptors
    ensures list[0] in g.descriptors && GraphOk(Detach(g, p, list[0])) && p in Detach(g, p, list[0]).lists
    ensures NoDup(list[1..])
    ensures forall d {:trigger d in list[1..]} :: d in list[1..] ==>
              d in Detach(g, p, list[0]).lists[p] && d in Detach(g, p, list[0]).descriptors
  {
    assert list[0] in list;
    DetachKeeps(g, p, list[0]);
    DetachRemoves(g, p, list[0]);
    StillListed(g, Detach(g, p, list[0]), p, list);
    RestOf(list);
  }

  lemma ReleaseOne(g: Graph, p: Pid, list: seq<Cell>)
    requires Paired(g) && p in g.lists && list != [] && list[0] in g.descriptors && p in Detach(g, p, list[0]).lists
    requires NoDup(list) && forall d {:trigger d in list} :: d in list ==> d in g.descriptors
    requires Releases(Detach(g, p, list[0]), ReleaseAll(Detach(g, p, list[0]), p, list[1..]), p, list[1..])
    ensures Releases(g, ReleaseAll(g, p, list), p, list)
  {
    var d, t, rest := list[0], Detach(g, p, list[0]), list[1..];
    DetachRemoves(g, p, d);
    RestOf(list);
    ReleaseNext(g, t, ReleaseAll(t, p, rest), p, d, rest);
    assert list == [d] + rest;
  }

  lemma {:induction false} ReleaseEach(g: Graph, p: Pid, list: seq<Cell>)
    requires GraphOk(g) && p in g.lists && NoDup(list)
    requires forall d {:trigger d in list} :: d in list ==> d in g.lists[p] && d in g.descriptors
    ensures Releases(g, ReleaseAll(g, p, list), p, list)
    decreases list
  {
    if list == [] {
      NothingReleased(g, p);
    } else {
      FirstDetached(g, p, list);
      ReleaseEach(Detach(g, p, list[0]), p, list[1..]);
      ReleaseOne(g, p, list);
    }
  }

  /** The release loop of exit takes out exactly the descriptors of the process, with their pointers. */
  lemma ReleaseOutcome(g: Graph, p: Pid)
    requires GraphOk(g) && p in g.lists
    ensures Releases(g, ReleaseAll(g, p, g.lists[p]), p, g.lists[p])
    ensures Elems(g.lists[p]) == HeldBy(g, p)
  {
    ReleaseEach(g, p, g.lists[p]);
    HeldIsListed(g, p);
  }
}
