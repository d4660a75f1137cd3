/** The intrusive doubly linked list of linked_list.c.

    A `ListItem` is the link pair that every kernel structure has as its first
    member; `owner` stands for that structure, so reading it is the cast back
    from `ListItem*`. A `ListHead` refines the ghost sequence `Items`. */
module LinkedList {
  import opened Seqs

  class ListItem {
    var prev: ListItem?
    var next: ListItem?
    const owner: nat

    constructor (owner: nat)
      ensures prev == null && next == null && this.owner == owner
    {
      prev := null;
      next := null;
      this.owner := owner;
    }

    /** True when the item has a neighbour: the test at the top of List_insert. */
    predicate Linked()
      reads this
    {
      next != null || prev != null
    }
  }

  /** The structures that a sequence of items belongs to. */
  function Owners(items: seq<ListItem>): (r: seq<nat>)
    ensures |r| == |items|
    ensures forall i :: 0 <= i < |items| ==> r[i] == items[i].owner
  {
    seq(|items|, i requires 0 <= i < |items| => items[i].owner)
  }

  class ListHead {
    var first: ListItem?
    var last: ListItem?
    var size: int
    ghost var Items: seq<ListItem>

    /** The item right in front of position `k`. */
    ghost function Before(k: nat): ListItem?
      requires k <= |Items|
      reads this
    {
      if k == 0 then null else Items[k - 1]
    }

    ghost function Nodes(): set<ListItem>
      reads this
    {
      Elems(Items)
    }

    ghost predicate Valid()
      reads this, Items
    {
      && size == |Items|
      && NoDup(Items)
      && (Items == [] ==> first == null && last == null)
      && (Items != [] ==> first == Items[0] && last == Items[|Items| - 1])
      && (forall i {:trigger Items[i].prev} :: 0 <= i < |Items| ==>
          Items[i].prev == if i == 0 then null else Items[i - 1])
      && (forall i {:trigger Items[i].next} :: 0 <= i < |Items| ==>
          Items[i].next == if i == |Items| - 1 then null else Items[i + 1])
    }

    /** The head has not changed. */
    twostate predicate SameHead()
      reads this
    {
      first == old(first) && last == old(last) && size == old(size) && Items == old(Items)
    }

    /** Neither the head nor the links of a member have changed. */
    twostate predicate Same()
      reads this, Items
    {
      && SameHead()
      && forall x {:trigger x in Items} :: x in Items ==> x.prev == old(x.prev) && x.next == old(x.next)
    }

    twostate lemma SameValid()
      requires old(Valid()) && Same()
      ensures Valid()
    {
      forall i | 0 <= i < |Items| ensures Items[i].prev == old(Items[i].prev) && Items[i].next == old(Items[i].next) {
        assert Items[i] in Items;
      }
    }

    constructor ()
      ensures Valid() && Items == []
    {
      first := null;
      last := null;
      size := 0;
      Items := [];
    }

    method Find(item: ListItem?) returns (r: ListItem?)
      requires Valid()
      ensures r == if item != null && item in Items then item else null
    {
      var aux := first;
      ghost var k := 0;
      while aux != null
        invariant 0 <= k <= |Items|
        invariant aux == if k < |Items| then Items[k] else null
        invariant item !in Items[..k]
        decreases |Items| - k
      {
        if aux == item { return item; }
        aux := aux.next;
        k := k + 1;
      }
      assert Items[..k] == Items;
      return null;
    }

    /** List_index: a negative index reads as 0, an index past the end finds nothing. */
    method Index(index: int) returns (r: ListItem?)
      requires Valid()
      ensures r == if index < |Items| && Items != [] then Items[if index < 0 then 0 else index] else null
    {
      var aux := first;
      var i := 0;
      while i < index
        invariant 0 <= i
        invariant 0 < index ==> i <= index
        invariant index <= 0 ==> i == 0
        invariant aux == if i < |Items| then Items[i] else null
      {
        if aux != null {
          aux := aux.next;
        } else {
          return null;
        }
        i := i + 1;
      }
      return aux;
    }

    /** List_insert; `k` is the position the item will have, right behind `prev`. A null
        item and an item with a neighbour are refused and nothing changes. An unlinked
        stranger is placed. The only member that is unlinked is a sole one: the guard lets
        it through and it becomes its own neighbour, which is no list any more. */
    method Insert(prev: ListItem?, item: ListItem?, ghost k: nat) returns (r: ListItem?)
      requires Valid()
      requires k <= |Items| && prev == Before(k)
      modifies this, Nodes(), item
      ensures item == null || old(item.Linked()) ==> r == null && Same()
      ensures item != null && old(item.Linked()) ==> unchanged(item)
      ensures item != null && !old(item.Linked()) && item !in old(Items) ==>
                r == item && Valid() && Items == old(Items)[..k] + [item] + old(Items)[k..]
      ensures item != null && !old(item.Linked()) && item in old(Items) ==>
                old(Items) == [item] && item.next == item && item.prev == item && size == 2 && !Valid()
    {
      if item == null { return null; }
      if item.next != null || item.prev != null { return null; }
      if item in Items {
        ghost var j :| 0 <= j < |Items| && Items[j] == item;
        assert Items[j].prev == null && Items[j].next == null;
        assert Items == [item];
      }
      r := Link(prev, item, k);
    }

    /** The pointer work of List_insert, `k` being the position the item will have. */
    method Link(prev: ListItem?, item: ListItem, ghost k: nat) returns (r: ListItem)
      requires Valid() && !item.Linked()
      requires k <= |Items| && prev == Before(k)
      requires item in Items ==> Items == [item]
      modifies this, Nodes(), item
      ensures r == item
      ensures item !in old(Items) ==> Valid() && Items == old(Items)[..k] + [item] + old(Items)[k..]
      ensures item in old(Items) ==> item.next == item && item.prev == item && size == 2 && !Valid()
    {
      assert prev == if k == 0 then null else Items[k - 1];
      var next := if prev != null then prev.next else first;
      assert item !in Items ==> next == if k == |Items| then null else Items[k];
      if prev != null {
        item.prev := prev;
        prev.next := item;
      }
      if next != null {
        item.next := next;
        next.prev := item;
      }
      if prev == null { first := item; }
      if next == null { last := item; }
      size := size + 1;
      if item !in Items {
        NoDupInserted(Items, k, item);
        ghost var was := Items;
        assert forall i {:trigger was[i].prev} :: 0 <= i < |was| ==>
                 was[i].prev == if i == k then item else if i == 0 then null else was[i - 1];
        assert forall i {:trigger was[i].next} :: 0 <= i < |was| ==>
                 was[i].next == if i + 1 == k then item else if i + 1 == |was| then null else was[i + 1];
        Items := was[..k] + [item] + was[k..];
        LinksSpliced(was, k, item);
      }
      return item;
    }

    /** The links of a chain into which an item was spliced at position `k`. */
    lemma LinksSpliced(was: seq<ListItem>, k: nat, item: ListItem)
      requires k <= |was|
      requires forall i {:trigger was[i].prev} :: 0 <= i < |was| ==>
                 was[i].prev == if i == k then item else if i == 0 then null else was[i - 1]
      requires forall i {:trigger was[i].next} :: 0 <= i < |was| ==>
                 was[i].next == if i + 1 == k then item else if i + 1 == |was| then null else was[i + 1]
      requires item.prev == if k == 0 then null else was[k - 1]
      requires item.next == if k == |was| then null else was[k]
      ensures var now := was[..k] + [item] + was[k..];
              && (forall i {:trigger now[i].prev} :: 0 <= i < |now| ==>
                  now[i].prev == if i == 0 then null else now[i - 1])
              && (forall i {:trigger now[i].next} :: 0 <= i < |now| ==>
                  now[i].next == if i == |now| - 1 then null else now[i + 1])
    {
      var now := was[..k] + [item] + was[k..];
      assert now[k] == item && (forall i :: 0 <= i < k ==> now[i] == was[i])
             && (forall i :: k < i < |now| ==> now[i] == was[i - 1]);
    }

    /** List_detach of null, or of the member at position `k`. */
    method Detach(item: ListItem?, ghost k: nat) returns (r: ListItem?)
      requires Valid()
      requires item != null ==> k < |Items| && Items[k] == item
      modifies this, Nodes()
      ensures r == item && Valid()
      ensures item == null ==> Same()
      ensures item != null ==> !item.Linked() && Items == old(Items)[..k] + old(Items)[k + 1..]
    {
      if item == null { return null; }
      r := Unlink(item, k);
    }

    /** The pointer work of List_detach for the member at position `k`. */
    method Unlink(item: ListItem, ghost k: nat) returns (r: ListItem)
      requires Valid()
      requires k < |Items| && item == Items[k]
      modifies this, Nodes()
      ensures r == item && Valid() && !item.Linked()
      ensures Items == old(Items)[..k] + old(Items)[k + 1..]
    {
      var prev := item.prev;
      var next := item.next;
      assert prev == if k == 0 then null else Items[k - 1];
      assert next == if k == |Items| - 1 then null else Items[k + 1];
      if prev != null { prev.next := next; }
      if next != null { next.prev := prev; }
      if item == first { first := next; }
      if item == last { last := prev; }
      size := size - 1;
      item.next := null;
      item.prev := null;
      ghost var was := Items;
      Items := was[..k] + was[k + 1..];
      assert (forall i :: 0 <= i < k ==> Items[i] == was[i])
             && (forall i :: k <= i < |Items| ==> Items[i] == was[i + 1]);
      return item;
    }

    method Pop() returns (r: ListItem?)
      requires Valid()
      modifies this, Nodes()
      ensures Valid()
      ensures old(Items) == [] ==> r == null && Items == [] && unchanged(this)
      ensures old(Items) != [] ==> r == old(Items)[0] && Items == old(Items)[1..] && !r.Linked()
    {
      if first != null {
        r := Unlink(first, 0);
        return r;
      }
      return null;
    }

    /** A member has a neighbour exactly when it is not alone. */
    lemma LinkedIffNotAlone(item: ListItem)
      requires Valid() && item in Items
      ensures item.Linked() <==> |Items| >= 2
    {
      var k :| 0 <= k < |Items| && Items[k] == item;
      assert Items[k].prev == if k == 0 then null else Items[k - 1];
    }
  }
}
