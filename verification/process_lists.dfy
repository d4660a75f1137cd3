/** The three process lists of disastrOS.c. They share the list items of the process
    control blocks, so a block is in at most one of them. */
module ProcessLists {
  import opened Seqs
  import opened Constants
  import opened LinkedList

  class Lists {
    const ready: ListHead
    const waiting: ListHead
    const zombie: ListHead
    /** The control block of each live process. */
    var items: map<Pid, ListItem>
    /** The list that an item is in. */
    ghost var home: map<ListItem, ListHead>

    ghost predicate IsList(l: ListHead) {
      l == ready || l == waiting || l == zombie
    }

    /** The list holds control blocks of live processes that are in no other list. */
    ghost predicate Houses(l: ListHead)
      reads this, l
    {
      forall x {:trigger x in l.Items} :: x in l.Items ==>
        x.owner in items && items[x.owner] == x && x in home && home[x] == l
    }

    ghost predicate Placed(x: ListItem)
      reads this, ready, waiting, zombie, x
    {
      if x in home then x in ready.Items || x in waiting.Items || x in zombie.Items else !x.Linked()
    }

    ghost predicate Valid()
      reads this, ready, waiting, zombie, ready.Items, waiting.Items, zombie.Items, items.Values
    {
      && ready != waiting && ready != zombie && waiting != zombie
      && (forall p {:trigger items[p]} :: p in items ==> items[p].owner == p && Placed(items[p]))
      && Houses(ready) && Houses(waiting) && Houses(zombie)
      && ready.Valid() && waiting.Valid() && zombie.Valid()
    }

    /** One control block, in no list. */
    constructor (first: Pid)
      ensures Valid() && items.Keys == {first} && Of(ready) == [] && Of(waiting) == [] && Of(zombie) == []
      ensures fresh(ready) && fresh(waiting) && fresh(zombie) && fresh(items.Values)
    {
      var item := new ListItem(first);
      ready := new ListHead();
      waiting := new ListHead();
      zombie := new ListHead();
      items := map[first := item];
      home := map[];
    }

    /** The other heads, and the items that are not in `l` and are not `x`, are as before. */
    twostate predicate OthersSame(l: ListHead, x: ListItem)
      reads this, ready, waiting, zombie, items.Values
    {
      && items == old(items)
      && (l != ready ==> ready.SameHead())
      && (l != waiting ==> waiting.SameHead())
      && (l != zombie ==> zombie.SameHead())
      && (forall p {:trigger items[p]} :: p in items && items[p] != x && old(Outside(l, items[p])) ==>
            items[p].prev == old(items[p].prev) && items[p].next == old(items[p].next))
    }

    ghost predicate Outside(l: ListHead, x: ListItem)
      reads this
    {
      x in home ==> home[x] != l
    }

    twostate lemma OtherSame(new l: ListHead, new m: ListHead, new x: ListItem)
      requires old(allocated(l)) && old(allocated(m)) && old(allocated(x))
      requires OthersSame(l, x) && IsList(m) && l != m
      requires old(Houses(m)) && x !in m.Items && m.SameHead()
      ensures m.Same()
    {
      forall y | y in m.Items ensures y.prev == old(y.prev) && y.next == old(y.next) {
        assert items[y.owner] == y;
      }
    }

    twostate lemma OthersValid(new l: ListHead, new x: ListItem)
      requires old(allocated(l)) && old(allocated(x))
      requires old(Valid()) && IsList(l) && OthersSame(l, x) && l.Valid()
      requires l != ready ==> x !in ready.Items
      requires l != waiting ==> x !in waiting.Items
      requires l != zombie ==> x !in zombie.Items
      ensures ready.Valid() && waiting.Valid() && zombie.Valid()
    {
      if l != ready { OtherSame(l, ready, x); ready.SameValid(); }
      if l != waiting { OtherSame(l, waiting, x); waiting.SameValid(); }
      if l != zombie { OtherSame(l, zombie, x); zombie.SameValid(); }
    }

    /** List_insert, as seen by the other lists. */
    method LinkIn(l: ListHead, prev: ListItem?, x: ListItem, ghost k: nat)
      requires Valid() && IsList(l) && x in items.Values && (x.Linked() || x !in home)
      requires k <= |l.Items| && prev == l.Before(k)
      modifies l, l.Nodes(), x
      ensures OthersSame(l, x)
      ensures old(x.Linked()) ==> l.Same() && x.prev == old(x.prev) && x.next == old(x.next)
      ensures !old(x.Linked()) ==> l.Valid() && l.Items == old(l.Items)[..k] + [x] + old(l.Items)[k..]
    {
      assert forall p {:trigger items[p]} :: p in items && Outside(l, items[p]) ==> items[p] !in l.Items;
      var r := l.Insert(prev, x, k);
    }

    /** The same for List_detach. */
    method LinkOut(l: ListHead, x: ListItem, ghost k: nat)
      requires Valid() && IsList(l) && x in items.Values && k < |l.Items| && l.Items[k] == x
      modifies l, l.Nodes()
      ensures OthersSame(l, x)
      ensures l.Valid() && !x.Linked() && l.Items == old(l.Items)[..k] + old(l.Items)[k + 1..]
    {
      assert forall p {:trigger items[p]} :: p in items && Outside(l, items[p]) ==> items[p] !in l.Items;
      var r := l.Detach(x, k);
    }

    /** `l` has gained the item `x`, or lost it, and `home` says so. */
    twostate predicate Moved(l: ListHead, x: ListItem, arrived: bool)
      reads this, ready, waiting, zombie, ready.Items, waiting.Items, zombie.Items, items.Values, x
    {
      && IsList(l) && OthersSame(l, x)
      && x.owner in items && items[x.owner] == x
      && (forall y {:trigger y in l.Items} :: y in l.Items ==> if y == x then arrived else y in old(l.Items))
      && (forall y {:trigger y in old(l.Items)} :: y in old(l.Items) && y != x ==> y in l.Items)
      && (if arrived then x in l.Items && x !in old(home) && home == old(home)[x := l]
          else x in old(l.Items) && home == old(home) - {x} && !x.Linked())
    }

    twostate lemma MovedHouses(new l: ListHead, new x: ListItem, arrived: bool)
      requires old(allocated(l)) && old(allocated(x))
      requires Moved(l, x, arrived)
      requires old(Houses(ready)) && old(Houses(waiting)) && old(Houses(zombie))
      ensures Houses(ready) && Houses(waiting) && Houses(zombie)
    {
    }

    twostate lemma MovedPlaced(new l: ListHead, new x: ListItem, arrived: bool)
      requires old(allocated(l)) && old(allocated(x))
      requires Moved(l, x, arrived)
      requires old(forall p {:trigger items[p]} :: p in items ==> items[p].owner == p && Placed(items[p]))
      ensures forall p {:trigger items[p]} :: p in items ==> items[p].owner == p && Placed(items[p])
    {
    }

    twostate lemma MovedValid(new l: ListHead, new x: ListItem, arrived: bool)
      requires old(allocated(l)) && old(allocated(x))
      requires old(Valid()) && l.Valid() && Moved(l, x, arrived)
      ensures Valid()
    {
      OthersValid(l, x);
      MovedHouses(l, x, arrived);
      MovedPlaced(l, x, arrived);
    }

    twostate lemma ItemsSame(m: ListHead)
      requires unchanged(this) && m.SameHead() && old(Houses(m))
      requires forall p {:trigger items[p]} :: p in items ==>
               items[p].prev == old(items[p].prev) && items[p].next == old(items[p].next)
      ensures m.Same()
    {
      forall y | y in m.Items ensures y.prev == old(y.prev) && y.next == old(y.next) {
        assert items[y.owner] == y;
      }
    }

    /** All is as it was when no pointer has changed. */
    twostate lemma Undisturbed()
      requires old(Valid()) && unchanged(this) && ready.SameHead() && waiting.SameHead() && zombie.SameHead()
      requires forall p {:trigger items[p]} :: p in items ==>
               items[p].prev == old(items[p].prev) && items[p].next == old(items[p].next)
      ensures Valid()
    {
      ItemsSame(ready);
      ItemsSame(waiting);
      ItemsSame(zombie);
      ready.SameValid();
      waiting.SameValid();
      zombie.SameValid();
    }

    /** List_insert of a control block behind `prev`: nothing happens when it is linked. A
        block that is alone in a list would be let through. */
    method Insert(l: ListHead, prev: ListItem?, p: Pid, ghost k: nat)
      requires Valid() && IsList(l) && p in items && (items[p].Linked() || items[p] !in home)
      requires k <= |l.Items| && prev == l.Before(k)
      modifies this`home, l, l.Nodes(), items[p]
      ensures Valid()
      ensures l.Items == if old(items[p].Linked()) then old(l.Items)
              else old(l.Items)[..k] + [items[p]] + old(l.Items)[k..]
      ensures l != ready ==> ready.Items == old(ready.Items)
      ensures l != waiting ==> waiting.Items == old(waiting.Items)
      ensures l != zombie ==> zombie.Items == old(zombie.Items)
    {
      var x := items[p];
      ghost var linked := x.Linked();
      LinkIn(l, prev, x, k);
      if linked {
        Refused(l, x);
      } else {
        home := home[x := l];
        Arrived(old(l.Items), l.Items, k, x);
        MovedValid(l, x, true);
      }
    }

    /** An insertion that was refused has changed nothing. */
    twostate lemma Refused(new l: ListHead, new x: ListItem)
      requires old(allocated(l)) && old(allocated(x))
      requires old(Valid()) && IsList(l) && unchanged(this)
      requires OthersSame(l, x) && l.Same() && x.prev == old(x.prev) && x.next == old(x.next)
      ensures Valid()
    {
      forall p {:trigger items[p]} | p in items
        ensures items[p].prev == old(items[p].prev) && items[p].next == old(items[p].next)
      {
        if !old(Outside(l, items[p])) { assert items[p] in l.Items; }
      }
      Undisturbed();
    }

    /** List_detach of the control block at position `k`. */
    method Detach(l: ListHead, p: Pid, ghost k: nat)
      requires Valid() && IsList(l) && p in items && k < |l.Items| && l.Items[k] == items[p]
      modifies this`home, l, l.Nodes()
      ensures Valid() && items[p] !in home
      ensures l.Items == old(l.Items)[..k] + old(l.Items)[k + 1..]
      ensures l != ready ==> ready.Items == old(ready.Items)
      ensures l != waiting ==> waiting.Items == old(waiting.Items)
      ensures l != zombie ==> zombie.Items == old(zombie.Items)
    {
      var x := items[p];
      LinkOut(l, x, k);
      home := home - {x};
      Departed(old(l.Items), l.Items, k);
      MovedValid(l, x, false);
    }

    // The same in terms of process ids.

    /** The processes of a list, first to last. */
    ghost function Of(l: ListHead): (ps: seq<Pid>)
      reads l
      ensures |ps| == |l.Items|
    {
      Owners(l.Items)
    }

    /** The process has a neighbour in the list it is in. */
    ghost predicate Chained(p: Pid)
      reads ready, waiting, zombie
    {
      || (p in Of(ready) && |Of(ready)| >= 2)
      || (p in Of(waiting) && |Of(waiting)| >= 2)
      || (p in Of(zombie) && |Of(zombie)| >= 2)
    }

    ghost predicate Nowhere(p: Pid)
      reads ready, waiting, zombie
    {
      p !in Of(ready) && p !in Of(waiting) && p !in Of(zombie)
    }

    lemma Listed(l: ListHead, p: Pid)
      requires Valid() && IsList(l) && p in items
      ensures p in Of(l) <==> items[p] in l.Items
      ensures NoDup(Of(l))
      ensures forall k :: 0 <= k < |l.Items| ==> Of(l)[k] in items && items[Of(l)[k]] == l.Items[k]
    {
      forall k | 0 <= k < |l.Items| ensures Of(l)[k] in items && items[Of(l)[k]] == l.Items[k] {
        assert l.Items[k] in l.Items;
      }
      if items[p] in l.Items {
        var k :| 0 <= k < |l.Items| && l.Items[k] == items[p];
        assert Of(l)[k] == p;
      }
    }

    /** The pointers of a control block tell whether the process has a neighbour, and an
        unlinked one that is in no list is free. */
    lemma LinkedIff(p: Pid)
      requires Valid() && p in items
      ensures items[p].Linked() <==> Chained(p)
      ensures Nowhere(p) <==> items[p] !in home
    {
      Listed(ready, p);
      Listed(waiting, p);
      Listed(zombie, p);
      if items[p] in ready.Items { ready.LinkedIffNotAlone(items[p]); }
      if items[p] in waiting.Items { waiting.LinkedIffNotAlone(items[p]); }
      if items[p] in zombie.Items { zombie.LinkedIffNotAlone(items[p]); }
    }

    lemma NodesAreItems(l: ListHead, p: Pid)
      requires Valid() && IsList(l) && p in items
      ensures l.Nodes() <= items.Values && items[p] in items.Values
    {
      forall y | y in l.Items ensures y in items.Values {
        assert items[y.owner] == y;
      }
    }

    /** List_insert behind `prev`. */
    method Place(l: ListHead, prev: ListItem?, p: Pid, ghost k: nat)
      requires Valid() && IsList(l) && p in items && (Chained(p) || Nowhere(p))
      requires k <= |Of(l)| && prev == l.Before(k)
      modifies this`home, l, items.Values
      ensures Valid()
      ensures Of(l) == if old(Chained(p)) then old(Of(l)) else old(Of(l))[..k] + [p] + old(Of(l))[k..]
      ensures l != ready ==> Of(ready) == old(Of(ready))
      ensures l != waiting ==> Of(waiting) == old(Of(waiting))
      ensures l != zombie ==> Of(zombie) == old(Of(zombie))
    {
      LinkedIff(p);
      OwnersSpliced(l.Items, k, items[p]);
      NodesAreItems(l, p);
      Insert(l, prev, p, k);
    }

    /** List_insert at the end. */
    method Append(l: ListHead, p: Pid)
      requires Valid() && IsList(l) && p in items && (Chained(p) || Nowhere(p))
      modifies this`home, l, items.Values
      ensures Valid()
      ensures Of(l) == if old(Chained(p)) then old(Of(l)) else old(Of(l)) + [p]
      ensures l != ready ==> Of(ready) == old(Of(ready))
      ensures l != waiting ==> Of(waiting) == old(Of(waiting))
      ensures l != zombie ==> Of(zombie) == old(Of(zombie))
    {
      ghost var was := Of(l);
      Place(l, l.last, p, |l.Items|);
      assert was[..|was|] + [p] + was[|was|..] == was + [p];
    }

    /** List_detach of a member. */
    method Remove(l: ListHead, p: Pid)
      requires Valid() && IsList(l) && p in items && p in Of(l)
      modifies this`home, l, items.Values
      ensures Valid() && Nowhere(p)
      ensures Of(l) == Without(old(Of(l)), {p})
      ensures l != ready ==> Of(ready) == old(Of(ready))
      ensures l != waiting ==> Of(waiting) == old(Of(waiting))
      ensures l != zombie ==> Of(zombie) == old(Of(zombie))
    {
      ghost var was := Of(l);
      Listed(l, p);
      ghost var k :| 0 <= k < |was| && was[k] == p;
      OwnersCut(l.Items, k);
      NodesAreItems(l, p);
      Detach(l, p, k);
      LinkedIff(p);
    }

    /** List_detach of the first member. */
    method Pop(l: ListHead) returns (p: Pid)
      requires Valid() && IsList(l) && Of(l) != []
      modifies this`home, l, items.Values
      ensures Valid() && p == old(Of(l))[0] && p in items && Nowhere(p)
      ensures Of(l) == old(Of(l))[1..]
      ensures l != ready ==> Of(ready) == old(Of(ready))
      ensures l != waiting ==> Of(waiting) == old(Of(waiting))
      ensures l != zombie ==> Of(zombie) == old(Of(zombie))
    {
      p := l.first.owner;
      assert l.Items[0] in l.Items;
      OwnersRest(l.Items);
      NodesAreItems(l, p);
      Detach(l, p, 0);
      LinkedIff(p);
    }

    /** PCB_alloc, as far as the lists see it. */
    method Enroll(p: Pid)
      requires Valid() && p !in items
      modifies this`items
      ensures Valid() && p in items && items == old(items)[p := items[p]] && fresh(items[p]) && Nowhere(p)
    {
      var item := new ListItem(p);
      Unlisted(ready, p);
      Unlisted(waiting, p);
      Unlisted(zombie, p);
      items := items[p := item];
    }

    lemma Unlisted(l: ListHead, p: Pid)
      requires Houses(l) && p !in items
      ensures p !in Of(l)
    {
      forall k | 0 <= k < |l.Items| ensures Of(l)[k] != p { assert l.Items[k] in l.Items; }
    }

    /** PCB_free of a process that is in no list. */
    method Dismiss(p: Pid)
      requires Valid() && p in items && Nowhere(p)
      modifies this`items
      ensures Valid() && items == old(items) - {p}
    {
      LinkedIff(p);
      items := items - {p};
    }
  }

  lemma OwnersSpliced(was: seq<ListItem>, k: nat, x: ListItem)
    requires k <= |was|
    ensures Owners(was[..k] + [x] + was[k..]) == Owners(was)[..k] + [x.owner] + Owners(was)[k..]
  {
  }

  lemma OwnersCut(was: seq<ListItem>, k: nat)
    requires k < |was| && NoDup(Owners(was))
    ensures Owners(was[..k] + was[k + 1..]) == Without(Owners(was), {was[k].owner})
  {
    WithoutAt(Owners(was), k);
    assert Owners(was[..k] + was[k + 1..]) == Owners(was)[..k] + Owners(was)[k + 1..];
  }

  lemma OwnersRest(was: seq<ListItem>)
    requires was != []
    ensures Owners(was[..0] + was[1..]) == Owners(was)[1..]
  {
  }
}
