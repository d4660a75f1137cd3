/** The QueueUser pool on the heap: the blocks that are out are the items of the user lists
    of the live queues and those that exit has abandoned, and a block that is free has null
    links, so that QueueUser_alloc need not clear them. The kernel on the heap does not use
    this class: it keeps the user lists as sequences of block numbers. */
module QueueUsers {
  import opened Seqs
  import opened Constants
  import opened LinkedList

  class UserPool {
    /** The storage of the pool; block `b` is `blocks[b]`. */
    const blocks: seq<ListItem>
    /** The free blocks, the next one to be handed out first. */
    var free: seq<Block>
    /** The blocks that exit took out of their lists without freeing them. */
    ghost var lost: set<Block>
    /** The user lists of the live queues. */
    ghost var heads: set<ListHead>
    /** The list that an item is in. */
    ghost var home: map<ListItem, ListHead>

    ghost predicate Numbered()
      reads this
    {
      forall b {:trigger blocks[b]} :: 0 <= b < |blocks| ==> blocks[b].owner == b
    }

    ghost predicate Houses(l: ListHead)
      reads this, l
    {
      && (forall i {:trigger l.Items[i]} :: 0 <= i < |l.Items| ==> l.Items[i] in blocks)
      && (forall x {:trigger x in l.Items} :: x in l.Items ==> x in home && home[x] == l)
    }

    ghost predicate Placed(x: ListItem)
      reads this, heads, x
    {
      if x in home then home[x] in heads && x in home[x].Items else !x.Linked()
    }

    /** A block is free exactly when it is in no list and was not abandoned. */
    ghost predicate FreeExact()
      reads this
    {
      && NoDup(free)
      && (forall b {:trigger b in free} :: b in free ==> b < |blocks| && blocks[b] !in home && b !in lost)
      && (forall b {:trigger b in lost} :: b in lost ==> b < |blocks| && blocks[b] !in home)
      && (forall b {:trigger blocks[b]} :: 0 <= b < |blocks| && blocks[b] !in home && b !in lost ==> b in free)
    }

    ghost predicate Valid()
      reads this, heads, blocks
    {
      && Numbered() && FreeExact()
      && (forall l {:trigger l in heads} :: l in heads ==> Houses(l) && l.Valid())
      && (forall x {:trigger x in blocks} :: x in blocks ==> Placed(x))
    }

    /** QueueUser_init. */
    constructor (blocks: seq<ListItem>)
      requires forall b {:trigger blocks[b]} :: 0 <= b < |blocks| ==> blocks[b].owner == b && !blocks[b].Linked()
      ensures Valid() && this.blocks == blocks && heads == {} && lost == {} && |free| == |blocks|
    {
      this.blocks := blocks;
      free := seq(|blocks|, i requires 0 <= i => i);
      heads, lost := {}, {};
      home := map[];
      new;
      forall b | 0 <= b < |blocks| ensures b in free { assert free[b] == b; }
    }

    /** List_init of one of the three lists of a new queue. */
    method NewList() returns (l: ListHead)
      requires Valid()
      modifies this`heads
      ensures Valid() && fresh(l) && heads == old(heads) + {l} && l.Items == []
    {
      l := new ListHead();
      heads := heads + {l};
    }

    /** The three lists of Queue_alloc. */
    method NewQueue() returns (readers: ListHead, writers: ListHead, nonBlock: ListHead)
      requires Valid()
      modifies this`heads
      ensures Valid() && heads == old(heads) + {readers} + {writers} + {nonBlock}
      ensures fresh(readers) && fresh(writers) && fresh(nonBlock)
      ensures readers.Items == [] && writers.Items == [] && nonBlock.Items == []
      ensures readers != writers && readers != nonBlock && writers != nonBlock
    {
      readers := NewList();
      writers := NewList();
      nonBlock := NewList();
    }

    /** The lists other than `l` are as before, and so are the items outside `l`, but for `x`. */
    twostate predicate OthersSame(l: ListHead, new x: ListItem)
      reads this, heads, blocks
    {
      && heads == old(heads)
      && (forall m {:trigger m in heads} :: m in heads && m != l ==> m.SameHead())
      && (forall y {:trigger y in blocks} :: y in blocks && y != x && old(y in home ==> home[y] != l) ==>
            y.prev == old(y.prev) && y.next == old(y.next))
    }

    twostate lemma OthersValid(new l: ListHead, new x: ListItem)
      requires old(allocated(l)) && old(allocated(x))
      requires old(Valid()) && OthersSame(l, x)
      requires forall m {:trigger m in heads} :: m in heads && m != l ==> x !in m.Items
      ensures forall m {:trigger m in heads} :: m in heads && m != l ==> m.Valid()
    {
      forall m | m in heads && m != l ensures m.Valid() {
        forall y | y in m.Items ensures y.prev == old(y.prev) && y.next == old(y.next) {
          assert y in blocks && old(home)[y] == m;
        }
        m.SameValid();
      }
    }

    /** List_insert at the end of a list, of an item that is in none. */
    method LinkIn(l: ListHead, x: ListItem)
      requires Valid() && l in heads && x in blocks && x !in home
      modifies l, l.Nodes(), x
      ensures OthersSame(l, x)
      ensures l.Valid() && l.Items == old(l.Items) + [x]
      ensures l.Items == old(l.Items)[..|old(l.Items)|] + [x] + old(l.Items)[|old(l.Items)|..]
    {
      ghost var was := l.Items;
      assert Placed(x);
      assert forall y {:trigger y in blocks} :: y in blocks && (y in home ==> home[y] != l) ==> y !in l.Items;
      var r := l.Insert(l.last, x, |l.Items|);
      assert was[..|was|] + [x] + was[|was|..] == was + [x];
    }

    /** List_detach of the member at position `k`. */
    method LinkOut(l: ListHead, x: ListItem, ghost k: nat)
      requires Valid() && l in heads && k < |l.Items| && l.Items[k] == x
      modifies l, l.Nodes()
      ensures OthersSame(l, x)
      ensures l.Valid() && !x.Linked() && l.Items == old(l.Items)[..k] + old(l.Items)[k + 1..]
    {
      assert forall y {:trigger y in blocks} :: y in blocks && (y in home ==> home[y] != l) ==> y !in l.Items;
      var r := l.Detach(x, k);
    }

    /** QueueUser_alloc and the insertion at the end of a list. Without a free block the
        item is null and List_insert refuses it; a block that is handed out is never
        refused, whatever happened to it before. */
    method Add(l: ListHead) returns (r: ListItem?)
      requires Valid() && l in heads
      modifies this`free, this`home, l, l.Nodes(), blocks
      ensures Valid()
      ensures forall m {:trigger m in heads} :: m in heads && m != l ==> m.Items == old(m.Items)
      ensures old(free) == [] ==> r == null && l.Items == old(l.Items) && free == []
      ensures old(free) != [] ==>
                old(free)[0] < |blocks| && r == blocks[old(free)[0]]
                && l.Items == old(l.Items) + [r] && free == old(free)[1..]
    {
      if free == [] { return null; }
      assert free[0] in free;
      var x := blocks[free[0]];
      assert x in blocks;
      LinkIn(l, x);
      free := free[1..];
      home := home[x := l];
      Taken(l, x.owner);
      Arrived(old(l.Items), l.Items, |old(l.Items)|, x);
      MovedValid(l, x, true);
      return x;
    }

    /** `l` has gained the item `x`, or lost it, and `home` says so. */
    twostate predicate Moved(l: ListHead, new x: ListItem, arrived: bool)
      reads this, heads, blocks, l, x
    {
      && l in heads && x in blocks && OthersSame(l, x)
      && (forall i {:trigger l.Items[i]} :: 0 <= i < |l.Items| ==> l.Items[i] in blocks)
      && (forall y {:trigger y in l.Items} :: y in l.Items ==> if y == x then arrived else y in old(l.Items))
      && (forall y {:trigger y in old(l.Items)} :: y in old(l.Items) && y != x ==> y in l.Items)
      && (if arrived then x in l.Items && x !in old(home) && home == old(home)[x := l]
          else x in old(l.Items) && home == old(home) - {x} && !x.Linked())
    }

    twostate lemma MovedHouses(new l: ListHead, new x: ListItem, arrived: bool)
      requires old(allocated(l)) && old(allocated(x))
      requires Moved(l, x, arrived)
      requires old(forall m {:trigger m in heads} :: m in heads ==> Houses(m))
      ensures forall m {:trigger m in heads} :: m in heads ==> Houses(m)
    {
    }

    twostate lemma MovedPlaced(new l: ListHead, new x: ListItem, arrived: bool)
      requires old(allocated(l)) && old(allocated(x))
      requires Moved(l, x, arrived)
      requires old(forall y {:trigger y in blocks} :: y in blocks ==> Placed(y))
      ensures forall y {:trigger y in blocks} :: y in blocks ==> Placed(y)
    {
      forall y | y in blocks && y != x ensures Placed(y) {
        assert old(Placed(y));
      }
    }

    twostate lemma MovedValid(new l: ListHead, new x: ListItem, arrived: bool)
      requires old(allocated(l)) && old(allocated(x))
      requires old(Valid()) && l.Valid() && Moved(l, x, arrived) && FreeExact()
      ensures Valid()
    {
      OthersValid(l, x);
      MovedHouses(l, x, arrived);
      MovedPlaced(l, x, arrived);
    }

    /** The first free block has got a home. */
    twostate lemma Taken(new l: ListHead, b: Block)
      requires old(FreeExact()) && Numbered() && b < |blocks|
      requires old(free) == [b] + free && home == old(home)[blocks[b] := l] && lost == old(lost)
      ensures FreeExact()
    {
      NoDupSplit(old(free), [b], free);
      assert [b][0] !in free;
      forall c | c in free || c in lost ensures c < |blocks| && blocks[c] !in home && (c in free ==> c !in lost) {
        assert c in old(free) || c in old(lost);
        assert b in old(free);
        assert c != b && blocks[c].owner == c && blocks[b].owner == b;
      }
      forall c {:trigger blocks[c]} | 0 <= c < |blocks| && blocks[c] !in home && c !in lost ensures c in free {
        assert c in old(free) && c != b;
      }
    }

    /** A block has lost its home and is the next to be handed out. */
    twostate lemma Returned(b: Block)
      requires old(FreeExact()) && Numbered() && b < |blocks| && blocks[b] in old(home)
      requires free == [b] + old(free) && home == old(home) - {blocks[b]} && lost == old(lost)
      ensures FreeExact()
    {
      assert b !in old(free);
      forall c {:trigger blocks[c]} | 0 <= c < |blocks| && blocks[c] !in home && c !in lost ensures c in free {
        assert c == b || c in old(free);
        assert free[0] == b;
      }
    }

    /** List_detach of a member, as the pool sees it. */
    method Unlist(l: ListHead, x: ListItem, ghost k: nat)
      requires Valid() && l in heads && k < |l.Items| && l.Items[k] == x
      modifies this`home, l, l.Nodes()
      ensures Moved(l, x, false) && l.Valid() && home == old(home) - {x}
      ensures l.Items == old(l.Items)[..k] + old(l.Items)[k + 1..]
    {
      MemberIsBlock(l, k);
      LinkOut(l, x, k);
      home := home - {x};
      Departed(old(l.Items), l.Items, k);
    }

    /** List_detach of the member at position `k`, and QueueUser_free. */
    method Release(l: ListHead, x: ListItem, ghost k: nat)
      requires Valid() && l in heads && k < |l.Items| && l.Items[k] == x
      modifies this`free, this`home, l, l.Nodes()
      ensures Valid()
      ensures forall m {:trigger m in heads} :: m in heads && m != l ==> m.Items == old(m.Items)
      ensures l.Items == old(l.Items)[..k] + old(l.Items)[k + 1..] && free == [x.owner] + old(free)
    {
      MemberIsBlock(l, k);
      Unlist(l, x, k);
      free := [x.owner] + free;
      Returned(x.owner);
      MovedValid(l, x, false);
    }

    /** A block has lost its home and is not free either. */
    twostate lemma Abandoned(b: Block)
      requires old(FreeExact()) && Numbered() && b < |blocks| && blocks[b] in old(home)
      requires free == old(free) && home == old(home) - {blocks[b]} && lost == old(lost) + {b}
      ensures FreeExact()
    {
      assert b !in old(free) && b !in old(lost);
      forall c {:trigger blocks[c]} | 0 <= c < |blocks| && blocks[c] !in home && c !in lost ensures c in free {
        assert blocks[c].owner == c && c in old(free);
      }
    }

    /** What exit does with an entry: List_detach of the member at position `k`, and no more.
        The block is out for good. */
    method Abandon(l: ListHead, x: ListItem, ghost k: nat)
      requires Valid() && l in heads && k < |l.Items| && l.Items[k] == x
      modifies this`home, this`lost, l, l.Nodes()
      ensures Valid() && lost == old(lost) + {x.owner} && x.owner !in old(lost)
      ensures forall m {:trigger m in heads} :: m in heads && m != l ==> m.Items == old(m.Items)
      ensures l.Items == old(l.Items)[..k] + old(l.Items)[k + 1..]
    {
      MemberIsBlock(l, k);
      Unlist(l, x, k);
      lost := lost + {x.owner};
      Abandoned(x.owner);
      MovedValid(l, x, false);
    }

    lemma MemberIsBlock(l: ListHead, k: nat)
      requires Valid() && l in heads && k < |l.Items|
      ensures l.Items[k] in l.Items && l.Items[k] in blocks
      ensures l.Items[k].owner < |blocks| && blocks[l.Items[k].owner] == l.Items[k] && l.Items[k] in home
    {
      var b :| 0 <= b < |blocks| && blocks[b] == l.Items[k];
    }

    /** The block that a list gets when one is asked for, with `before` of the free blocks
        gone already. */
    function Share(all: seq<Block>, asked: bool, before: nat): seq<ListItem> {
      if asked && before < |all| && all[before] < |blocks| then [blocks[all[before]]] else []
    }

    /** The entry of a list in the slots of a descriptor. */
    function Slot(share: seq<ListItem>): ListItem? {
      if share == [] then null else share[0]
    }

    /** One of the three sections of Queue_add_pid. */
    method AddAsked(l: ListHead, asked: bool, ghost all: seq<Block>, ghost before: nat)
      returns (entry: ListItem?, failed: bool)
      requires Valid() && l in heads && before <= |all| && free == all[before..]
      modifies this`free, this`home, l, l.Nodes(), blocks
      ensures Valid() && (failed <==> asked && before == |all|)
      ensures l.Items == old(l.Items) + Share(all, asked, before) && entry == Slot(Share(all, asked, before))
      ensures !failed ==> before + Count(asked) <= |all| && free == all[before + Count(asked)..]
      ensures forall m {:trigger m in heads} :: m in heads && m != l ==> m.Items == old(m.Items)
    {
      if asked {
        entry, failed := AddShare(l, all, before);
      } else {
        entry, failed := null, false;
      }
    }

    method AddShare(l: ListHead, ghost all: seq<Block>, ghost before: nat) returns (entry: ListItem?, failed: bool)
      requires Valid() && l in heads && before <= |all| && free == all[before..]
      modifies this`free, this`home, l, l.Nodes(), blocks
      ensures Valid() && (failed <==> before == |all|)
      ensures l.Items == old(l.Items) + Share(all, true, before) && entry == Slot(Share(all, true, before))
      ensures !failed ==> before < |all| && free == all[before + 1..]
      ensures forall m {:trigger m in heads} :: m in heads && m != l ==> m.Items == old(m.Items)
    {
      assert before < |all| ==> free[0] == all[before] && free[1..] == all[before + 1..];
      entry := Add(l);
      failed := entry == null;
    }

    /** Queue_add_pid: an entry in each list that the mode names. It fails exactly when the
        pool has too few blocks, and then the entries made so far stay. */
    method AddPid(readers: ListHead, writers: ListHead, nonBlock: ListHead, r: bool, w: bool, n: bool)
      returns (entries: (ListItem?, ListItem?, ListItem?), res: int)
      requires Valid() && readers in heads && writers in heads && nonBlock in heads
      requires readers != writers && readers != nonBlock && writers != nonBlock
      modifies this`free, this`home, readers, writers, nonBlock, blocks
      ensures Valid()
      ensures var nr, nw, nn := Count(r), Count(r) + Count(w), Count(r) + Count(w) + Count(n);
              var all := old(free);
              && res == (if nn <= |all| then 0 else LIST_INSERTION_ERROR)
              && readers.Items == old(readers.Items) + Share(all, r, 0)
              && writers.Items == old(writers.Items) + Share(all, w, nr)
              && nonBlock.Items == old(nonBlock.Items) + Share(all, n, nw)
              && entries == (Slot(Share(all, r, 0)), Slot(Share(all, w, nr)), Slot(Share(all, n, nw)))
      ensures forall m {:trigger m in heads} ::
                m in heads && m != readers && m != writers && m != nonBlock ==> m.Items == old(m.Items)
    {
      ghost var all := free;
      var a, b, c, failed := null, null, null, false;
      a, failed := AddAsked(readers, r, all, 0);
      assert writers.Items == old(writers.Items) && nonBlock.Items == old(nonBlock.Items);
      if !failed { b, failed := AddAsked(writers, w, all, Count(r)); }
      assert nonBlock.Items == old(nonBlock.Items);
      if !failed { c, failed := AddAsked(nonBlock, n, all, Count(r) + Count(w)); }
      entries := (a, b, c);
      res := if failed then LIST_INSERTION_ERROR else 0;
    }

    /** One list in dmq_close: a slot that is null changes nothing. */
    method Close(l: ListHead, entry: ListItem?, ghost k: nat)
      requires Valid() && l in heads && (entry != null ==> k < |l.Items| && l.Items[k] == entry)
      modifies this`free, this`home, l, l.Nodes()
      ensures Valid()
      ensures forall m {:trigger m in heads} :: m in heads && m != l ==> m.Items == old(m.Items)
      ensures entry == null ==> l.Items == old(l.Items) && free == old(free)
      ensures entry != null ==>
              l.Items == old(l.Items)[..k] + old(l.Items)[k + 1..] && free == [entry.owner] + old(free)
    {
      if entry != null {
        Release(l, entry, k);
      }
    }

    /** The loop of Queue_free over one list: every entry is taken out and freed. */
    method Clear(l: ListHead)
      requires Valid() && l in heads
      modifies this`free, this`home, l, l.Nodes()
      ensures Valid() && l.Items == []
      ensures forall m {:trigger m in heads} :: m in heads && m != l ==> m.Items == old(m.Items)
      ensures free == Freed(old(Owners(l.Items)), old(free))
    {
      while l.first != null
        invariant Valid() && l.Nodes() <= old(l.Nodes())
        invariant Freed(Owners(l.Items), free) == Freed(old(Owners(l.Items)), old(free))
        invariant forall m {:trigger m in heads} :: m in heads && m != l ==> m.Items == old(m.Items)
        decreases |l.Items|
      {
        FirstFreed(l.Items, free);
        ReleaseFirst(l);
      }
    }

    method ReleaseFirst(l: ListHead)
      requires Valid() && l in heads && l.Items != []
      modifies this`free, this`home, l, l.Nodes()
      ensures Valid() && l.Items == old(l.Items)[1..] && free == [old(l.Items)[0].owner] + old(free)
      ensures forall m {:trigger m in heads} :: m in heads && m != l ==> m.Items == old(m.Items)
    {
      ghost var rest := l.Items[1..];
      assert l.Items[..0] + l.Items[1..] == rest;
      Release(l, l.first, 0);
    }

    /** An empty list goes with its queue. */
    method DropList(l: ListHead)
      requires Valid() && l in heads && l.Items == []
      modifies this`heads
      ensures Valid() && heads == old(heads) - {l}
    {
      heads := heads - {l};
    }

    method Discard(l: ListHead)
      requires Valid() && l in heads
      modifies this`free, this`home, this`heads, l, l.Nodes()
      ensures Valid() && heads == old(heads) - {l}
      ensures forall m {:trigger m in heads} :: m in heads ==> m.Items == old(m.Items)
      ensures free == Freed(old(Owners(l.Items)), old(free))
    {
      Clear(l);
      DropList(l);
    }

    /** The three loops of Queue_free; the lists of the queue are gone afterwards. */
    method FreeLists(readers: ListHead, writers: ListHead, nonBlock: ListHead)
      requires Valid() && readers in heads && writers in heads && nonBlock in heads
      requires readers != writers && readers != nonBlock && writers != nonBlock
      modifies this`free, this`home, this`heads
      modifies readers, readers.Nodes(), writers, writers.Nodes(), nonBlock, nonBlock.Nodes()
      ensures Valid() && heads == old(heads) - {readers} - {writers} - {nonBlock}
      ensures forall m {:trigger m in heads} :: m in heads ==> m.Items == old(m.Items)
      ensures free == old(Freed(Owners(nonBlock.Items),
              Freed(Owners(writers.Items), Freed(Owners(readers.Items), free))))
    {
      Discard(readers);
      assert writers in heads && nonBlock in heads;
      Discard(writers);
      assert nonBlock in heads && nonBlock.Items == old(nonBlock.Items);
      Discard(nonBlock);
    }
  }

  /** The free blocks after the blocks in `gone` were freed, first to last. */
  function Freed(gone: seq<Block>, free: seq<Block>): seq<Block>
    decreases gone
  {
    if gone == [] then free else Freed(gone[1..], [gone[0]] + free)
  }

  lemma {:induction false} FreedIsBoth(gone: seq<Block>, free: seq<Block>)
    ensures |Freed(gone, free)| == |gone| + |free|
    ensures forall b :: b in Freed(gone, free) <==> b in gone || b in free
    decreases gone
  {
    if gone != [] {
      FreedIsBoth(gone[1..], [gone[0]] + free);
      assert gone == [gone[0]] + gone[1..];
    }
  }

  function Count(asked: bool): nat {
    if asked then 1 else 0
  }

  lemma FirstFreed(items: seq<ListItem>, free: seq<Block>)
    requires items != []
    ensures Elems(items[1..]) <= Elems(items)
    ensures Freed(Owners(items[1..]), [items[0].owner] + free) == Freed(Owners(items), free)
  {
    assert Owners(items)[1..] == Owners(items[1..]);
    assert forall x :: x in items[1..] ==> x in items;
  }
}
