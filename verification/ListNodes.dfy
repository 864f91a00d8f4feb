/** The circular doubly linked form of list.c, proved against the values of Lists. */
module ListNodes {
  import opened Words
  import L = Lists

  class ListItem {
    var itemValue: nat
    var next: ListItem?
    var previous: ListItem?
    var container: List?

    /** vListInitialiseItem */
    constructor (value: nat)
      ensures container == null && itemValue == value
    {
      itemValue := value;
      next, previous, container := null, null, null;
    }
  }

  ghost function Place(s: seq<ListItem>, x: ListItem): nat {
    if x in s then var i :| 0 <= i < |s| && s[i] == x; i else 0
  }

  /** No node occurs twice; phrased so that each node gives one fact, not one per pair. */
  ghost predicate Distinct(s: seq<ListItem>) {
    forall i {:trigger s[i]} :: 0 <= i < |s| ==> Place(s, s[i]) == i
  }

  function Succ(n: nat, i: nat): (j: nat)
    requires i < n
    ensures j < n
  {
    if i + 1 < n then i + 1 else 0
  }

  function Pred(n: nat, i: nat): (j: nat)
    requires i < n
    ensures j < n
  {
    if i > 0 then i - 1 else n - 1
  }

  ghost predicate Linked(s: seq<ListItem>)
    reads s
  {
    && (forall i {:trigger s[i].next} :: 0 <= i < |s| ==> s[i].next == s[Succ(|s|, i)])
    && (forall i {:trigger s[i].previous} :: 0 <= i < |s| ==> s[i].previous == s[Pred(|s|, i)])
  }

  /** What remains linked once `x` has been spliced in behind place `pos`. */
  ghost predicate Spliced(s: seq<ListItem>, x: ListItem, pos: nat)
    requires pos < |s|
    reads s, x
  {
    && s[pos].next == x && x.next == s[Succ(|s|, pos)]
    && s[Succ(|s|, pos)].previous == x && x.previous == s[pos]
    && (forall i {:trigger s[i].next} :: 0 <= i < |s| && i != pos ==> s[i].next == s[Succ(|s|, i)])
    && (forall i {:trigger s[i].previous} :: 0 <= i < |s| && i != Succ(|s|, pos) ==> s[i].previous == s[Pred(|s|, i)])
  }

  function Splice(s: seq<ListItem>, x: ListItem, pos: nat): (t: seq<ListItem>)
    requires pos < |s|
    ensures |t| == |s| + 1 && t[pos + 1] == x
    ensures forall i :: 0 <= i <= pos ==> t[i] == s[i]
    ensures forall i :: pos + 1 < i < |t| ==> t[i] == s[i - 1]
  {
    s[..pos + 1] + [x] + s[pos + 1..]
  }

  lemma SpliceMembers(s: seq<ListItem>, x: ListItem, pos: nat)
    requires pos < |s|
    ensures Splice(s, x, pos)[1..] == s[1..][..pos] + [x] + s[1..][pos..]
  {
  }

  lemma SpliceNoDup(s: seq<ListItem>, x: ListItem, pos: nat)
    requires pos < |s| && Distinct(s) && x !in s
    ensures Distinct(Splice(s, x, pos))
  {
    var t := Splice(s, x, pos);
    forall i | 0 <= i < |t|
      ensures Place(t, t[i]) == i
    {
      var j := Place(t, t[i]);
      assert t[j] == t[i];
      assert Unshift(pos, j) == Unshift(pos, i) || i == pos + 1 || j == pos + 1;
    }
  }

  function Unshift(pos: nat, i: nat): nat {
    if i > pos + 1 then i - 1 else i
  }

  lemma SplicedLinked(s: seq<ListItem>, x: ListItem, pos: nat)
    requires pos < |s| && Spliced(s, x, pos)
    ensures Linked(Splice(s, x, pos))
  {
    var t := Splice(s, x, pos);
    forall i | 0 <= i < |t|
      ensures t[i].next == t[Succ(|t|, i)]
    {
      assert i <= pos ==> t[i] == s[i];
      assert i > pos + 1 ==> t[i] == s[i - 1];
    }
    forall i | 0 <= i < |t|
      ensures t[i].previous == t[Pred(|t|, i)]
    {
      assert i <= pos ==> t[i] == s[i];
      assert i > pos + 1 ==> t[i] == s[i - 1];
    }
  }

  /** What remains linked once the node behind place `pos` has been unlinked. */
  ghost predicate Cut(s: seq<ListItem>, pos: nat)
    requires pos + 1 < |s|
    reads s
  {
    && s[pos].next == s[Succ(|s|, pos + 1)] && s[Succ(|s|, pos + 1)].previous == s[pos]
    && (forall i {:trigger s[i].next} :: 0 <= i < |s| && i != pos ==> s[i].next == s[Succ(|s|, i)])
    && (forall i {:trigger s[i].previous} ::
          0 <= i < |s| && i != Succ(|s|, pos + 1) ==> s[i].previous == s[Pred(|s|, i)])
  }

  function Unsplice(s: seq<ListItem>, pos: nat): (t: seq<ListItem>)
    requires pos + 1 < |s|
    ensures |t| == |s| - 1
    ensures forall i :: 0 <= i <= pos ==> t[i] == s[i]
    ensures forall i :: pos < i < |t| ==> t[i] == s[i + 1]
  {
    s[..pos + 1] + s[pos + 2..]
  }

  lemma UnspliceMembers(s: seq<ListItem>, pos: nat)
    requires pos + 1 < |s|
    ensures Unsplice(s, pos)[1..] == s[1..][..pos] + s[1..][pos + 1..]
  {
  }

  lemma UnspliceDistinct(s: seq<ListItem>, pos: nat)
    requires pos + 1 < |s| && Distinct(s)
    ensures Distinct(Unsplice(s, pos))
  {
    var t := Unsplice(s, pos);
    forall i | 0 <= i < |t|
      ensures Place(t, t[i]) == i
    {
      var j := Place(t, t[i]);
      assert s[if j <= pos then j else j + 1] == s[if i <= pos then i else i + 1];
    }
  }

  lemma CutLinked(s: seq<ListItem>, pos: nat)
    requires pos + 1 < |s| && Cut(s, pos)
    ensures Linked(Unsplice(s, pos))
  {
    hide Unsplice;
    var t := Unsplice(s, pos);
    forall i | 0 <= i < |t|
      ensures t[i].next == t[Succ(|t|, i)] && t[i].previous == t[Pred(|t|, i)]
    {
      assert i <= pos ==> t[i] == s[i];
      assert i > pos ==> t[i] == s[i + 1];
    }
  }

  /** The links written by vListInsertEnd. */
  method LinkBefore(index: ListItem, x: ListItem, ghost s: seq<ListItem>, ghost pos: nat)
    requires Distinct(s) && Linked(s) && x !in s && pos < |s| && index == s[Succ(|s|, pos)]
    modifies s`next, s`previous, x`next, x`previous
    ensures Spliced(s, x, pos)
  {
    assert Pred(|s|, Succ(|s|, pos)) == pos;
    x.next := index;
    x.previous := index.previous;
    index.previous.next := x;
    index.previous := x;
  }

  /** The links written by vListInsert. */
  method LinkAfter(iterator_: ListItem, x: ListItem, ghost s: seq<ListItem>, ghost pos: nat)
    requires Distinct(s) && Linked(s) && x !in s && pos < |s| && iterator_ == s[pos]
    modifies s`next, s`previous, x`next, x`previous
    ensures Spliced(s, x, pos)
  {
    x.next := iterator_.next;
    x.next.previous := x;
    x.previous := iterator_;
    iterator_.next := x;
  }

  /** The links written by uxListRemove. */
  method Unlink(x: ListItem, ghost s: seq<ListItem>, ghost pos: nat)
    requires Distinct(s) && Linked(s) && pos + 1 < |s| && x == s[pos + 1]
    modifies s`next, s`previous
    ensures Cut(s, pos) && x.previous == s[pos]
  {
    x.next.previous := x.previous;
    x.previous.next := x.next;
  }

  class List {
    var numberOfItems: nat
    var pxIndex: ListItem
    const listEnd: ListItem
    /** The end marker followed by the members, in link order; and the place of pxIndex. */
    ghost var nodes: seq<ListItem>
    ghost var at: nat

    ghost predicate Members(s: seq<ListItem>)
      reads s
    {
      && (forall i {:trigger s[i].container} :: 0 < i < |s| ==> s[i].container == this)
      && (forall i {:trigger s[i].itemValue} :: 0 < i < |s| ==> s[i].itemValue <= MAX_DELAY)
    }

    ghost predicate Valid()
      reads this, nodes
    {
      && Distinct(nodes)
      && 0 < |nodes| && Linked(nodes) && Members(nodes)
      && nodes[0] == listEnd && listEnd.itemValue == MAX_DELAY
      && at < |nodes| && nodes[at] == pxIndex
      && numberOfItems == |nodes| - 1
    }

    ghost function Value(): (r: L.Ring<ListItem>)
      reads this, nodes
      requires Valid()
      ensures L.IndexOk(r)
    {
      L.Ring(nodes[1..], at)
    }

    /** The item values in list order. */
    ghost function Values(): (vs: seq<nat>)
      reads this, nodes
      requires Valid()
      ensures |vs| == |nodes| - 1 && forall i :: 0 <= i < |vs| ==> vs[i] == nodes[i + 1].itemValue
    {
      seq(|nodes| - 1, i requires 0 <= i < |nodes| - 1 reads this, nodes => nodes[i + 1].itemValue)
    }

    /** The list is well formed again once `x` has been spliced into the links of `s`. */
    lemma Inserted(s: seq<ListItem>, x: ListItem, pos: nat, was: nat)
      requires pos < |s| && was < |s| && Distinct(s) && x !in s
      requires Spliced(s, x, pos) && Members(s)
      requires x.container == this && x.itemValue <= MAX_DELAY
      requires s[0] == listEnd && listEnd.itemValue == MAX_DELAY && s[was] == pxIndex
      requires nodes == Splice(s, x, pos) && at == (if was > pos then was + 1 else was)
      requires numberOfItems == |s|
      ensures Valid() && Value() == L.InsertAt(L.Ring(s[1..], was), x, pos)
    {
      hide Distinct, Linked, Spliced, Members, Splice;
      SplicedLinked(s, x, pos);
      SpliceNoDup(s, x, pos);
      SpliceMembers(s, x, pos);
      SpliceKeeps(s, x, pos);
    }

    lemma SpliceKeeps(s: seq<ListItem>, x: ListItem, pos: nat)
      requires pos < |s| && Members(s) && x.container == this && x.itemValue <= MAX_DELAY
      ensures Members(Splice(s, x, pos))
    {
      var t := Splice(s, x, pos);
      forall i | 0 < i < |t|
        ensures t[i].container == this && t[i].itemValue <= MAX_DELAY
      {
        assert i != pos + 1 ==> t[i] == s[Unshift(pos, i)];
      }
    }

    /** The list is well formed again once the node behind `pos` has been unlinked. */
    lemma Removed(s: seq<ListItem>, pos: nat, was: nat)
      requires pos + 1 < |s| && was < |s| && Distinct(s) && Cut(s, pos)
      requires forall i {:trigger s[i].container} {:trigger s[i].itemValue} ::
                 0 < i < |s| && i != pos + 1 ==> s[i].container == this && s[i].itemValue <= MAX_DELAY
      requires s[0] == listEnd && listEnd.itemValue == MAX_DELAY
      requires pxIndex == if was == pos + 1 then s[pos] else s[was]
      requires nodes == Unsplice(s, pos) && at == (if was > pos then was - 1 else was)
      requires numberOfItems == |s| - 2
      ensures Valid() && Value() == L.RemoveAt(L.Ring(s[1..], was), pos)
    {
      hide Distinct, Linked, Cut, Members, Unsplice;
      CutLinked(s, pos);
      UnspliceDistinct(s, pos);
      UnspliceMembers(s, pos);
      UnspliceKeeps(s, pos);
    }

    lemma UnspliceKeeps(s: seq<ListItem>, pos: nat)
      requires pos + 1 < |s|
      requires forall i {:trigger s[i].container} {:trigger s[i].itemValue} ::
                 0 < i < |s| && i != pos + 1 ==> s[i].container == this && s[i].itemValue <= MAX_DELAY
      ensures Members(Unsplice(s, pos))
    {
      var t := Unsplice(s, pos);
      forall i | 0 < i < |t|
        ensures t[i].container == this && t[i].itemValue <= MAX_DELAY
      {
        assert t[i] == s[if i <= pos then i else i + 1];
      }
    }

    /** vListInitialise */
    constructor ()
      ensures Valid() && fresh(listEnd) && Value() == L.Ring([], 0)
    {
      var end := new ListItem(MAX_DELAY);
      listEnd := end;
      pxIndex := end;
      numberOfItems := 0;
      nodes, at := [end], 0;
      new;
      listEnd.next := listEnd;
      listEnd.previous := listEnd;
    }

    /** vListInsertEnd: `x` is linked in just before pxIndex. */
    method InsertEnd(x: ListItem)
      requires Valid() && x.container == null && x !in nodes && x.itemValue <= MAX_DELAY
      modifies this`numberOfItems, this`nodes, this`at
      modifies nodes`next, nodes`previous, x`next, x`previous, x`container
      ensures Valid() && x.container == this
      ensures Value() == L.InsertEnd(old(Value()), x)
    {
      ghost var pos := L.EndPos(Value());
      LinkBefore(pxIndex, x, nodes, pos);
      Attach(x, pos);
    }

    /** vListInsert: `x` goes behind every member whose value does not exceed its own.  The
        walk ends for every value, because portMAX_DELAY does not start it. */
    method Insert(x: ListItem)
      requires Valid() && x.container == null && x !in nodes && x.itemValue <= MAX_DELAY
      modifies this`numberOfItems, this`nodes, this`at
      modifies nodes`next, nodes`previous, x`next, x`previous, x`container
      ensures Valid() && x.container == this
      ensures Value() == L.InsertAt(old(Value()), x, L.SortedPos(old(Values()), x.itemValue))
    {
      ghost var pos := L.SortedPos(Values(), x.itemValue);
      var iterator_ := InsertionPoint(x.itemValue);
      LinkAfter(iterator_, x, nodes, pos);
      Attach(x, pos);
    }

    /** The end of both insertions: the item remembers its list. */
    method Attach(x: ListItem, ghost pos: nat)
      requires pos < |nodes| && at < |nodes| && Distinct(nodes) && x !in nodes
      requires Spliced(nodes, x, pos) && Members(nodes) && x.itemValue <= MAX_DELAY
      requires nodes[0] == listEnd && listEnd.itemValue == MAX_DELAY
      requires nodes[at] == pxIndex && numberOfItems == |nodes| - 1
      modifies this`numberOfItems, this`nodes, this`at, x`container
      ensures Valid() && x.container == this
      ensures Value() == L.InsertAt(L.Ring(old(nodes)[1..], old(at)), x, pos)
    {
      ghost var s, was := nodes, at;
      nodes, at := Splice(s, x, pos), if was > pos then was + 1 else was;
      x.container := this;
      numberOfItems := numberOfItems + 1;
      Inserted(s, x, pos, was);
    }

    /** The walk at the head of vListInsert. */
    method InsertionPoint(v: nat) returns (iterator_: ListItem)
      requires Valid() && v <= MAX_DELAY
      ensures iterator_ == nodes[L.SortedPos(Values(), v)]
    {
      ghost var vs := Values();
      ghost var pos := L.SortedPos(vs, v);
      assert nodes[0].previous == nodes[Pred(|nodes|, 0)];
      if v == MAX_DELAY {
        iterator_ := listEnd.previous;
        L.SortedPosAtEnd(vs, v);
      } else {
        iterator_ := listEnd;
        ghost var i := 0;
        assert nodes[0].next == nodes[Succ(|nodes|, 0)];
        assert 0 < |vs| ==> vs[0] == nodes[1].itemValue;
        while iterator_.next.itemValue <= v
          invariant 0 <= i <= pos && iterator_ == nodes[i]
          invariant iterator_.next == nodes[Succ(|nodes|, i)]
          invariant i < pos ==> iterator_.next.itemValue <= v
          decreases pos - i
        {
          assert i < |vs| ==> vs[i] == nodes[i + 1].itemValue;
          iterator_ := iterator_.next;
          i := i + 1;
          assert i < |vs| ==> vs[i] == nodes[i + 1].itemValue;
          assert nodes[i].next == nodes[Succ(|nodes|, i)];
        }
      }
    }

    /** uxListRemove, which finds the list through the item's container. */
    static method Remove(x: ListItem) returns (left: nat)
      requires x.container != null && x.container.Valid() && x in x.container.nodes[1..]
      modifies x.container, x.container.nodes`next, x.container.nodes`previous, x`container
      ensures x.container == null && old(x.container).Valid()
      ensures old(x.container).Value() == L.Remove(old(x.container.Value()), x)
      ensures left == |old(x.container).Value().items|
    {
      var list: List := x.container;
      ghost var pos := L.IndexOf(list.nodes[1..], x);
      assert x == list.nodes[pos + 1];
      Unlink(x, list.nodes, pos);
      left := list.Release(x, pos);
    }

    /** The rest of uxListRemove: pxIndex steps back if it designated the removed item. */
    method Release(x: ListItem, ghost pos: nat) returns (left: nat)
      requires pos + 1 < |nodes| && at < |nodes| && Distinct(nodes) && Cut(nodes, pos) && Members(nodes)
      requires nodes[0] == listEnd && listEnd.itemValue == MAX_DELAY
      requires nodes[at] == pxIndex && numberOfItems == |nodes| - 1
      requires x == nodes[pos + 1] && x.previous == nodes[pos]
      modifies this, x`container
      ensures x.container == null && Valid() && left == |nodes| - 1
      ensures Value() == L.RemoveAt(L.Ring(old(nodes)[1..], old(at)), pos)
    {
      hide Unsplice, Linked;
      ghost var s, was := nodes, at;
      assert Place(s, s[was]) == was && Place(s, x) == pos + 1;
      nodes, at := Unsplice(s, pos), if was > pos then was - 1 else was;
      if pxIndex == x {
        pxIndex := x.previous;
      }
      x.container := null;
      numberOfItems := numberOfItems - 1;
      Removed(s, pos, was);
      left := numberOfItems;
    }

    /** listGET_OWNER_OF_NEXT_ENTRY; the item stands for its owner. */
    method OwnerOfNextEntry() returns (x: ListItem)
      requires Valid() && |nodes| > 1
      modifies this`pxIndex, this`at
      ensures Valid() && Value() == L.Advance(old(Value())) && x == L.Selected(Value())
    {
      assert nodes[at].next == nodes[Succ(|nodes|, at)];
      pxIndex := pxIndex.next;
      at := Succ(|nodes|, at);
      if pxIndex == listEnd {
        assert nodes[0].next == nodes[Succ(|nodes|, 0)];
        pxIndex := pxIndex.next;
        at := 1;
      }
      x := pxIndex;
    }
  }
}
