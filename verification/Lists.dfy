/** List_t of list.c as a value: the members in order and the position of pxIndex. */
module Lists {

  /** `index == 0` is the end marker, `index == i + 1` is `items[i]`. */
  datatype Ring<T> = Ring(items: seq<T>, index: nat)

  predicate IndexOk<T>(r: Ring<T>) {
    r.index <= |r.items|
  }

  predicate NoDup<T(==)>(s: seq<T>) {
    forall i, j :: 0 <= i < j < |s| ==> s[i] != s[j]
  }

  /** Where vListInsertEnd links a new member: just before the indexed one. */
  function EndPos<T>(r: Ring<T>): (p: nat)
    requires IndexOk(r)
    ensures p <= |r.items|
  {
    if r.index == 0 then |r.items| else r.index - 1
  }

  function InsertEnd<T>(r: Ring<T>, x: T): (r': Ring<T>)
    requires IndexOk(r)
    ensures IndexOk(r')
  {
    InsertAt(r, x, EndPos(r))
  }

  function InsertAt<T>(r: Ring<T>, x: T, pos: nat): (r': Ring<T>)
    requires IndexOk(r) && pos <= |r.items|
    ensures IndexOk(r')
  {
    Ring(r.items[..pos] + [x] + r.items[pos..], if r.index > pos then r.index + 1 else r.index)
  }

  function RemoveAt<T>(r: Ring<T>, i: nat): (r': Ring<T>)
    requires IndexOk(r) && i < |r.items|
    ensures IndexOk(r')
  {
    Ring(r.items[..i] + r.items[i + 1..], if r.index > i then r.index - 1 else r.index)
  }

  /** listGET_OWNER_OF_NEXT_ENTRY: advance, stepping over the end marker. */
  function Advance<T>(r: Ring<T>): (r': Ring<T>)
    requires IndexOk(r) && r.items != []
    ensures IndexOk(r') && r'.index > 0
  {
    r.(index := if r.index < |r.items| then r.index + 1 else 1)
  }

  function Selected<T>(r: Ring<T>): T
    requires IndexOk(r) && r.index > 0
  {
    r.items[r.index - 1]
  }

  /** Where vListInsert links a new member of value `v`: behind every value up to `v`. */
  function SortedPos(values: seq<nat>, v: nat): (p: nat)
    ensures p <= |values|
    ensures forall i :: 0 <= i < p ==> values[i] <= v
    ensures p < |values| ==> values[p] > v
  {
    if values == [] || values[0] > v then 0 else 1 + SortedPos(values[1..], v)
  }

  lemma SortedPosAtEnd(values: seq<nat>, v: nat)
    requires forall i :: 0 <= i < |values| ==> values[i] <= v
    ensures SortedPos(values, v) == |values|
  {
  }

  predicate Sorted(values: seq<nat>) {
    forall i, j :: 0 <= i < j < |values| ==> values[i] <= values[j]
  }

  /** The sorted insertion keeps the list sorted and is stable: every value equal to the
      new one stays in front of it. */
  lemma SortedInsert(values: seq<nat>, v: nat)
    requires Sorted(values)
    ensures var p := SortedPos(values, v);
            && Sorted(values[..p] + [v] + values[p..])
            && forall i :: 0 <= i < |values| && values[i] <= v ==> i < p
  {
  }

  lemma RemoveUndoesInsert<T>(r: Ring<T>, x: T, pos: nat)
    requires IndexOk(r) && pos <= |r.items|
    ensures RemoveAt(InsertAt(r, x, pos), pos) == r
  {
    var s := r.items[..pos] + [x] + r.items[pos..];
    assert s[..pos] == r.items[..pos] && s[pos + 1..] == r.items[pos..];
    assert r.items == r.items[..pos] + r.items[pos..];
  }

  /** The members picked by `n` successive advances. */
  function Turns<T>(r: Ring<T>, n: nat): (s: seq<T>)
    requires IndexOk(r) && r.items != []
    ensures |s| == n
    decreases n
  {
    if n == 0 then [] else [Selected(Advance(r))] + Turns(Advance(r), n - 1)
  }

  /** The place in `items` that the next advance picks. */
  function NextUp<T>(r: Ring<T>): (s: nat)
    requires IndexOk(r) && r.items != []
    ensures s < |r.items|
  {
    if r.index == |r.items| then 0 else r.index
  }

  lemma {:induction false} TurnsWalk<T>(r: Ring<T>, n: nat)
    requires IndexOk(r) && r.items != [] && NextUp(r) + n <= |r.items|
    ensures Turns(r, n) == r.items[NextUp(r)..NextUp(r) + n]
    decreases n
  {
    if n > 1 {
      TurnsWalk(Advance(r), n - 1);
    }
  }

  function AfterTurns<T>(r: Ring<T>, n: nat): (r': Ring<T>)
    requires IndexOk(r) && r.items != []
    ensures IndexOk(r') && r'.items == r.items
    decreases n
  {
    if n == 0 then r else AfterTurns(Advance(r), n - 1)
  }

  lemma {:induction false} TurnsSplit<T>(r: Ring<T>, m: nat, n: nat)
    requires IndexOk(r) && r.items != []
    ensures Turns(r, m + n) == Turns(r, m) + Turns(AfterTurns(r, m), n)
    decreases m
  {
    if m > 0 {
      TurnsSplit(Advance(r), m - 1, n);
      assert m - 1 + n == m + n - 1;
    }
  }

  lemma {:induction false} WalkToEnd<T>(r: Ring<T>, n: nat)
    requires IndexOk(r) && r.items != [] && n > 0 && NextUp(r) + n == |r.items|
    ensures AfterTurns(r, n).index == |r.items|
    decreases n
  {
    if n > 1 {
      WalkToEnd(Advance(r), n - 1);
    } else {
      assert AfterTurns(r, 1) == AfterTurns(Advance(r), 0);
    }
  }

  lemma RoundHalves<T>(r: Ring<T>, m: nat, s: nat)
    requires IndexOk(r) && r.items != [] && s == NextUp(r) && m + s == |r.items|
    ensures Turns(r, m) == r.items[s..]
    ensures Turns(AfterTurns(r, m), s) == r.items[..s]
  {
    TurnsWalk(r, m);
    WalkToEnd(r, m);
    TurnsWalk(AfterTurns(r, m), s);
  }

  lemma RoundJoined<T>(r: Ring<T>, m: nat, s: nat, n: nat)
    requires IndexOk(r) && r.items != [] && s == NextUp(r) && n == m + s == |r.items|
    ensures Turns(r, n) == r.items[s..] + r.items[..s]
  {
    TurnsSplit(r, m, s);
    RoundHalves(r, m, s);
  }

  /** One round over an unchanged list is the list rotated to start behind the index. */
  lemma OneRound<T>(r: Ring<T>)
    requires IndexOk(r) && r.items != []
    ensures Turns(r, |r.items|) == r.items[NextUp(r)..] + r.items[..NextUp(r)]
  {
    RoundJoined(r, |r.items| - NextUp(r), NextUp(r), |r.items|);
  }

  /** Hence it selects every member exactly once. */
  lemma RoundRobin<T>(r: Ring<T>)
    requires IndexOk(r) && r.items != []
    ensures multiset(Turns(r, |r.items|)) == multiset(r.items)
  {
    OneRound(r);
    assert r.items == r.items[..NextUp(r)] + r.items[NextUp(r)..];
  }

  lemma Rotate<T>(front: seq<T>, back: seq<T>, s: nat)
    requires s == if back == [] then 0 else |front|
    ensures (front + back)[s..] + (front + back)[..s] == back + front
  {
  }

  /** The indexed member with the new one linked in before it. */
  function EndPair<T>(r: Ring<T>, x: T): seq<T>
    requires IndexOk(r) && r.index > 0
  {
    r.items[..r.index - 1] + [x, r.items[r.index - 1]]
  }

  lemma InsertEndShape<T>(r: Ring<T>, x: T)
    requires IndexOk(r) && r.index > 0
    ensures InsertEnd(r, x).items == EndPair(r, x) + r.items[r.index..]
  {
  }

  lemma InsertEndRound<T>(r: Ring<T>, x: T)
    requires IndexOk(r)
    ensures var r' := InsertEnd(r, x);
            Turns(r', |r.items| + 1) == r'.items[NextUp(r')..] + r'.items[..NextUp(r')]
  {
    OneRound(InsertEnd(r, x));
  }

  /** vListInsertEnd makes the new member the last of the next round when the end marker is
      indexed. */
  lemma InsertEndServedLast<T>(r: Ring<T>, x: T)
    requires IndexOk(r) && r.index == 0
    ensures Turns(InsertEnd(r, x), |r.items| + 1) == r.items + [x]
  {
    InsertEndRound(r, x);
  }

  /** Otherwise every member except the indexed one, the one served most recently, comes
      before the new member, and the indexed one comes after it. */
  lemma InsertEndServedBeforeIndexed<T>(r: Ring<T>, x: T)
    requires IndexOk(r) && r.index > 0
    ensures Turns(InsertEnd(r, x), |r.items| + 1) == r.items[r.index..] + EndPair(r, x)
  {
    InsertEndRound(r, x);
    InsertEndShape(r, x);
    Rotate(EndPair(r, x), r.items[r.index..], NextUp(InsertEnd(r, x)));
  }

  /** Removal by member rather than by position. */
  function IndexOf<T(==)>(s: seq<T>, x: T): (i: nat)
    requires x in s
    ensures i < |s| && s[i] == x
    ensures x !in s[..i]
  {
    if s[0] == x then 0 else 1 + IndexOf(s[1..], x)
  }

  function Remove<T(==)>(r: Ring<T>, x: T): (r': Ring<T>)
    requires IndexOk(r) && x in r.items
    ensures IndexOk(r')
  {
    RemoveAt(r, IndexOf(r.items, x))
  }

  lemma InsertAtFacts<T>(r: Ring<T>, x: T, pos: nat)
    requires IndexOk(r) && pos <= |r.items|
    ensures forall y :: y in InsertAt(r, x, pos).items <==> y == x || y in r.items
    ensures NoDup(r.items) && x !in r.items ==> NoDup(InsertAt(r, x, pos).items)
    ensures multiset(InsertAt(r, x, pos).items) == multiset(r.items) + multiset{x}
  {
    assert r.items == r.items[..pos] + r.items[pos..];
  }

  lemma RemoveFacts<T>(r: Ring<T>, x: T)
    requires IndexOk(r) && x in r.items && NoDup(r.items)
    ensures forall y :: y in Remove(r, x).items <==> y != x && y in r.items
    ensures NoDup(Remove(r, x).items)
    ensures |Remove(r, x).items| == |r.items| - 1
  {
    var i := IndexOf(r.items, x);
    forall y | y in r.items && y != x
      ensures y in Remove(r, x).items
    {
      var j :| 0 <= j < |r.items| && r.items[j] == y;
      assert Remove(r, x).items[if j < i then j else j - 1] == y;
    }
  }
}
