/** The heap of ready items: a binary heap over a slice of item pointers that know their index. */
module TaskHeaps {
  import opened Tasks
  import LM = LeaseModel

  /** A task waiting to be claimed; a pop sets index to -1, and a push sets it to the item's place. */
  class QueueItem {
    const task: Task
    ghost const uid: nat
    var attempt: nat
    var index: int

    constructor (task: Task, ghost uid: nat)
      ensures this.task == task && this.uid == uid && attempt == 0
    {
      this.task, this.uid, this.attempt, this.index := task, uid, 0, 0;
    }

    ghost function Value(): LM.Item
      reads this`attempt
    {
      LM.Item(LM.Incarnation(uid, task), attempt)
    }
  }

  // ---------- Heap order ----------

  function Parent(j: nat): nat
    requires 0 < j
  {
    (j - 1) / 2
  }

  /** Position j does not belong before position p. */
  ghost predicate Above(mode: Mode, s: seq<QueueItem>, p: nat, j: nat)
    requires p < |s| && j < |s|
  {
    !Before(mode, s[j].task, s[p].task)
  }

  /** The first n items form a heap. */
  ghost predicate Ordered(mode: Mode, s: seq<QueueItem>, n: nat)
    requires n <= |s|
  {
    forall j: nat :: 0 < j < n ==> Above(mode, s, Parent(j), j)
  }

  /** A heap but for the item at i, which may belong further up. */
  ghost predicate OrderedAbove(mode: Mode, s: seq<QueueItem>, n: nat, i: nat)
    requires n <= |s|
  {
    forall j: nat :: 0 < j < n && j != i ==> Above(mode, s, Parent(j), j)
  }

  /** A heap but for the item at i, which may belong further down. */
  ghost predicate OrderedBelow(mode: Mode, s: seq<QueueItem>, n: nat, i: nat)
    requires n <= |s|
  {
    forall j: nat :: 0 < j < n && Parent(j) != i ==> Above(mode, s, Parent(j), j)
  }

  /** The children of i are in order with the parent of i. */
  ghost predicate Bridged(mode: Mode, s: seq<QueueItem>, n: nat, i: nat)
    requires i < n <= |s|
  {
    forall c: nat :: 0 < c < n && Parent(c) == i && 0 < i ==> Above(mode, s, Parent(i), c)
  }

  /** The root of a heap is least. */
  lemma {:induction false} RootIsLeast(mode: Mode, s: seq<QueueItem>, n: nat, k: nat)
    requires k < n <= |s| && Ordered(mode, s, n)
    ensures Above(mode, s, 0, k)
  {
    if k == 0 {
      BeforeIsStrictWeakOrder(mode, s[0].task, s[0].task, s[0].task);
    } else {
      RootIsLeast(mode, s, n, Parent(k));
      BeforeIsStrictWeakOrder(mode, s[0].task, s[Parent(k)].task, s[k].task);
    }
  }

  ghost function Swapped<T>(s: seq<T>, i: nat, j: nat): seq<T>
    requires i < |s| && j < |s|
  {
    s[i := s[j]][j := s[i]]
  }

  lemma SwappedBag<T>(s: seq<T>, i: nat, j: nat)
    requires i < |s| && j < |s|
    ensures multiset(Swapped(s, i, j)) == multiset(s)
  {
  }

  /** Swapping an item with the parent it precedes moves the flaw up one level. */
  lemma UpStep(mode: Mode, s: seq<QueueItem>, j: nat)
    requires 0 < j < |s| && OrderedAbove(mode, s, |s|, j) && Bridged(mode, s, |s|, j)
    requires Before(mode, s[j].task, s[Parent(j)].task)
    ensures var i, t := Parent(j), Swapped(s, Parent(j), j);
      OrderedAbove(mode, t, |t|, i) && Bridged(mode, t, |t|, i)
  {
    var i, t := Parent(j), Swapped(s, Parent(j), j);
    forall k: nat | 0 < k < |t| && k != i
      ensures Above(mode, t, Parent(k), k)
    {
      assert k != j ==> Above(mode, s, Parent(k), k);
      assert Parent(k) == j ==> Above(mode, s, i, k);
      BeforeIsStrictWeakOrder(mode, s[j].task, s[i].task, s[k].task);
      BeforeIsStrictWeakOrder(mode, s[i].task, s[j].task, s[k].task);
    }
    if 0 < i {
      assert Above(mode, s, Parent(i), i);
      forall c: nat | 0 < c < |t| && Parent(c) == i
        ensures Above(mode, t, Parent(i), c)
      {
        assert c != j ==> Above(mode, s, i, c);
        BeforeIsStrictWeakOrder(mode, s[Parent(i)].task, s[i].task, s[c].task);
      }
    }
  }

  /** The child of i that the other child does not precede. */
  ghost predicate FirstChild(mode: Mode, s: seq<QueueItem>, n: nat, i: nat, j: nat)
    requires n <= |s|
  {
    && 0 < j < n && Parent(j) == i
    && forall c: nat :: 0 < c < n && Parent(c) == i ==> Above(mode, s, j, c)
  }

  /** Swapping an item with its first child moves the flaw down one level. */
  lemma DownStep(mode: Mode, s: seq<QueueItem>, n: nat, i: nat, j: nat)
    requires i < n <= |s| && OrderedBelow(mode, s, n, i) && Bridged(mode, s, n, i)
    requires FirstChild(mode, s, n, i, j) && Before(mode, s[j].task, s[i].task)
    ensures var t := Swapped(s, i, j); OrderedBelow(mode, t, n, j) && Bridged(mode, t, n, j)
  {
    var t := Swapped(s, i, j);
    forall k: nat | 0 < k < n && Parent(k) != j
      ensures Above(mode, t, Parent(k), k)
    {
      BeforeIsStrictWeakOrder(mode, s[j].task, s[i].task, s[k].task);
      if Parent(k) == i {
        assert Above(mode, s, j, k);
      } else if k == i {
        assert Above(mode, s, Parent(i), j);
      } else {
        assert Above(mode, s, Parent(k), k);
      }
    }
    forall c: nat | 0 < c < n && Parent(c) == j
      ensures Above(mode, t, i, c)
    {
      assert Above(mode, s, Parent(c), c);
    }
  }

  /** The child the sift-down loop picks. */
  lemma PickedChild(mode: Mode, s: seq<QueueItem>, n: nat, i: nat, j: nat)
    requires n <= |s| && j < n
    requires
      if 2 * i + 2 < n && Before(mode, s[2 * i + 2].task, s[2 * i + 1].task) then j == 2 * i + 2 else j == 2 * i + 1
    ensures FirstChild(mode, s, n, i, j)
  {
    forall c: nat | 0 < c < n && Parent(c) == i
      ensures Above(mode, s, j, c)
    {
      BeforeIsStrictWeakOrder(mode, s[j].task, s[c].task, s[c].task);
    }
  }

  /** The sift-down loop may stop at a leaf, or at an item its first child does not precede. */
  lemma DownDone(mode: Mode, s: seq<QueueItem>, n: nat, i: nat, j: nat)
    requires i < n <= |s| && OrderedBelow(mode, s, n, i)
    requires n <= 2 * i + 1 || (FirstChild(mode, s, n, i, j) && Above(mode, s, i, j))
    ensures Ordered(mode, s, n)
  {
    forall k: nat | 0 < k < n
      ensures Above(mode, s, Parent(k), k)
    {
      if Parent(k) == i {
        assert Above(mode, s, j, k);
        BeforeIsStrictWeakOrder(mode, s[i].task, s[j].task, s[k].task);
      }
    }
  }

  lemma RootFirst(mode: Mode, s: seq<QueueItem>)
    requires s != [] && Ordered(mode, s, |s|)
    ensures forall other :: other in s ==> !Before(mode, other.task, s[0].task)
  {
    forall k: nat | k < |s|
      ensures !Before(mode, s[k].task, s[0].task)
    {
      RootIsLeast(mode, s, |s|, k);
    }
  }

  /** With root and last item swapped, all but the last form a heap except at the root. */
  lemma RootOut(mode: Mode, s: seq<QueueItem>)
    requires s != [] && Ordered(mode, s, |s|)
    ensures var n := |s| - 1; n > 0 ==>
      OrderedBelow(mode, Swapped(s, 0, n), n, 0) && Bridged(mode, Swapped(s, 0, n), n, 0)
  {
    var n := |s| - 1;
    forall j: nat | 0 < j < n && Parent(j) != 0
      ensures Above(mode, Swapped(s, 0, n), Parent(j), j)
    {
      assert Above(mode, s, Parent(j), j);
    }
  }

  lemma OrderedPrefix(mode: Mode, s: seq<QueueItem>, n: nat)
    requires n <= |s| && Ordered(mode, s, n)
    ensures Ordered(mode, s[..n], n)
  {
    forall j: nat | 0 < j < n
      ensures Above(mode, s[..n], Parent(j), j)
    {
      assert Above(mode, s, Parent(j), j);
    }
  }

  lemma LastBag<T>(s: seq<T>, x: T)
    requires s != [] && s[|s| - 1] == x
    ensures multiset(s[..|s| - 1]) == multiset(s) - multiset{x}
  {
    var rest := s[..|s| - 1];
    assert s == rest + [x];
    LM.BagRemove(multiset(rest), x);
  }

  // ---------- The heap ----------

  ghost predicate Indexed(s: seq<QueueItem>)
    reads s`index
  {
    forall i :: 0 <= i < |s| ==> s[i].index == i
  }

  class TaskHeap {
    const mode: Mode
    var items: seq<QueueItem>

    constructor (mode: Mode)
      ensures this.mode == mode && items == [] && Valid()
    {
      this.mode, this.items := mode, [];
    }

    /** Heap order, and every item knows its index. */
    ghost predicate Valid()
      reads this`items, items`index
    {
      Indexed(items) && Ordered(mode, items, |items|)
    }

    method Swap(i: nat, j: nat)
      requires i < |items| && j < |items| && Indexed(items)
      modifies this`items, {items[i], items[j]}`index
      ensures items == Swapped(old(items), i, j) && Indexed(items)
      ensures multiset(items) == multiset(old(items))
    {
      SwappedBag(items, i, j);
      items := items[i := items[j]][j := items[i]];
      items[i].index := i;
      items[j].index := j;
    }

    /** Moves the item at j up to where it belongs. */
    method Up(j0: nat)
      requires j0 < |items| && Indexed(items)
      requires OrderedAbove(mode, items, |items|, j0) && Bridged(mode, items, |items|, j0)
      modifies this`items, items`index
      ensures Valid() && multiset(items) == multiset(old(items))
    {
      var j: nat := j0;
      while 0 < j && Before(mode, items[j].task, items[Parent(j)].task)
        invariant j < |items| && Indexed(items)
        invariant OrderedAbove(mode, items, |items|, j) && Bridged(mode, items, |items|, j)
        invariant multiset(items) == multiset(old(items))
      {
        var i := Parent(j);
        assert items[i] in multiset(items) && items[j] in multiset(items);
        UpStep(mode, items, j);
        Swap(i, j);
        j := i;
      }
    }

    /** Moves the item at i0 down among the first n items to where it belongs. */
    method Down(i0: nat, n: nat)
      requires i0 < n <= |items| && Indexed(items)
      requires OrderedBelow(mode, items, n, i0) && Bridged(mode, items, n, i0)
      modifies this`items, items`index
      ensures Indexed(items) && |items| == |old(items)| && Ordered(mode, items, n)
      ensures multiset(items) == multiset(old(items))
      ensures forall k :: n <= k < |items| ==> items[k] == old(items)[k]
    {
      hide Ordered, OrderedBelow, Bridged;
      var i: nat := i0;
      while 2 * i + 1 < n
        invariant i < n <= |items| && |items| == |old(items)| && Indexed(items)
        invariant OrderedBelow(mode, items, n, i) && Bridged(mode, items, n, i)
        invariant multiset(items) == multiset(old(items))
        invariant forall k :: n <= k < |items| ==> items[k] == old(items)[k]
        decreases n - i
      {
        var j: nat := 2 * i + 1;
        if j + 1 < n && Before(mode, items[j + 1].task, items[j].task) {
          j := j + 1;
        }
        PickedChild(mode, items, n, i, j);
        if !Before(mode, items[j].task, items[i].task) {
          DownDone(mode, items, n, i, j);
          return;
        }
        DownStep(mode, items, n, i, j);
        SwapBelow(i, j, old(items));
        i := j;
      }
      DownDone(mode, items, n, i, 0);
    }

    /** Swap, for a caller that may touch the items of an earlier arrangement. */
    method SwapBelow(i: nat, j: nat, ghost was: seq<QueueItem>)
      requires i < |items| && j < |items| && Indexed(items) && multiset(items) == multiset(was)
      modifies this`items, was`index
      ensures items == Swapped(old(items), i, j) && Indexed(items)
      ensures multiset(items) == multiset(was)
    {
      assert items[i] in multiset(items) && items[j] in multiset(items);
      Swap(i, j);
    }

    /** Appends the item, at the index of the end. */
    method Append(item: QueueItem)
      requires Indexed(items) && item !in items
      modifies this`items, item`index
      ensures items == old(items) + [item] && Indexed(items)
    {
      item.index := |items|;
      items := items + [item];
    }

    /** Removes the last item and marks it as being in no heap. */
    method RemoveLast() returns (item: QueueItem)
      requires items != [] && Indexed(items)
      modifies this`items, {items[|items| - 1]}`index
      ensures items == old(items)[..|old(items)| - 1] && Indexed(items)
      ensures item == old(items)[|old(items)| - 1] && item.index == -1
    {
      var last := |items| - 1;
      item := items[last];
      item.index := -1;
      items := items[..last];
    }

    /** container/heap Push: append, then sift up. */
    method Push(item: QueueItem)
      requires Valid() && item !in items
      modifies this`items, items`index, item`index
      ensures Valid() && multiset(items) == multiset(old(items)) + multiset{item}
    {
      Append(item);
      var last := |items| - 1;
      forall j: nat | 0 < j < |items| && j != last
        ensures Above(mode, items, Parent(j), j)
      {
        assert Above(mode, old(items), Parent(j), j);
      }
      Up(last);
    }

    /** The first two steps of container/heap Pop: the root goes last, and the rest is a heap again. */
    method RootLast()
      requires Valid() && items != []
      modifies this`items, items`index
      ensures Indexed(items) && |items| == |old(items)| && Ordered(mode, items, |items| - 1)
      ensures multiset(items) == multiset(old(items)) && items[|items| - 1] == old(items)[0]
    {
      var n := |items| - 1;
      RootOut(mode, items);
      hide OrderedBelow, Bridged, Before;
      Swap(0, n);
      if 0 < n {
        Down(0, n);
      }
    }

    /** container/heap Pop: swap the root with the last item, sift it down, remove the last. */
    method Pop() returns (item: QueueItem)
      requires Valid() && items != []
      modifies this`items, items`index
      ensures Valid() && item in old(items) && item.index == -1
      ensures multiset(items) == multiset(old(items)) - multiset{item}
      ensures forall other :: other in old(items) ==> !Before(mode, other.task, item.task)
    {
      hide Ordered, Before;
      RootFirst(mode, items);
      RootLast();
      ghost var sifted := items;
      var n := |items| - 1;
      LastBag(sifted, sifted[n]);
      item := RemoveLast();
      assert items == sifted[..n];
      OrderedPrefix(mode, sifted, n);
    }
  }
}
