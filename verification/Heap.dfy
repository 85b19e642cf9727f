/** Heap entries: the key (time, priority, seq) and the event it schedules. */
module Entries {

  datatype Entry = Entry(time: real, priority: int, seqNo: nat, event: nat)

  const URGENT := 0
  const NORMAL := 1

  /** Strict lexicographic order on (time, priority, seq); the event takes no part. */
  predicate EntryLt(a: Entry, b: Entry) {
    if a.time < b.time then true
    else if a.time > b.time then false
    else if a.priority < b.priority then true
    else if a.priority > b.priority then false
    else a.seqNo < b.seqNo
  }

  /** `a` may come out before `b`. */
  predicate Le(a: Entry, b: Entry) {
    !EntryLt(b, a)
  }

  /** A strict total order of keys: one of two different keys comes first, an earlier time before a later one,
      and at one time a smaller priority value before a larger one. */
  lemma KeyOrder(a: Entry, b: Entry, c: Entry)
    ensures !EntryLt(a, a) && (EntryLt(a, b) && EntryLt(b, c) ==> EntryLt(a, c))
    ensures EntryLt(a, b) || EntryLt(b, a) <==> (a.time, a.priority, a.seqNo) != (b.time, b.priority, b.seqNo)
    ensures a.time < b.time ==> EntryLt(a, b)
    ensures a.time == b.time && a.priority < b.priority ==> EntryLt(a, b)
    ensures a.time == b.time && a.priority == b.priority && a.seqNo < b.seqNo ==> EntryLt(a, b)
  {
  }

  ghost predicate Sorted(s: seq<Entry>) {
    forall i, j :: 0 <= i < j < |s| ==> Le(s[i], s[j])
  }

  /** `x` is one of `q`'s entries and nothing in `q` comes before it. */
  ghost predicate IsLeast(x: Entry, q: multiset<Entry>) {
    x in q && forall y :: y in q ==> Le(x, y)
  }
}

/** The flat-array binary min-heap. Indices count from 0; the parent of i is (i - 1) / 2. */
module EventHeap {
  import opened Entries

  function Parent(i: nat): (p: nat)
    requires i > 0
    ensures p < i
  {
    (i - 1) / 2
  }

  function Swapped(s: seq<Entry>, i: nat, j: nat): (r: seq<Entry>)
    requires i < |s| && j < |s|
  {
    s[i := s[j]][j := s[i]]
  }

  lemma SwapKeepsMultiset(s: seq<Entry>, i: nat, j: nat)
    requires i < |s| && j < |s|
    ensures multiset(Swapped(s, i, j)) == multiset(s)
  {
    var t := s[i := s[j]];
    assert multiset(t) == multiset(s) - multiset{s[i]} + multiset{s[j]};
    assert multiset(t[j := s[i]]) == multiset(t) - multiset{t[j]} + multiset{s[i]};
  }

  /** Every node but the root is no smaller than its parent. */
  ghost predicate Ordered(s: seq<Entry>) {
    forall k :: 0 < k < |s| ==> Le(s[Parent(k)], s[k])
  }

  /** Heap order, except that node `i` may be smaller than its parent. */
  ghost predicate OrderedButUp(s: seq<Entry>, i: nat) {
    && i < |s|
    && (forall k :: 0 < k < |s| && k != i ==> Le(s[Parent(k)], s[k]))
    && (i > 0 ==> forall k :: 0 < k < |s| && Parent(k) == i ==> Le(s[Parent(i)], s[k]))
  }

  /** Heap order, except that node `i` may be larger than its children. */
  ghost predicate OrderedButDown(s: seq<Entry>, i: nat) {
    && i < |s|
    && (forall k :: 0 < k < |s| && Parent(k) != i ==> Le(s[Parent(k)], s[k]))
    && (i > 0 ==> forall k :: 0 < k < |s| && Parent(k) == i ==> Le(s[Parent(i)], s[k]))
  }

  lemma AppendIsButUp(s: seq<Entry>, e: Entry)
    requires Ordered(s)
    ensures OrderedButUp(s + [e], |s|)
  {
    var t := s + [e];
    forall k | 0 < k < |t| && k != |s| ensures Le(t[Parent(k)], t[k]) {
      assert t[k] == s[k] && t[Parent(k)] == s[Parent(k)];
    }
  }

  lemma SwapUp(s: seq<Entry>, i: nat)
    requires OrderedButUp(s, i) && i > 0 && EntryLt(s[i], s[Parent(i)])
    ensures OrderedButUp(Swapped(s, i, Parent(i)), Parent(i))
  {
    var p := Parent(i);
    var t := Swapped(s, i, p);
    forall k | 0 < k < |t| && k != p ensures Le(t[Parent(k)], t[k]) {
      if k != i {
        assert t[k] == s[k];
        assert Le(s[Parent(k)], s[k]);
      }
    }
    if p > 0 {
      forall k | 0 < k < |t| && Parent(k) == p ensures Le(t[Parent(p)], t[k]) {
        assert Le(s[Parent(p)], s[p]);
        if k != i { assert Le(s[p], s[k]); }
      }
    }
  }

  /** The sift-up loop may stop at the root, or at a node no smaller than its parent. */
  lemma ButUpIsOrdered(s: seq<Entry>, i: nat)
    requires OrderedButUp(s, i) && (i == 0 || Le(s[Parent(i)], s[i]))
    ensures Ordered(s)
  {
  }

  lemma SwapDown(s: seq<Entry>, i: nat, c: nat)
    requires OrderedButDown(s, i) && 0 < c < |s| && Parent(c) == i && EntryLt(s[c], s[i])
    requires forall k :: 0 < k < |s| && Parent(k) == i ==> Le(s[c], s[k])
    ensures OrderedButDown(Swapped(s, i, c), c)
  {
    var t := Swapped(s, i, c);
    forall k | 0 < k < |t| && Parent(k) != c ensures Le(t[Parent(k)], t[k]) {
      if k == c {
      } else if Parent(k) == i {
        assert t[k] == s[k];
      } else if k == i {
        assert Le(s[Parent(i)], s[c]);
      } else {
        assert Le(s[Parent(k)], s[k]);
      }
    }
    forall k | 0 < k < |t| && Parent(k) == c ensures Le(t[Parent(c)], t[k]) {
      assert Le(s[Parent(k)], s[k]);
    }
  }

  /** The smallest of node `i` and its children, as the sift-down loop picks it. */
  function BestOf(s: seq<Entry>, i: nat): (b: nat)
    requires i < |s|
    ensures b < |s|
    ensures b == i || (b > 0 && Parent(b) == i && EntryLt(s[b], s[i]))
    ensures forall k :: 0 < k < |s| && Parent(k) == i ==> Le(s[b], s[k])
  {
    var l := 2 * i + 1;
    var r := l + 1;
    var b := if l < |s| && EntryLt(s[l], s[i]) then l else i;
    assert forall k: nat {:trigger Parent(k)} :: 0 < k && Parent(k) == i ==> k == l || k == r;
    if r < |s| && EntryLt(s[r], s[b]) then r else b
  }

  lemma BestIsRoot(s: seq<Entry>, i: nat)
    requires OrderedButDown(s, i) && BestOf(s, i) == i
    ensures Ordered(s)
  {
    forall k | 0 < k < |s| ensures Le(s[Parent(k)], s[k]) {
    }
  }

  /** In a heap-ordered array the root is least. */
  lemma {:induction false} RootIsLeast(s: seq<Entry>, k: nat)
    requires Ordered(s) && k < |s|
    ensures Le(s[0], s[k])
  {
    if k > 0 {
      RootIsLeast(s, Parent(k));
      assert Le(s[Parent(k)], s[k]);
    }
  }

  /** Replacing the root by the last entry leaves heap order everywhere below the root. */
  lemma MoveLastToRoot(s: seq<Entry>)
    requires Ordered(s) && |s| > 1
    ensures OrderedButDown(s[..|s| - 1][0 := s[|s| - 1]], 0)
    ensures multiset(s[..|s| - 1][0 := s[|s| - 1]]) == multiset(s) - multiset{s[0]}
  {
    var n := |s| - 1;
    var t := s[..n][0 := s[n]];
    forall k | 0 < k < |t| && Parent(k) != 0 ensures Le(t[Parent(k)], t[k]) {
      assert Le(s[Parent(k)], s[k]);
    }
    assert s == s[..n] + [s[n]];
    assert multiset(t) == multiset(s[..n]) - multiset{s[0]} + multiset{s[n]};
  }

  class Heap {
    var data: array<Entry>
    var len: nat

    ghost predicate Valid()
      reads this, data
    {
      len <= data.Length && Ordered(data[..len])
    }

    ghost function Contents(): multiset<Entry>
      reads this, data
      requires len <= data.Length
    {
      multiset(data[..len])
    }

    constructor ()
      ensures Valid() && fresh(data)
      ensures Contents() == multiset{}
    {
      data := new Entry[0];
      len := 0;
    }

    /** Doubles the array (32 entries the first time), keeping what it holds. */
    method Grow()
      requires len == data.Length
      modifies this`data
      ensures fresh(data) && data.Length > len
      ensures data.Length == if len == 0 then 32 else 2 * len
      ensures data[..len] == old(data[..len])
    {
      var ncap := if data.Length != 0 then data.Length * 2 else 32;
      var d := new Entry[ncap];
      var i := 0;
      while i < len
        invariant 0 <= i <= len == old(len) && data == old(data)
        invariant d[..i] == old(data[..i])
        invariant data[..len] == old(data[..len])
      {
        d[i] := data[i];
        i := i + 1;
      }
      data := d;
    }

    /** Exchanges two elements of the first `n`. */
    method Swap(i: nat, j: nat, ghost n: nat)
      requires i < n <= data.Length && j < n
      modifies data
      ensures data[..n] == Swapped(old(data[..n]), i, j)
      ensures multiset(data[..n]) == old(multiset(data[..n]))
    {
      SwapKeepsMultiset(data[..n], i, j);
      data[i], data[j] := data[j], data[i];
    }

    method SiftUp(start: nat)
      requires len < data.Length && start == len
      requires OrderedButUp(data[..len + 1], start)
      modifies data
      ensures Ordered(data[..len + 1])
      ensures multiset(data[..len + 1]) == old(multiset(data[..len + 1]))
    {
      var i: nat := start;
      ghost var n := len + 1;
      hide OrderedButUp, Ordered, Swapped;
      while i > 0
        invariant i < n
        invariant OrderedButUp(data[..n], i)
        invariant multiset(data[..n]) == old(multiset(data[..n]))
      {
        var p := (i - 1) / 2;
        ghost var s := data[..n];
        if EntryLt(data[i], data[p]) {
          SwapUp(s, i);
          Swap(i, p, n);
          i := p;
        } else {
          ButUpIsOrdered(s, i);
          break;
        }
      }
      if i == 0 { ButUpIsOrdered(data[..n], 0); }
    }

    method SiftDown()
      requires 0 < len <= data.Length
      requires OrderedButDown(data[..len], 0)
      modifies data
      ensures Ordered(data[..len])
      ensures multiset(data[..len]) == old(multiset(data[..len]))
    {
      var i: nat := 0;
      while true
        invariant i < len
        invariant OrderedButDown(data[..len], i)
        invariant multiset(data[..len]) == old(multiset(data[..len]))
        decreases len - i
      {
        ghost var s := data[..len];
        var best := Best(i);
        if best == i {
          BestIsRoot(s, i);
          break;
        }
        SwapDown(s, i, best);
        Swap(i, best, len);
        i := best;
      }
    }

    method Best(i: nat) returns (best: nat)
      requires i < len <= data.Length
      ensures best == BestOf(data[..len], i)
    {
      var l := 2 * i + 1;
      var r := l + 1;
      best := i;
      if l < len && EntryLt(data[l], data[best]) { best := l; }
      if r < len && EntryLt(data[r], data[best]) { best := r; }
    }

    method Push(e: Entry)
      requires Valid()
      modifies this, data
      ensures Valid() && (data == old(data) || fresh(data))
      ensures Contents() == old(Contents()) + multiset{e}
    {
      hide Ordered, OrderedButUp;
      PutLast(e);
      ghost var all := multiset(data[..len + 1]);
      SiftUp(len);
      assert multiset(data[..len + 1]) == all;
      len := len + 1;
    }

    /** Stores `e` after the last entry, growing the array if it is full. */
    method PutLast(e: Entry)
      requires Valid()
      modifies this`data, data
      ensures len < data.Length && (data == old(data) || fresh(data))
      ensures OrderedButUp(data[..len + 1], len)
      ensures multiset(data[..len + 1]) == old(Contents()) + multiset{e}
    {
      ghost var s := data[..len];
      AppendIsButUp(s, e);
      hide Ordered, OrderedButUp;
      if len == data.Length { Grow(); }
      data[len] := e;
      assert data[..len + 1] == s + [e];
    }

    /** Removes and returns a least entry; `ok` is false exactly when the heap is empty. */
    method Pop() returns (ok: bool, out: Entry)
      requires Valid()
      modifies this`len, data
      ensures Valid()
      ensures ok == (old(Contents()) != multiset{})
      ensures !ok ==> Contents() == old(Contents())
      ensures ok ==> IsLeast(out, old(Contents())) && Contents() == old(Contents()) - multiset{out}
    {
      out := Entry(0.0, 0, 0, 0);
      if len == 0 { return false, out; }
      LeastAtRoot();
      ok, out := true, data[0];
      RemoveRoot();
    }

    /** The tail of a pop: drops the root and restores heap order. */
    method RemoveRoot()
      requires Valid() && len > 0
      modifies this`len, data
      ensures Valid()
      ensures Contents() == old(Contents()) - multiset{old(data[0])}
    {
      ghost var s := data[..len];
      len := len - 1;
      if len > 0 {
        MoveLastToRoot(s);
        data[0] := data[len];
        assert data[..len] == s[..len][0 := s[len]];
        hide OrderedButDown, Ordered;
        SiftDown();
      } else {
        assert s == [s[0]];
      }
    }

    method Peek() returns (ok: bool, out: Entry)
      requires Valid()
      ensures ok == (Contents() != multiset{})
      ensures ok ==> IsLeast(out, Contents())
    {
      out := Entry(0.0, 0, 0, 0);
      if len == 0 { return false, out; }
      LeastAtRoot();
      ok, out := true, data[0];
      assert out in multiset(data[..len]);
    }

    lemma LeastAtRoot()
      requires Valid() && len > 0
      ensures IsLeast(data[0], Contents())
    {
      var s := data[..len];
      forall y | y in multiset(s) ensures Le(s[0], y) {
        var k :| 0 <= k < |s| && s[k] == y;
        RootIsLeast(s, k);
      }
      assert s[0] in multiset(s);
    }

    /** Popping until empty yields the entries in sorted order. */
    method Drain() returns (out: seq<Entry>)
      requires Valid()
      modifies this, data
      ensures Valid() && Contents() == multiset{}
      ensures Sorted(out) && multiset(out) == old(Contents())
    {
      out := [];
      ghost var all := Contents();
      var ok, e := Pop();
      while ok
        invariant Valid() && data == old(data)
        invariant ok ==> IsLeast(e, all - multiset(out)) && Contents() == all - multiset(out) - multiset{e}
        invariant !ok ==> multiset(out) == all && Contents() == multiset{}
        invariant DrainedSoFar(out, all)
        decreases ok, |Contents()|
      {
        ghost var rest := Contents();
        DrainStep(out, e, all);
        out := out + [e];
        ok, e := Pop();
        DrainEnd(out, all, rest);
      }
    }
  }

  /** `out` is a sorted part of `all`, and nothing left over comes before any of it. */
  ghost predicate DrainedSoFar(out: seq<Entry>, all: multiset<Entry>) {
    && multiset(out) <= all
    && Sorted(out)
    && forall x, y :: x in out && y in all - multiset(out) ==> Le(x, y)
  }

  lemma DrainStep(out: seq<Entry>, e: Entry, all: multiset<Entry>)
    requires DrainedSoFar(out, all) && IsLeast(e, all - multiset(out))
    ensures DrainedSoFar(out + [e], all)
    ensures all - multiset(out + [e]) == all - multiset(out) - multiset{e}
  {
    var next := out + [e];
    assert multiset(next) == multiset(out) + multiset{e};
    forall i, j | 0 <= i < j < |next| ensures Le(next[i], next[j]) {
      if j == |out| { assert next[i] in out; }
    }
    forall x, y | x in next && y in all - multiset(next) ensures Le(x, y) {
      assert y in all - multiset(out);
    }
  }

  lemma DrainEnd(out: seq<Entry>, all: multiset<Entry>, rest: multiset<Entry>)
    requires multiset(out) <= all && rest == all - multiset(out)
    ensures rest == multiset{} ==> multiset(out) == all
  {
    if rest == multiset{} {
      forall x ensures multiset(out)[x] == all[x] {
        assert rest[x] == 0;
      }
    }
  }
}
