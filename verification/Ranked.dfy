/** Lists kept sorted by (priority, seq): the wait queues and item lists with priorities. */
module RankedLists {

  datatype Ranked<T> = Ranked(priority: int, seqNo: nat, body: T)

  predicate Before<T>(a: Ranked<T>, b: Ranked<T>) {
    a.priority < b.priority || (a.priority == b.priority && a.seqNo < b.seqNo)
  }

  ghost predicate Sorted<T>(q: seq<Ranked<T>>) {
    forall i, j :: 0 <= i < j < |q| ==> Before(q[i], q[j])
  }

  /** All numbers in use are below `n`. */
  ghost predicate Below<T>(q: seq<Ranked<T>>, n: nat) {
    forall i :: 0 <= i < |q| ==> q[i].seqNo < n
  }

  /** Where the insertion loop stops: at the first element `x` must precede. */
  function Place<T>(q: seq<Ranked<T>>, x: Ranked<T>): (k: nat)
    ensures k <= |q|
    ensures forall j :: 0 <= j < k ==> !Before(x, q[j])
    ensures k < |q| ==> Before(x, q[k])
  {
    if q == [] || Before(x, q[0]) then 0 else 1 + Place(q[1..], x)
  }

  function Insert<T>(q: seq<Ranked<T>>, x: Ranked<T>): seq<Ranked<T>> {
    var k := Place(q, x);
    q[..k] + [x] + q[k..]
  }

  /** The insertion loop. */
  method InsertSorted<T>(q: seq<Ranked<T>>, x: Ranked<T>) returns (r: seq<Ranked<T>>)
    ensures r == Insert(q, x)
  {
    var cur := 0;
    while cur < |q|
      invariant 0 <= cur <= |q|
      invariant Place(q, x) == cur + Place(q[cur..], x)
    {
      var p := q[cur].priority;
      if x.priority < p { break; }
      if x.priority == p && x.seqNo < q[cur].seqNo { break; }
      cur := cur + 1;
    }
    r := q[..cur] + [x] + q[cur..];
  }

  /** A newcomer, numbered above everyone, goes behind all of its own priority or better and ahead of the
      rest. */
  lemma {:induction false} PlaceOfNewest<T>(q: seq<Ranked<T>>, x: Ranked<T>)
    requires Sorted(q) && Below(q, x.seqNo)
    ensures forall j :: 0 <= j < |q| ==> (q[j].priority <= x.priority <==> j < Place(q, x))
  {
    var k := Place(q, x);
    forall j | 0 <= j < |q| ensures q[j].priority <= x.priority <==> j < k {
      if j > k { assert Before(q[k], q[j]); }
    }
  }

  lemma InsertAt<T>(q: seq<Ranked<T>>, x: Ranked<T>, i: nat)
    requires i <= |q|
    ensures |Insert(q, x)| == |q| + 1
    ensures var k := Place(q, x); Insert(q, x)[i] == if i < k then q[i] else if i == k then x else q[i - 1]
  {
  }

  lemma InsertIsSorted<T>(q: seq<Ranked<T>>, x: Ranked<T>)
    requires Sorted(q) && Below(q, x.seqNo)
    ensures Sorted(Insert(q, x))
  {
    PlaceOfNewest(q, x);
    var r := Insert(q, x);
    forall i, j | 0 <= i < j < |r| ensures Before(r[i], r[j]) {
      InsertAt(q, x, i);
      InsertAt(q, x, j);
    }
  }

  lemma InsertKeeps<T>(q: seq<Ranked<T>>, x: Ranked<T>)
    requires Sorted(q) && Below(q, x.seqNo)
    ensures Sorted(Insert(q, x)) && Below(Insert(q, x), x.seqNo + 1) && |Insert(q, x)| == |q| + 1
    ensures multiset(Insert(q, x)) == multiset(q) + multiset{x}
  {
    InsertIsSorted(q, x);
    hide Sorted;
    var k := Place(q, x);
    assert q == q[..k] + q[k..];
    forall i | 0 <= i < |Insert(q, x)| ensures Insert(q, x)[i].seqNo < x.seqNo + 1 {
      InsertAt(q, x, i);
    }
  }

  lemma TailKeeps<T>(q: seq<Ranked<T>>, n: nat)
    requires Sorted(q) && Below(q, n) && q != []
    ensures Sorted(q[1..]) && Below(q[1..], n) && multiset(q) == multiset(q[1..]) + multiset{q[0]}
  {
    assert q == [q[0]] + q[1..];
  }
}
