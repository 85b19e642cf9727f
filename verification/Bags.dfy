/** Gathering what a list's elements contribute, in order or with multiplicity. */
module Bags {

  function Collect<T, K>(q: seq<T>, f: T -> seq<K>): seq<K> {
    if q == [] then [] else Collect(q[..|q| - 1], f) + f(q[|q| - 1])
  }

  function Tally<T, K>(q: seq<T>, f: T -> multiset<K>): multiset<K> {
    if q == [] then multiset{} else Tally(q[..|q| - 1], f) + f(q[|q| - 1])
  }

  lemma {:induction false} CollectAppend<T, K>(a: seq<T>, b: seq<T>, f: T -> seq<K>)
    ensures Collect(a + b, f) == Collect(a, f) + Collect(b, f)
  {
    if b == [] {
      assert a + b == a;
    } else {
      var init := b[..|b| - 1];
      var last := f(b[|b| - 1]);
      CollectAppend(a, init, f);
      assert (a + b)[..|a + b| - 1] == a + init;
      assert (Collect(a, f) + Collect(init, f)) + last == Collect(a, f) + (Collect(init, f) + last);
    }
  }

  lemma {:induction false} TallyAppend<T, K>(a: seq<T>, b: seq<T>, f: T -> multiset<K>)
    ensures Tally(a + b, f) == Tally(a, f) + Tally(b, f)
  {
    if b == [] {
      assert a + b == a;
    } else {
      var init := b[..|b| - 1];
      TallyAppend(a, init, f);
      assert (a + b)[..|a + b| - 1] == a + init;
    }
  }

  /** Lists of one and two. */
  lemma CollectFew<T, K>(a: T, b: T, f: T -> seq<K>)
    ensures Collect([], f) == [] && Collect([a], f) == f(a) && Collect([a, b], f) == f(a) + f(b)
  {
    assert [a][..0] == [] && [a, b][..1] == [a];
  }

  lemma TallyFew<T, K>(a: T, b: T, f: T -> multiset<K>)
    ensures Tally([], f) == multiset{} && Tally([a], f) == f(a) && Tally([a, b], f) == f(a) + f(b)
  {
    assert [a][..0] == [] && [a, b][..1] == [a];
  }

  /** The first element apart. */
  lemma CollectFirst<T, K>(q: seq<T>, f: T -> seq<K>)
    requires q != []
    ensures Collect(q, f) == f(q[0]) + Collect(q[1..], f)
  {
    assert q == [q[0]] + q[1..];
    CollectAppend([q[0]], q[1..], f);
    CollectFew(q[0], q[0], f);
  }

  lemma TallyFirst<T, K>(q: seq<T>, f: T -> multiset<K>)
    requires q != []
    ensures Tally(q, f) == f(q[0]) + Tally(q[1..], f)
  {
    assert q == [q[0]] + q[1..];
    TallyAppend([q[0]], q[1..], f);
    TallyFew(q[0], q[0], f);
  }

  /** An element put in, or taken out, anywhere. */
  lemma {:induction false} TallyInsert<T, K>(q: seq<T>, k: nat, x: T, f: T -> multiset<K>)
    requires k <= |q|
    ensures Tally(q[..k] + [x] + q[k..], f) == Tally(q, f) + f(x)
  {
    assert q == q[..k] + q[k..];
    TallyAppend(q[..k], q[k..], f);
    TallyAppend(q[..k] + [x], q[k..], f);
    TallyAppend(q[..k], [x], f);
    TallyFew(x, x, f);
  }

  lemma TallyRemove<T, K>(q: seq<T>, k: nat, f: T -> multiset<K>)
    requires k < |q|
    ensures Tally(q, f) == Tally(q[..k] + q[k + 1..], f) + f(q[k])
  {
    assert q == q[..k] + [q[k]] + q[k + 1..];
    TallyAppend(q[..k] + [q[k]], q[k + 1..], f);
    TallyAppend(q[..k], [q[k]], f);
    TallyAppend(q[..k], q[k + 1..], f);
    TallyFew(q[k], q[k], f);
  }

  /** What came in (`p`) is in stock (`s`) or gone (`d`); a step takes `x` in and lets `d'` go. */
  lemma Adds<T>(p: multiset<T>, x: multiset<T>, s: multiset<T>, d: multiset<T>, s': multiset<T>, d': multiset<T>)
    requires p == s + d && s + x == s' + d'
    ensures p + x == s' + (d + d')
  {
    forall v ensures (p + x)[v] == (s' + (d + d'))[v] {
      assert (s + x)[v] == (s' + d')[v];
    }
  }

  /** The same for lists in order: `done`, then the `queue`, then the newcomers. */
  lemma InOrder<T>(done: seq<T>, queue: seq<T>, more: seq<T>, done': seq<T>, queue': seq<T>)
    requires queue + more == done' + queue'
    ensures (done + queue) + more == (done + done') + queue'
  {
    assert (done + queue) + more == done + (queue + more);
  }
}
