/** The bounded drop-oldest queue of src/Queues.h that carries plain structs between the game thread and the worker. */
module Queues {
  import opened Text

  const QUEUE_MAX: nat := 500

  /** `a` is `b` with some elements left out. */
  ghost predicate Subsequence<T(!new)>(a: seq<T>, b: seq<T>) {
    if a == [] then true
    else if b == [] then false
    else
      || (a[|a| - 1] == b[|b| - 1] && Subsequence(a[..|a| - 1], b[..|b| - 1]))
      || Subsequence(a, b[..|b| - 1])
  }

  /** A list that drops its oldest element when it is full. */
  function Pushed<T>(queue: seq<T>, x: T, max: nat): (q: seq<T>)
    requires 0 < max
    ensures (|queue| <= max ==> |q| <= max) && q != [] && q[|q| - 1] == x
  {
    (if |queue| >= max then queue[1..] else queue) + [x]
  }

  /** A queue with everything that ever went through it: all pushes, and what left by a pop or by a drop. */
  datatype Queue<T> = Queue(items: seq<T>, pushes: seq<T>, taken: seq<T>, dropped: seq<T>) {

    function Push(x: T, max: nat): Queue<T> {
      if |items| >= max && items != []
      then Queue(items[1..] + [x], pushes + [x], taken, dropped + [items[0]])
      else Queue(items + [x], pushes + [x], taken, dropped)
    }

    function Pop(): Queue<T> {
      if items == [] then this else Queue(items[1..], pushes, taken + [items[0]], dropped)
    }
  }

  function Empty<T>(): Queue<T> {
    Queue([], [], [], [])
  }

  /** What has left the queue. */
  function Gone<T>(q: Queue<T>): nat {
    |q.taken| + |q.dropped|
  }

  /** The queue is the push history from the number of pops and drops on; nothing is lost or made; pops come in push order. */
  ghost predicate Balanced<T(!new)>(q: Queue<T>) {
    && Gone(q) <= |q.pushes|
    && q.items == q.pushes[Gone(q)..]
    && multiset(q.pushes) == multiset(q.items) + multiset(q.taken) + multiset(q.dropped)
    && Subsequence(q.taken, q.pushes[..Gone(q)])
  }

  /** ... and the queue keeps to its size, and drops only what does not fit beside `max` later ones. */
  ghost predicate Consistent<T(!new)>(q: Queue<T>, max: nat) {
    && Balanced(q)
    && |q.items| <= max
    && (q.dropped != [] ==> |q.dropped| + max <= |q.pushes|)
  }

  lemma SubsequenceStep<T(!new)>(a: seq<T>, b: seq<T>, x: T)
    requires Subsequence(a, b)
    ensures Subsequence(a + [x], b + [x]) && Subsequence(a, b + [x])
  {
    assert (a + [x])[..|a|] == a && (b + [x])[..|b|] == b;
  }

  /** The oldest element leaves, popped or dropped. */
  lemma FrontLeaves<T(!new)>(q: Queue<T>)
    requires q.items != [] && Gone(q) <= |q.pushes| && q.items == q.pushes[Gone(q)..]
    requires Subsequence(q.taken, q.pushes[..Gone(q)])
    ensures Gone(q) < |q.pushes| && q.items[1..] == q.pushes[Gone(q) + 1..]
    ensures multiset(q.items) == multiset{q.items[0]} + multiset(q.items[1..])
    ensures Subsequence(q.taken, q.pushes[..Gone(q) + 1])
    ensures Subsequence(q.taken + [q.items[0]], q.pushes[..Gone(q) + 1])
  {
    var x := q.items[0];
    assert q.items == [x] + q.items[1..];
    assert q.pushes[..Gone(q) + 1] == q.pushes[..Gone(q)] + [x];
    SubsequenceStep(q.taken, q.pushes[..Gone(q)], x);
  }

  lemma SnocMultiset<T>(s: seq<T>, x: T)
    ensures multiset(s + [x]) == multiset(s) + multiset{x}
  {
  }

  /** One element changes sides. */
  lemma Balance<T>(all: multiset<T>, items: multiset<T>, rest: multiset<T>, taken: multiset<T>, dropped: multiset<T>, x: T)
    requires all == items + taken + dropped && items == multiset{x} + rest
    ensures all == rest + (taken + multiset{x}) + dropped && all == rest + taken + (dropped + multiset{x})
  {
  }

  lemma TakeBalanced<T(!new)>(q: Queue<T>)
    requires Balanced(q) && q.items != []
    ensures Balanced(Queue(q.items[1..], q.pushes, q.taken + [q.items[0]], q.dropped))
  {
    hide Subsequence;
    var x := q.items[0];
    FrontLeaves(q);
    SnocMultiset(q.taken, x);
    Balance(multiset(q.pushes), multiset(q.items), multiset(q.items[1..]), multiset(q.taken), multiset(q.dropped), x);
  }

  /** A pop keeps all this and takes the oldest element. */
  lemma PopConsistent<T(!new)>(q: Queue<T>, max: nat)
    requires Consistent(q, max)
    ensures Consistent(q.Pop(), max)
    ensures q.items != [] ==> q.Pop().items == q.items[1..] && q.Pop().taken == q.taken + [q.items[0]]
  {
    if q.items != [] {
      TakeBalanced(q);
    }
  }

  lemma DropBalanced<T(!new)>(q: Queue<T>)
    requires Balanced(q) && q.items != []
    ensures Balanced(Queue(q.items[1..], q.pushes, q.taken, q.dropped + [q.items[0]]))
  {
    hide Subsequence;
    var x := q.items[0];
    FrontLeaves(q);
    SnocMultiset(q.dropped, x);
    Balance(multiset(q.pushes), multiset(q.items), multiset(q.items[1..]), multiset(q.taken), multiset(q.dropped), x);
  }

  lemma AppendBalanced<T(!new)>(q: Queue<T>, x: T)
    requires Balanced(q)
    ensures Balanced(Queue(q.items + [x], q.pushes + [x], q.taken, q.dropped))
  {
    assert (q.pushes + [x])[..Gone(q)] == q.pushes[..Gone(q)];
  }

  /** So does a push, and it drops the oldest element exactly if the queue is full. */
  lemma PushConsistent<T(!new)>(q: Queue<T>, x: T, max: nat)
    requires Consistent(q, max) && max >= 1
    ensures Consistent(q.Push(x, max), max)
    ensures |q.items| < max ==> q.Push(x, max).items == q.items + [x] && q.Push(x, max).dropped == q.dropped
    ensures |q.items| == max ==>
              q.Push(x, max).items == q.items[1..] + [x] && q.Push(x, max).dropped == q.dropped + [q.items[0]]
  {
    hide Subsequence;
    if |q.items| >= max {
      DropBalanced(q);
      AppendBalanced(Queue(q.items[1..], q.pushes, q.taken, q.dropped + [q.items[0]]), x);
    } else {
      AppendBalanced(q, x);
    }
  }

  lemma FitsItsSize<T(!new)>(q: Queue<T>, max: nat)
    requires Consistent(q, max)
    ensures |q.items| <= max
  {
  }

  /** The queue object; `history` follows what the fields went through. */
  class BoundedQueue<T(!new)> {
    const max: nat
    var items: seq<T>
    var drops: nat
    ghost var history: Queue<T>

    ghost predicate Valid()
      reads this
    {
      && max >= 1
      && items == history.items
      && drops == |history.dropped|
      && Consistent(history, max)
    }

    constructor (maxSize: nat)
      requires maxSize >= 1
      ensures Valid() && max == maxSize && history == Empty() && items == []
    {
      max := maxSize;
      items := [];
      drops := 0;
      history := Empty();
    }

    /** Drops the oldest element when full, and only then; always takes the new one. */
    method Push(x: T) returns (pushed: bool)
      requires Valid()
      modifies this
      ensures Valid() && pushed && items != [] && items[|items| - 1] == x
      ensures |old(items)| < max ==> items == old(items) + [x] && drops == old(drops)
      ensures |old(items)| == max ==> items == old(items)[1..] + [x] && drops == old(drops) + 1
      ensures history == old(history).Push(x, max)
    {
      hide Consistent, Queue.Push;
      FitsItsSize(history, max);
      PushConsistent(history, x, max);
      history := history.Push(x, max);
      if |items| >= max {
        items := items[1..];
        drops := drops + 1;
      }
      items := items + [x];
      pushed := true;
    }

    method TryPop() returns (item: Option<T>)
      requires Valid()
      modifies this
      ensures Valid()
      ensures history == old(history).Pop()
      ensures item == if old(items) == [] then None else Some(old(items)[0])
      ensures items == if old(items) == [] then [] else old(items)[1..]
      ensures drops == old(drops)
    {
      if items == [] {
        return None;
      }
      hide Consistent;
      PopConsistent(history, max);
      history := history.Pop();
      item := Some(items[0]);
      items := items[1..];
    }
  }
}
