/** Client responders kept in log-index order, taken out from either end. */
module ResponderQueue {

  type Item<T> = (nat, T)

  ghost predicate Ascending<T>(q: seq<Item<T>>) {
    forall i, j :: 0 <= i < j < |q| ==> q[i].0 < q[j].0
  }

  function UpTo<T>(q: seq<Item<T>>, last: nat): seq<Item<T>> {
    if |q| == 0 then [] else (if q[0].0 <= last then [q[0]] else []) + UpTo(q[1..], last)
  }

  function After<T>(q: seq<Item<T>>, last: nat): seq<Item<T>> {
    if |q| == 0 then [] else (if q[0].0 > last then [q[0]] else []) + After(q[1..], last)
  }

  /** In an ascending queue, cutting at a position separates the indices at `last`. */
  lemma {:induction false} CutIs<T>(q: seq<Item<T>>, last: nat, at: nat)
    requires Ascending(q) && at <= |q|
    requires forall k :: 0 <= k < at ==> q[k].0 <= last
    requires forall k :: at <= k < |q| ==> q[k].0 > last
    ensures UpTo(q, last) == q[..at] && After(q, last) == q[at..]
    decreases |q|
  {
    if |q| > 0 {
      var rest := q[1..];
      assert q == [q[0]] + rest;
      if at > 0 {
        CutIs(rest, last, at - 1);
        assert q[..at] == [q[0]] + rest[..at - 1] && q[at..] == rest[at - 1..];
      } else {
        CutIs(rest, last, 0);
        assert rest[0..] == rest;
      }
    }
  }

  /** The first position at which `index` could be: binary search by index. */
  method Position<T>(q: seq<Item<T>>, index: nat) returns (at: nat)
    requires Ascending(q)
    ensures at <= |q|
    ensures forall k :: 0 <= k < at ==> q[k].0 < index
    ensures forall k :: at <= k < |q| ==> q[k].0 >= index
  {
    var lo, hi := 0, |q|;
    while lo < hi
      invariant 0 <= lo <= hi <= |q|
      invariant forall k :: 0 <= k < lo ==> q[k].0 < index
      invariant forall k :: hi <= k < |q| ==> q[k].0 >= index
    {
      var mid := (lo + hi) / 2;
      if q[mid].0 < index {
        lo := mid + 1;
      } else {
        hi := mid;
      }
    }
    return lo;
  }

  class ClientResponderQueue<T> {
    var responders: seq<Item<T>>

    ghost predicate Valid()
      reads this
    {
      Ascending(responders)
    }

    constructor ()
      ensures Valid() && responders == []
    {
      responders := [];
    }

    method Push(index: nat, responder: T)
      requires Valid() && (responders != [] ==> responders[|responders| - 1].0 < index)
      modifies this
      ensures Valid() && responders == old(responders) + [(index, responder)]
    {
      responders := responders + [(index, responder)];
    }

    method Extend(more: seq<Item<T>>)
      requires Valid() && Ascending(more)
      requires responders != [] && more != [] ==> responders[|responders| - 1].0 < more[0].0
      modifies this
      ensures Valid() && responders == old(responders) + more
    {
      for i := 0 to |more|
        invariant Valid() && responders == old(responders) + more[..i]
      {
        assert more[..i + 1] == more[..i] + [more[i]];
        Push(more[i].0, more[i].1);
      }
      assert more[..|more|] == more;
    }

    /** Takes exactly the responders with an index up to `last`. */
    method DrainUpto(last: nat) returns (r: seq<Item<T>>)
      requires Valid()
      modifies this
      ensures Valid()
      ensures r == UpTo(old(responders), last) && responders == After(old(responders), last)
    {
      var at := Position(responders, last + 1);
      CutIs(responders, last, at);
      r := responders[..at];
      responders := responders[at..];
    }

    /** Takes exactly the responders with an index from `from` on. */
    method DrainFrom(from: nat) returns (r: seq<Item<T>>)
      requires Valid()
      modifies this
      ensures Valid()
      ensures from > 0 ==> responders == UpTo(old(responders), from - 1) && r == After(old(responders), from - 1)
      ensures from == 0 ==> responders == [] && r == old(responders)
    {
      var at := Position(responders, from);
      if from > 0 {
        CutIs(responders, from - 1, at);
      }
      r := responders[at..];
      responders := responders[..at];
    }
  }

  // ----- Runs ---------------------------------------------------------------------

  datatype Op<T> = Push(index: nat, responder: T) | Commit(last: nat) | Truncate(from: nat)

  /** The queue and everything that has left it, with the operation's bound. */
  datatype State<T> = State(queue: seq<Item<T>>, committed: seq<Item<T>>, dropped: seq<Item<T>>)

  function Step<T>(s: State<T>, op: Op<T>): State<T> {
    match op
    case Push(index, responder) => s.(queue := s.queue + [(index, responder)])
    case Commit(last) => s.(queue := After(s.queue, last), committed := s.committed + UpTo(s.queue, last))
    case Truncate(from) =>
      if from == 0 then s.(queue := [], dropped := s.dropped + s.queue)
      else s.(queue := UpTo(s.queue, from - 1), dropped := s.dropped + After(s.queue, from - 1))
  }

  function Run<T>(ops: seq<Op<T>>): State<T> {
    if |ops| == 0 then State([], [], []) else Step(Run(ops[..|ops| - 1]), ops[|ops| - 1])
  }

  function Pushes<T>(ops: seq<Op<T>>): seq<Item<T>> {
    if |ops| == 0 then []
    else Pushes(ops[..|ops| - 1]) + (match ops[|ops| - 1] case Push(i, r) => [(i, r)] case _ => [])
  }

  /** Every push is above what is queued at that time. */
  ghost predicate Legal<T>(ops: seq<Op<T>>) {
    |ops| > 0 ==>
      && Legal(ops[..|ops| - 1])
      && var q := Run(ops[..|ops| - 1]).queue;
         ops[|ops| - 1].Push? ==> forall k :: 0 <= k < |q| ==> q[k].0 < ops[|ops| - 1].index
  }

  /** How many entries of an ascending queue are up to `last`. */
  ghost function CutPoint<T>(q: seq<Item<T>>, last: nat): (at: nat)
    requires Ascending(q)
    ensures at <= |q|
    ensures forall k :: 0 <= k < at ==> q[k].0 <= last
    ensures forall k :: at <= k < |q| ==> q[k].0 > last
  {
    if |q| == 0 || q[|q| - 1].0 <= last then |q| else CutPoint(q[..|q| - 1], last)
  }

  /** Both parts of an ascending queue are ascending, and nothing is lost between them. */
  lemma Parts<T>(q: seq<Item<T>>, last: nat)
    requires Ascending(q)
    ensures multiset(q) == multiset(UpTo(q, last)) + multiset(After(q, last))
    ensures Ascending(UpTo(q, last)) && Ascending(After(q, last))
  {
    hide UpTo, After;
    var at := CutPoint(q, last);
    CutIs(q, last, at);
    Joined(q[..at], q[at..]);
    assert q == q[..at] + q[at..];
  }

  /** A commit takes the entries up to its bound and no others, a truncation the rest. */
  lemma {:induction false} TakenExactly<T>(q: seq<Item<T>>, last: nat, x: Item<T>)
    ensures x in UpTo(q, last) <==> x in q && x.0 <= last
    ensures x in After(q, last) <==> x in q && x.0 > last
    decreases |q|
  {
    if |q| > 0 {
      TakenExactly(q[1..], last, x);
      assert x in q <==> x == q[0] || x in q[1..];
    }
  }

  lemma Joined<T>(a: seq<T>, b: seq<T>)
    ensures multiset(a + b) == multiset(a) + multiset(b)
  {
  }

  lemma StepConserves<T>(s: State<T>, op: Op<T>)
    requires Ascending(s.queue) && (op.Push? ==> forall k :: 0 <= k < |s.queue| ==> s.queue[k].0 < op.index)
    ensures var s' := Step(s, op);
            && Ascending(s'.queue)
            && multiset(s'.queue) + multiset(s'.committed) + multiset(s'.dropped)
               == multiset(s.queue) + multiset(s.committed) + multiset(s.dropped)
                  + (match op case Push(i, r) => multiset{(i, r)} case _ => multiset{})
  {
    hide UpTo, After;
    match op {
      case Push(i, r) => Joined(s.queue, [(i, r)]);
      case Commit(last) =>
        Parts(s.queue, last);
        Joined(s.committed, UpTo(s.queue, last));
      case Truncate(from) =>
        if from > 0 {
          Parts(s.queue, from - 1);
          Joined(s.dropped, After(s.queue, from - 1));
        } else {
          Joined(s.dropped, s.queue);
        }
    }
  }

  /** `x` was taken at operation `i` by a commit that covers its index, or dropped there by a truncation that does. */
  ghost predicate LeavesAt<T>(ops: seq<Op<T>>, i: nat, x: Item<T>, taken: bool)
    requires i < |ops|
  {
    && x in Run(ops[..i]).queue
    && if taken then ops[i].Commit? && x.0 <= ops[i].last else ops[i].Truncate? && x.0 >= ops[i].from
  }

  /** A commit answers nothing above its bound, and a truncation drops nothing below its. */
  lemma {:induction false} LeavesRightly<T>(ops: seq<Op<T>>, x: Item<T>)
    ensures x in Run(ops).committed ==> exists i :: 0 <= i < |ops| && LeavesAt(ops, i, x, true)
    ensures x in Run(ops).dropped ==> exists i :: 0 <= i < |ops| && LeavesAt(ops, i, x, false)
    decreases |ops|
  {
    hide UpTo, After;
    if |ops| > 0 {
      var n := |ops| - 1;
      var init, op := ops[..n], ops[n];
      LeavesRightly(init, x);
      forall i, taken | 0 <= i < n && LeavesAt(init, i, x, taken) ensures LeavesAt(ops, i, x, taken) {
        assert init[..i] == ops[..i];
      }
      if op.Commit? {
        TakenExactly(Run(init).queue, op.last, x);
        assert x in UpTo(Run(init).queue, op.last) ==> LeavesAt(ops, n, x, true);
      } else if op.Truncate? {
        TakenExactly(Run(init).queue, if op.from > 0 then op.from - 1 else 0, x);
        assert x in Run(ops).dropped && x !in Run(init).dropped ==> LeavesAt(ops, n, x, false);
      }
    }
  }

  /** Nothing a commit covers is still queued after it, and nothing a truncation covers. */
  lemma NoneStays<T>(s: State<T>, op: Op<T>, x: Item<T>)
    requires x in Step(s, op).queue
    ensures op.Commit? ==> x in s.queue && x.0 > op.last
    ensures op.Truncate? ==> x in s.queue && x.0 < op.from
  {
    hide UpTo, After;
    match op {
      case Commit(last) => TakenExactly(s.queue, last, x);
      case Truncate(from) => TakenExactly(s.queue, if from > 0 then from - 1 else 0, x);
      case _ =>
    }
  }

  /** Over any run the queue stays in order, and every responder pushed is in it, was taken by a commit or
      was dropped by a truncation: each exactly once. */
  lemma {:induction false} Conservation<T>(ops: seq<Op<T>>)
    requires Legal(ops)
    ensures var s := Run(ops);
            && Ascending(s.queue)
            && multiset(Pushes(ops)) == multiset(s.queue) + multiset(s.committed) + multiset(s.dropped)
    decreases |ops|
  {
    if |ops| > 0 {
      var init, op := ops[..|ops| - 1], ops[|ops| - 1];
      Conservation(init);
      StepConserves(Run(init), op);
      if op.Push? {
        Joined(Pushes(init), [(op.index, op.responder)]);
      }
    }
  }
}
