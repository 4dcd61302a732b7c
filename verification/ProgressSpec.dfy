/** The incrementally maintained progress of voters and learners: which value a joint quorum has
    reached. Entries above the accepted value are kept in descending order, so that an update
    only looks at the entries it passes. */
module ProgressSpec {
  import opened Ids
  import opened Quorum

  datatype IdVal<P> = IdVal(id: NodeId, val: P)

  /** Values are only ever compared; an order is given as its `<=`. */
  type Order<!P> = (P, P) -> bool

  ghost predicate TotalOrder<P(!new)>(le: Order<P>) {
    && (forall a, b :: le(a, b) || le(b, a))
    && (forall a, b :: le(a, b) && le(b, a) ==> a == b)
    && (forall a, b, c :: le(a, b) && le(b, c) ==> le(a, c))
  }

  ghost predicate Least<P(!new)>(le: Order<P>, d: P) {
    forall v :: le(d, v)
  }

  /** The first `voterCount` entries belong to voters, the others to learners. */
  datatype Progress<P> = Progress(
    quorumSet: seq<set<NodeId>>,
    entries: seq<IdVal<P>>,
    voterCount: nat,
    accepted: P)

  // ----- The operations as functions ----------------------------------------------

  /** Position of `id`, or the number of entries when it is not there. */
  function Index<P>(entries: seq<IdVal<P>>, id: NodeId): (r: nat)
    ensures r <= |entries|
    ensures r < |entries| ==> entries[r].id == id
    ensures forall k :: 0 <= k < r ==> entries[k].id != id
  {
    if |entries| == 0 || entries[0].id == id then 0 else 1 + Index(entries[1..], id)
  }

  /** `move_up`: the entry at `index` passes every smaller one in front of it. */
  function MoveUp<P>(le: Order<P>, entries: seq<IdVal<P>>, index: nat): (r: (seq<IdVal<P>>, nat))
    requires index < |entries|
    ensures |r.0| == |entries| && r.1 <= index
    decreases index
  {
    if index == 0 || le(entries[index].val, entries[index - 1].val) then (entries, index)
    else MoveUp(le, entries[index := entries[index - 1]][index - 1 := entries[index]], index - 1)
  }

  ghost function IdsOf<P>(entries: seq<IdVal<P>>): set<NodeId> {
    set e | e in entries :: e.id
  }

  /** The scan of `update_with` from position `i`: the first value above `accepted` such that the
      entries up to it are a quorum. */
  ghost function Scan<P>(le: Order<P>, q: seq<set<NodeId>>, entries: seq<IdVal<P>>, n: nat, i: nat, accepted: P): P
    requires i <= n <= |entries|
    decreases n - i
  {
    if i == n || le(entries[i].val, accepted) then accepted
    else if IsQuorum(q, IdsOf(entries[..i + 1])) then entries[i].val
    else Scan(le, q, entries, n, i + 1, accepted)
  }

  /** `update_with`, for a closure that leaves the value `v`. An unknown id changes nothing. */
  ghost function Update<P>(le: Order<P>, p: Progress<P>, id: NodeId, v: P): (r: Progress<P>)
    requires p.voterCount <= |p.entries|
    ensures r.voterCount == p.voterCount && |r.entries| == |p.entries| && r.quorumSet == p.quorumSet
  {
    var at := Index(p.entries, id);
    if at == |p.entries| then p else
    var prev := p.entries[at].val;
    var entries := p.entries[at := IdVal(id, v)];
    if at < p.voterCount && prev != v && le(prev, p.accepted) && !le(v, p.accepted) then
      var (moved, i) := MoveUp(le, entries, at);
      p.(entries := moved, accepted := Scan(le, p.quorumSet, moved, p.voterCount, i, p.accepted))
    else p.(entries := entries)
  }

  // ----- What they maintain -------------------------------------------------------

  ghost predicate Distinct<P>(entries: seq<IdVal<P>>) {
    forall i, j :: 0 <= i < j < |entries| ==> entries[i].id != entries[j].id
  }

  ghost predicate Shape<P>(p: Progress<P>) {
    p.voterCount <= |p.entries| && Distinct(p.entries)
  }

  /** Voters whose value is at least `v`. */
  ghost function Holders<P>(le: Order<P>, entries: seq<IdVal<P>>, v: P): set<NodeId> {
    set e | e in entries && le(v, e.val) :: e.id
  }

  /** A quorum of voters, and not just an empty one, has reached `v`. */
  ghost predicate Accepts<P>(le: Order<P>, p: Progress<P>, v: P)
    requires p.voterCount <= |p.entries|
  {
    var ids := Holders(le, p.entries[..p.voterCount], v);
    ids != {} && IsQuorum(p.quorumSet, ids)
  }

  /** `accepted` is the greatest value that a quorum has reached, or still the default. */
  ghost predicate Exact<P(!new)>(le: Order<P>, p: Progress<P>, d: P)
    requires p.voterCount <= |p.entries|
  {
    && (p.accepted == d || Accepts(le, p, p.accepted))
    && forall v :: Accepts(le, p, v) ==> le(v, p.accepted)
  }

  /** The voters above `accepted` come first, in descending order. */
  ghost predicate Ordered<P>(le: Order<P>, p: Progress<P>)
    requires p.voterCount <= |p.entries|
  {
    forall i, j :: 0 <= i < j < p.voterCount && !le(p.entries[j].val, p.accepted)
      ==> le(p.entries[j].val, p.entries[i].val)
  }

  /** The update that keeps the value but breaks the order: a voter already above `accepted` is
      raised past the entry in front of it. */
  ghost predicate Skips<P>(le: Order<P>, p: Progress<P>, id: NodeId, v: P)
    requires p.voterCount <= |p.entries|
  {
    var at := Index(p.entries, id);
    && 0 < at < p.voterCount
    && !le(p.entries[at].val, p.accepted)
    && !le(v, p.entries[at - 1].val)
  }

  // ----- Moving up ----------------------------------------------------------------

  function Moved<P>(entries: seq<IdVal<P>>, to: nat, at: nat): seq<IdVal<P>>
    requires to <= at < |entries|
  {
    entries[..to] + [entries[at]] + entries[to..at] + entries[at + 1..]
  }

  lemma {:induction false} MoveUpIs<P(!new)>(le: Order<P>, entries: seq<IdVal<P>>, at: nat)
    requires at < |entries|
    ensures var (r, to) := MoveUp(le, entries, at);
            && r == Moved(entries, to, at)
            && (forall k :: to <= k < at ==> !le(entries[at].val, entries[k].val))
            && (to > 0 ==> le(entries[at].val, entries[to - 1].val))
    decreases at
  {
    if at == 0 || le(entries[at].val, entries[at - 1].val) {
      assert Moved(entries, at, at) == entries;
    } else {
      var swapped := entries[at := entries[at - 1]][at - 1 := entries[at]];
      MoveUpIs(le, swapped, at - 1);
      var (r, to) := MoveUp(le, entries, at);
      MovedSwapped(entries, to, at);
      forall k | to <= k < at ensures !le(entries[at].val, entries[k].val) {
        assert k < at - 1 ==> swapped[k] == entries[k];
      }
    }
  }

  /** Swapping with the entry in front first makes no difference. */
  lemma MovedSwapped<P>(entries: seq<IdVal<P>>, to: nat, at: nat)
    requires to < at < |entries|
    ensures Moved(entries[at := entries[at - 1]][at - 1 := entries[at]], to, at - 1) == Moved(entries, to, at)
  {
    var swapped := entries[at := entries[at - 1]][at - 1 := entries[at]];
    assert swapped[..to] == entries[..to] && swapped[to..at - 1] == entries[to..at - 1];
    assert swapped[at..] == [entries[at - 1]] + entries[at + 1..];
    assert entries[to..at] == entries[to..at - 1] + [entries[at - 1]];
  }

  lemma MovedHolds<P>(entries: seq<IdVal<P>>, to: nat, at: nat, n: nat)
    requires to <= at < n <= |entries|
    ensures Moved(entries, to, at)[..n] == Moved(entries[..n], to, at)
    ensures forall e :: e in Moved(entries, to, at)[..n] <==> e in entries[..n]
    ensures Distinct(entries) ==> Distinct(Moved(entries, to, at))
  {
    var ws := entries[..n];
    assert entries[..to] == ws[..to] && entries[to..at] == ws[to..at];
    assert entries[at + 1..][..n - at - 1] == ws[at + 1..];
    assert Moved(entries, to, at)[..n] == entries[..to] + [entries[at]] + entries[to..at] + entries[at + 1..][..n - at - 1];
    assert Moved(entries, to, at)[..n] == Moved(ws, to, at);
    assert ws == ws[..to] + ws[to..at] + [ws[at]] + ws[at + 1..];
  }

  lemma SameHolders<P>(le: Order<P>, a: seq<IdVal<P>>, b: seq<IdVal<P>>, v: P)
    requires forall e :: e in a <==> e in b
    ensures Holders(le, a, v) == Holders(le, b, v)
  {
  }

  // ----- Raising one value --------------------------------------------------------

  lemma RaisedHolders<P(!new)>(le: Order<P>, ws: seq<IdVal<P>>, at: nat, v: P, x: P)
    requires TotalOrder(le) && Distinct(ws) && at < |ws| && le(ws[at].val, v)
    ensures var ws' := ws[at := IdVal(ws[at].id, v)];
            Holders(le, ws', x) == if le(x, v) then Holders(le, ws, x) + {ws[at].id} else Holders(le, ws, x)
  {
    var ws' := ws[at := IdVal(ws[at].id, v)];
    forall id | id in Holders(le, ws', x)
      ensures id in Holders(le, ws, x) || (le(x, v) && id == ws[at].id)
    {
      var k :| 0 <= k < |ws'| && ws'[k].id == id && le(x, ws'[k].val);
      assert k != at ==> ws[k] in ws;
    }
    forall id | id in Holders(le, ws, x) || (le(x, v) && id == ws[at].id)
      ensures id in Holders(le, ws', x)
    {
      if id in Holders(le, ws, x) {
        var k :| 0 <= k < |ws| && ws[k].id == id && le(x, ws[k].val);
        assert ws'[k] in ws';
      } else {
        assert ws'[at] in ws';
      }
    }
  }

  lemma HoldersShrink<P(!new)>(le: Order<P>, ws: seq<IdVal<P>>, a: P, b: P)
    requires TotalOrder(le) && le(a, b)
    ensures Holders(le, ws, b) <= Holders(le, ws, a)
  {
  }

  /** A raise only makes a quorum for values between the previous value and the new one. */
  lemma RaisedAccepts<P(!new)>(le: Order<P>, p: Progress<P>, at: nat, v: P, x: P)
    requires TotalOrder(le) && Shape(p) && at < |p.entries| && le(p.entries[at].val, v)
    ensures var p' := p.(entries := p.entries[at := IdVal(p.entries[at].id, v)]);
            && (Accepts(le, p, x) ==> Accepts(le, p', x))
            && (Accepts(le, p', x) && !Accepts(le, p, x)
                ==> at < p.voterCount && le(x, v) && !le(x, p.entries[at].val) && Accepts(le, p, p.entries[at].val))
  {
    var ws, p' := p.entries[..p.voterCount], p.(entries := p.entries[at := IdVal(p.entries[at].id, v)]);
    if at < p.voterCount {
      assert p'.entries[..p.voterCount] == ws[at := IdVal(ws[at].id, v)];
      RaisedHolders(le, ws, at, v, x);
      if Accepts(le, p, x) {
        QuorumGrows(p.quorumSet, Holders(le, ws, x), Holders(le, p'.entries[..p.voterCount], x));
      }
      if le(x, ws[at].val) {
        assert ws[at] in ws;
        assert Holders(le, p'.entries[..p.voterCount], x) == Holders(le, ws, x);
      } else if le(x, v) && Accepts(le, p', x) {
        HoldersShrink(le, ws, ws[at].val, x);
        assert ws[at] in ws;
        QuorumGrows(p.quorumSet, Holders(le, p'.entries[..p.voterCount], x), Holders(le, ws, ws[at].val));
      }
    } else {
      assert p'.entries[..p.voterCount] == ws;
    }
  }

  /** A raise that starts above `accepted`, or stays at or below it, accepts nothing new. */
  lemma NothingGained<P(!new)>(le: Order<P>, p: Progress<P>, at: nat, v: P, d: P, x: P)
    requires TotalOrder(le) && Shape(p) && Exact(le, p, d) && at < |p.entries| && le(p.entries[at].val, v)
    requires at < p.voterCount && le(p.entries[at].val, p.accepted) ==> le(v, p.accepted)
    requires Accepts(le, p.(entries := p.entries[at := IdVal(p.entries[at].id, v)]), x)
    ensures le(x, p.accepted)
  {
    RaisedAccepts(le, p, at, v, x);
  }

  /** Raised in place: the accepted value stays exact, and the order stays unless the raise skips. */
  lemma InPlace<P(!new)>(le: Order<P>, p: Progress<P>, id: NodeId, v: P, d: P)
    requires TotalOrder(le) && Shape(p) && Exact(le, p, d) && Ordered(le, p)
    requires var at := Index(p.entries, id);
             && at < |p.entries| && le(p.entries[at].val, v)
             && (at < p.voterCount && le(p.entries[at].val, p.accepted) ==> le(v, p.accepted))
    ensures var p' := p.(entries := p.entries[Index(p.entries, id) := IdVal(id, v)]);
            Exact(le, p', d) && (Ordered(le, p') <==> !Skips(le, p, id, v))
  {
    var at := Index(p.entries, id);
    var p' := p.(entries := p.entries[at := IdVal(id, v)]);
    RaisedAccepts(le, p, at, v, p.accepted);
    forall x | Accepts(le, p', x) ensures le(x, p.accepted) {
      NothingGained(le, p, at, v, d, x);
    }
    if Skips(le, p, id, v) {
      assert !le(p'.entries[at].val, p'.entries[at - 1].val);
    }
  }

  // ----- The scan -----------------------------------------------------------------

  lemma Behind<P(!new)>(le: Order<P>, p: Progress<P>, i: nat)
    requires TotalOrder(le) && Shape(p) && Ordered(le, p) && i < p.voterCount
    ensures forall k :: i < k < p.voterCount && !le(p.entries[k].val, p.accepted)
              ==> le(p.entries[k].val, p.entries[i + 1].val)
  {
  }

  lemma PrefixHolds<P(!new)>(le: Order<P>, p: Progress<P>, i: nat)
    requires TotalOrder(le) && Shape(p) && Ordered(le, p) && i < p.voterCount && !le(p.entries[i].val, p.accepted)
    ensures IdsOf(p.entries[..i + 1]) <= Holders(le, p.entries[..p.voterCount], p.entries[i].val)
    ensures (i + 1 < p.voterCount ==> !le(p.entries[i].val, p.entries[i + 1].val))
            ==> IdsOf(p.entries[..i + 1]) == Holders(le, p.entries[..p.voterCount], p.entries[i].val)
  {
    var ws, x := p.entries[..p.voterCount], p.entries[i].val;
    forall e | e in p.entries[..i + 1] ensures e in ws && le(x, e.val) {
      var k :| 0 <= k <= i && p.entries[k] == e;
      assert ws[k] == e;
    }
    if i + 1 < p.voterCount ==> !le(x, p.entries[i + 1].val) {
      Behind(le, p, i);
      forall e | e in ws && le(x, e.val) ensures e in p.entries[..i + 1] {
        var k :| 0 <= k < |ws| && ws[k] == e;
        assert p.entries[..i + 1][k] == e;
      }
    }
  }

  /** Whatever a quorum has reached above `accepted` is at most the value at `i`. */
  ghost predicate Bound<P(!new)>(le: Order<P>, p: Progress<P>, i: nat)
    requires i <= p.voterCount <= |p.entries|
  {
    forall v :: Accepts(le, p, v) ==> le(v, p.accepted) || (i < p.voterCount && le(v, p.entries[i].val))
  }

  /** The first quorum the scan meets is the greatest value accepted. */
  lemma FoundIsExact<P(!new)>(le: Order<P>, p: Progress<P>, i: nat, d: P)
    requires TotalOrder(le) && Shape(p) && Ordered(le, p) && i < p.voterCount && Bound(le, p, i)
    requires !le(p.entries[i].val, p.accepted) && IsQuorum(p.quorumSet, IdsOf(p.entries[..i + 1]))
    ensures var p' := p.(accepted := p.entries[i].val);
            Exact(le, p', d) && Ordered(le, p') && le(p.accepted, p'.accepted)
  {
    var x, p', ws := p.entries[i].val, p.(accepted := p.entries[i].val), p.entries[..p.voterCount];
    PrefixHolds(le, p, i);
    QuorumGrows(p.quorumSet, IdsOf(p.entries[..i + 1]), Holders(le, ws, x));
    assert ws[i] in ws && p.entries[i].id in Holders(le, ws, x);
    assert Accepts(le, p', x);
    forall v | Accepts(le, p', v) ensures le(v, x) {
      assert Accepts(le, p, v);
    }
  }

  lemma {:induction false} ScanIsExact<P(!new)>(le: Order<P>, p: Progress<P>, i: nat, d: P)
    requires TotalOrder(le) && Shape(p) && Ordered(le, p) && i <= p.voterCount && Bound(le, p, i)
    requires p.accepted == d || Accepts(le, p, p.accepted)
    ensures var p' := p.(accepted := Scan(le, p.quorumSet, p.entries, p.voterCount, i, p.accepted));
            Exact(le, p', d) && Ordered(le, p') && le(p.accepted, p'.accepted)
    decreases p.voterCount - i
  {
    hide Bound, Exact, Ordered, Accepts, IdsOf, IsQuorum, TotalOrder;
    if i == p.voterCount || le(p.entries[i].val, p.accepted) {
      EndIsExact(le, p, i, d);
    } else if IsQuorum(p.quorumSet, IdsOf(p.entries[..i + 1])) {
      FoundIsExact(le, p, i, d);
    } else {
      NextBound(le, p, i);
      ScanIsExact(le, p, i + 1, d);
    }
  }

  /** A scan that comes to the accepted value without a quorum leaves it. */
  lemma EndIsExact<P(!new)>(le: Order<P>, p: Progress<P>, i: nat, d: P)
    requires TotalOrder(le) && i <= p.voterCount <= |p.entries| && Bound(le, p, i)
    requires p.accepted == d || Accepts(le, p, p.accepted)
    requires i == p.voterCount || le(p.entries[i].val, p.accepted)
    ensures Exact(le, p, d) && le(p.accepted, p.accepted)
  {
  }

  /** When the entries up to `i` are no quorum, nothing above the next value is accepted. */
  lemma NextBound<P(!new)>(le: Order<P>, p: Progress<P>, i: nat)
    requires TotalOrder(le) && Shape(p) && Ordered(le, p) && i < p.voterCount && Bound(le, p, i)
    requires !le(p.entries[i].val, p.accepted) && !IsQuorum(p.quorumSet, IdsOf(p.entries[..i + 1]))
    ensures Bound(le, p, i + 1)
  {
    var ws := p.entries[..p.voterCount];
    PrefixHolds(le, p, i);
    forall v | Accepts(le, p, v) && !le(v, p.accepted)
      ensures i + 1 < p.voterCount && le(v, p.entries[i + 1].val)
    {
      if !(i + 1 < p.voterCount && le(v, p.entries[i + 1].val)) {
        HoldersInPrefix(le, p, i, v);
        QuorumGrows(p.quorumSet, Holders(le, ws, v), IdsOf(p.entries[..i + 1]));
        assert false;
      }
    }
  }

  lemma HoldersInPrefix<P(!new)>(le: Order<P>, p: Progress<P>, i: nat, v: P)
    requires TotalOrder(le) && Shape(p) && Ordered(le, p) && i < p.voterCount && !le(v, p.accepted)
    requires i + 1 < p.voterCount ==> !le(v, p.entries[i + 1].val)
    ensures Holders(le, p.entries[..p.voterCount], v) <= IdsOf(p.entries[..i + 1])
  {
    var ws := p.entries[..p.voterCount];
    Behind(le, p, i);
    forall e | e in ws && le(v, e.val) ensures e in p.entries[..i + 1] {
      var k :| 0 <= k < |ws| && ws[k] == e;
      assert p.entries[..i + 1][k] == e;
    }
  }

  // ----- One update ---------------------------------------------------------------

  /** An update whose new value is not below the previous one, as the source demands. */
  ghost predicate Raises<P>(le: Order<P>, p: Progress<P>, id: NodeId, v: P) {
    var at := Index(p.entries, id);
    at < |p.entries| ==> le(p.entries[at].val, v)
  }

  /** Where the entry at `k` was before it was moved. */
  function Origin(to: nat, at: nat, k: nat): nat
    requires to <= at
  {
    if k < to || k > at then k else if k == to then at else k - 1
  }

  lemma MovedAt<P>(entries: seq<IdVal<P>>, to: nat, at: nat, k: nat)
    requires to <= at < |entries| && k < |entries|
    ensures Moved(entries, to, at)[k] == entries[Origin(to, at, k)]
  {
  }

  lemma MovedPair<P(!new)>(le: Order<P>, p: Progress<P>, at: nat, v: P, to: nat, i: nat, j: nat)
    requires TotalOrder(le) && Shape(p) && Ordered(le, p) && i < j < p.voterCount
    requires to <= at < p.voterCount && le(p.entries[at].val, v) && !le(v, p.accepted)
    requires var raised := p.entries[at := IdVal(p.entries[at].id, v)];
             && (forall k :: to <= k < at ==> !le(v, raised[k].val))
             && (to > 0 ==> le(v, raised[to - 1].val))
             && !le(raised[Origin(to, at, j)].val, p.accepted)
    ensures var raised := p.entries[at := IdVal(p.entries[at].id, v)];
            le(raised[Origin(to, at, j)].val, raised[Origin(to, at, i)].val)
  {
    var raised := p.entries[at := IdVal(p.entries[at].id, v)];
    if j == to {
      assert le(v, raised[to - 1].val);
      assert !le(p.entries[to - 1].val, p.accepted);
    } else if i == to && j > at {
      assert le(p.entries[j].val, p.entries[at].val);
    }
  }

  lemma MovedIsOrdered<P(!new)>(le: Order<P>, p: Progress<P>, at: nat, v: P, to: nat, d: P)
    requires TotalOrder(le) && Shape(p) && Exact(le, p, d) && Ordered(le, p)
    requires to <= at < p.voterCount && le(p.entries[at].val, v) && !le(v, p.accepted)
    requires var raised := p.entries[at := IdVal(p.entries[at].id, v)];
             && (forall k :: to <= k < at ==> !le(v, raised[k].val))
             && (to > 0 ==> le(v, raised[to - 1].val))
    ensures var p' := p.(entries := Moved(p.entries[at := IdVal(p.entries[at].id, v)], to, at));
            Shape(p') && Ordered(le, p') && p'.entries[to] == IdVal(p.entries[at].id, v)
  {
    var raised := p.entries[at := IdVal(p.entries[at].id, v)];
    var p' := p.(entries := Moved(raised, to, at));
    MovedHolds(raised, to, at, p.voterCount);
    MovedAt(raised, to, at, to);
    hide Moved;
    forall i: nat, j: nat | i < j < p.voterCount && !le(p'.entries[j].val, p.accepted)
      ensures le(p'.entries[j].val, p'.entries[i].val)
    {
      MovedAt(raised, to, at, i);
      MovedAt(raised, to, at, j);
      MovedPair(le, p, at, v, to, i, j);
    }
  }

  /** Raised above `accepted`, moved into place, then scanned. */
  lemma MovedIsExact<P(!new)>(le: Order<P>, p: Progress<P>, at: nat, v: P, d: P)
    requires TotalOrder(le) && Shape(p) && Exact(le, p, d) && Ordered(le, p)
    requires at < p.voterCount && le(p.entries[at].val, v) && !le(v, p.accepted)
    ensures var (moved, to) := MoveUp(le, p.entries[at := IdVal(p.entries[at].id, v)], at);
            var p' := p.(entries := moved, accepted := Scan(le, p.quorumSet, moved, p.voterCount, to, p.accepted));
            Shape(p') && Exact(le, p', d) && Ordered(le, p') && le(p.accepted, p'.accepted)
  {
    var raised := p.entries[at := IdVal(p.entries[at].id, v)];
    var (moved, to) := MoveUp(le, raised, at);
    MoveUpIs(le, raised, at);
    MovedIsOrdered(le, p, at, v, to, d);
    MovedHolds(raised, to, at, p.voterCount);
    var p1, p2 := p.(entries := raised), p.(entries := moved);
    forall x ensures Accepts(le, p2, x) == Accepts(le, p1, x) {
      SameHolders(le, moved[..p.voterCount], raised[..p.voterCount], x);
    }
    forall x | Accepts(le, p2, x) ensures le(x, p.accepted) || le(x, v) {
      RaisedAccepts(le, p, at, v, x);
    }
    RaisedAccepts(le, p, at, v, p.accepted);
    ScanIsExact(le, p2, to, d);
  }

  /** One `update_with`: the accepted value stays exact and never goes down, and the order it relies
      on survives unless the update skips. */
  lemma UpdateKeeps<P(!new)>(le: Order<P>, p: Progress<P>, id: NodeId, v: P, d: P)
    requires TotalOrder(le) && Shape(p) && Exact(le, p, d) && Ordered(le, p) && Raises(le, p, id, v)
    ensures var p' := Update(le, p, id, v);
            && Shape(p') && Exact(le, p', d) && le(p.accepted, p'.accepted)
            && (Ordered(le, p') <==> !Skips(le, p, id, v))
  {
    var at := Index(p.entries, id);
    if at < |p.entries| {
      if at < p.voterCount && le(p.entries[at].val, p.accepted) && !le(v, p.accepted) {
        MovedIsExact(le, p, at, v, d);
      } else {
        InPlace(le, p, id, v, d);
      }
    }
  }

  // ----- Contents -----------------------------------------------------------------

  /** The value recorded for `id`. */
  function Value<P>(p: Progress<P>, id: NodeId): Option<P> {
    var at := Index(p.entries, id);
    if at < |p.entries| then Some(p.entries[at].val) else None
  }

  /** `is_voter`: `None` for an id that is not tracked. */
  function IsVoter<P>(p: Progress<P>, id: NodeId): Option<bool> {
    var at := Index(p.entries, id);
    if at < |p.entries| then Some(at < p.voterCount) else None
  }

  lemma IndexOf<P>(entries: seq<IdVal<P>>, k: nat)
    requires Distinct(entries) && k < |entries|
    ensures Index(entries, entries[k].id) == k
  {
  }

  lemma MovedContents<P>(p: Progress<P>, to: nat, at: nat, id: NodeId)
    requires Shape(p) && to <= at < p.voterCount
    ensures var p' := p.(entries := Moved(p.entries, to, at));
            Value(p', id) == Value(p, id) && IsVoter(p', id) == IsVoter(p, id)
  {
    var p' := p.(entries := Moved(p.entries, to, at));
    MovedHolds(p.entries, to, at, p.voterCount);
    var k := Index(p.entries, id);
    if k < |p.entries| {
      var f := if k < to || k > at then k else if k == at then to else k + 1;
      assert p'.entries[f] == p.entries[k];
      IndexOf(p'.entries, f);
    } else {
      forall f | 0 <= f < |p'.entries| ensures p'.entries[f].id != id {
        var g := if f < to || f > at then f else if f == to then at else f - 1;
        assert p'.entries[f] == p.entries[g];
      }
    }
  }

  lemma {:induction false} SameIndex<P>(a: seq<IdVal<P>>, b: seq<IdVal<P>>, id: NodeId)
    requires |a| == |b| && forall k :: 0 <= k < |a| ==> a[k].id == b[k].id
    ensures Index(a, id) == Index(b, id)
  {
    if |a| > 0 && a[0].id != id {
      SameIndex(a[1..], b[1..], id);
    }
  }

  lemma RaisedContents<P>(p: Progress<P>, id: NodeId, v: P, other: NodeId)
    requires Shape(p) && Index(p.entries, id) < |p.entries|
    ensures var p' := p.(entries := p.entries[Index(p.entries, id) := IdVal(id, v)]);
            && Shape(p')
            && Value(p', other) == (if other == id then Some(v) else Value(p, other))
            && IsVoter(p', other) == IsVoter(p, other)
  {
    SameIndex(p.entries, p.entries[Index(p.entries, id) := IdVal(id, v)], other);
  }

  /** An update sets the value of a tracked `id` and touches nothing else. */
  lemma UpdateContents<P(!new)>(le: Order<P>, p: Progress<P>, id: NodeId, v: P, other: NodeId)
    requires TotalOrder(le) && Shape(p)
    ensures var p' := Update(le, p, id, v);
            && Shape(p') && p'.quorumSet == p.quorumSet && p'.voterCount == p.voterCount
            && Value(p', other) == (if other == id && Value(p, id).Some? then Some(v) else Value(p, other))
            && IsVoter(p', other) == IsVoter(p, other)
  {
    hide Value, IsVoter, Scan;
    var at, p' := Index(p.entries, id), Update(le, p, id, v);
    assert Value(p, id).Some? == (at < |p.entries|) by { ValueKnown(p, id); }
    if at < |p.entries| {
      var p1 := p.(entries := p.entries[at := IdVal(id, v)]);
      RaisedContents(p, id, v, other);
      if p'.entries != p1.entries {
        var (moved, to) := MoveUp(le, p1.entries, at);
        MoveUpIs(le, p1.entries, at);
        MovedContents(p1, to, at, other);
        MovedHolds(p1.entries, to, at, p.voterCount);
        SameEntries(p', p1.(entries := moved), other);
      } else {
        SameEntries(p', p1, other);
      }
    }
  }

  lemma ValueKnown<P>(p: Progress<P>, id: NodeId)
    ensures Value(p, id).Some? == (Index(p.entries, id) < |p.entries|)
  {
  }

  lemma SameEntries<P>(p: Progress<P>, p': Progress<P>, id: NodeId)
    requires p.entries == p'.entries && p.voterCount == p'.voterCount
    ensures Value(p, id) == Value(p', id) && IsVoter(p, id) == IsVoter(p', id)
  {
  }
}
