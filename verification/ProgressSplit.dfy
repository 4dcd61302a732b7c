/** The progress of four voters or more, seen from the four in the middle that decide: what updates of them do when
    the voters before them are already far ahead. */
module ProgressSplit {
  import opened Ids
  import opened Quorum
  import opened ProgressSpec
  import opened ProgressRuns
  import opened ProgressFaults

  /** Three of the four voters `mid`, with all voters `f` before them, are just a majority. */
  ghost predicate Middle<P>(p: Progress<P>, f: seq<IdVal<P>>, mid: seq<IdVal<P>>, r: seq<IdVal<P>>) {
    && Shape(p) && OneMajority(p) && p.entries == f + mid + r && |mid| == 4
    && |f| + 4 <= p.voterCount && 2 * (|f| + 2) <= p.voterCount < 2 * (|f| + 3)
  }

  /** The scan when the first `c` of the four are above the accepted value. */
  lemma {:induction false} MiddleScan<P>(le: Order<P>, p: Progress<P>, f: seq<IdVal<P>>, mid: seq<IdVal<P>>,
                                         r: seq<IdVal<P>>, i: nat, c: nat)
    requires Middle(p, f, mid, r) && i <= c <= 3 && i <= 2
    requires (forall j :: 0 <= j < c ==> !le(mid[j].val, p.accepted)) && le(mid[c].val, p.accepted)
    ensures Scan(le, p.quorumSet, p.entries, p.voterCount, |f| + i,
        p.accepted) == if c == 3 then mid[2].val else p.accepted
    decreases c - i
  {
    hide OneMajority, Distinct, IsQuorum, IdsOf;
    assert p.entries[|f| + i] == mid[i];
    if i < c {
      PrefixIsQuorum(p, |f| + i + 1);
      if i < 2 {
        MiddleScan(le, p, f, mid, r, i + 1, c);
      }
    }
  }

  lemma MovedAround<P>(f: seq<IdVal<P>>, mid: seq<IdVal<P>>, r: seq<IdVal<P>>, to: nat, k: nat, e: IdVal<P>)
    requires to <= k < |mid|
    ensures Moved((f + mid + r)[|f| + k := e], |f| + to, |f| + k) == f + Moved(mid[k := e], to, k) + r
  {
    assert (f + mid + r)[|f| + k := e] == f + mid[k := e] + r;
  }

  /** One of the four is raised above the accepted value and moves to `to`; the third one decides once three are
      above. */
  lemma MiddleRaised<P(!new)>(le: Order<P>, p: Progress<P>, f: seq<IdVal<P>>, mid: seq<IdVal<P>>, r: seq<IdVal<P>>,
                              k: nat, to: nat, x: P, c: nat)
    requires TotalOrder(le) && Middle(p, f, mid, r) && to <= k < 4 && to <= 2 && to < c <= 3
    requires le(mid[k].val, p.accepted) && !le(x, p.accepted)
    requires (forall i :: to <= i < k ==> !le(x, mid[i].val)) && (to > 0 ==> le(x, mid[to - 1].val))
    requires forall i :: 0 <= i < |f| ==> le(x, f[i].val)
    requires var b := Moved(mid[k := IdVal(mid[k].id, x)], to, k);
             (forall j :: 0 <= j < c ==> !le(b[j].val, p.accepted)) && le(b[c].val, p.accepted)
    ensures var b := Moved(mid[k := IdVal(mid[k].id, x)], to, k);
            var p' := Update(le, p, mid[k].id, x);
            Middle(p', f, b, r) && p'.accepted == if c == 3 then b[2].val else p.accepted
  {
    hide Scan, TotalOrder, Update, Moved, OneMajority, Distinct;
    var e := IdVal(mid[k].id, x);
    var b, p' := Moved(mid[k := e], to, k), Update(le, p, mid[k].id, x);
    assert p.entries[|f| + k] == mid[k];
    forall i | |f| + to <= i < |f| + k ensures !le(x, p.entries[i].val) {
      assert p.entries[i] == mid[i - |f|];
    }
    assert to > 0 ==> p.entries[|f| + to - 1] == mid[to - 1];
    UpdateMoves(le, p, |f| + k, |f| + to, x);
    MovedAround(f, mid, r, to, k, e);
    UpdateContents(le, p, mid[k].id, x, mid[k].id);
    UpdateKeepsIds(le, p, mid[k].id, x);
    MovedHolds(mid[k := e], to, k, 4);
    var p2 := p'.(accepted := p.accepted);
    SameVoters(p', p2);
    assert Middle(p2, f, b, r);
    MiddleScan(le, p2, f, b, r, to, c);
  }

  lemma SameVoters<P>(p: Progress<P>, p': Progress<P>)
    requires Shape(p) && p' == p.(accepted := p'.accepted)
    ensures Shape(p') && OneMajority(p') == OneMajority(p)
  {
  }

  /** One of the four that is already above the accepted value is raised where it stands. */
  lemma MiddleSkips<P(!new)>(le: Order<P>, p: Progress<P>, f: seq<IdVal<P>>, mid: seq<IdVal<P>>, r: seq<IdVal<P>>,
                             k: nat, x: P)
    requires TotalOrder(le) && Middle(p, f, mid, r) && k < 4 && !le(mid[k].val, p.accepted)
    ensures var p' := Update(le, p, mid[k].id, x);
            Middle(p', f, mid[k := IdVal(mid[k].id, x)], r) && p'.accepted == p.accepted
  {
    hide TotalOrder, OneMajority, Distinct;
    assert p.entries[|f| + k] == mid[k];
    IndexOf(p.entries, |f| + k);
    UpdateContents(le, p, mid[k].id, x, mid[k].id);
    UpdateKeepsIds(le, p, mid[k].id, x);
    assert (f + mid + r)[|f| + k := IdVal(mid[k].id, x)] == f + mid[k := IdVal(mid[k].id, x)] + r;
  }

  /** One of those before the four that is already above the accepted value is raised where it stands. */
  lemma FrontSkips<P(!new)>(le: Order<P>, p: Progress<P>, f: seq<IdVal<P>>, mid: seq<IdVal<P>>, r: seq<IdVal<P>>,
                            k: nat, x: P)
    requires TotalOrder(le) && Middle(p, f, mid, r) && k < |f| && !le(f[k].val, p.accepted)
    ensures var p' := Update(le, p, f[k].id, x);
            Middle(p', f[k := IdVal(f[k].id, x)], mid, r) && p'.accepted == p.accepted
  {
    hide TotalOrder, OneMajority, Distinct;
    assert p.entries[k] == f[k];
    IndexOf(p.entries, k);
    UpdateContents(le, p, f[k].id, x, f[k].id);
    UpdateKeepsIds(le, p, f[k].id, x);
    assert (f + mid + r)[k := IdVal(f[k].id, x)] == f[k := IdVal(f[k].id, x)] + mid + r;
  }

  /** A voter that alone passes the accepted value changes nothing. */
  lemma AloneAbove<P(!new)>(le: Order<P>, p: Progress<P>, at: nat, x: P)
    requires TotalOrder(le) && Shape(p) && OneMajority(p) && at < p.voterCount && p.voterCount > 1 && !le(x, p.accepted)
    requires forall i :: 0 <= i < p.voterCount ==> le(p.entries[i].val, p.accepted)
    ensures Update(le, p, p.entries[at].id, x).accepted == p.accepted
  {
    hide OneMajority, Distinct, IsQuorum, Scan;
    var e, p' := IdVal(p.entries[at].id, x), Update(le, p, p.entries[at].id, x);
    var b := Moved(p.entries[at := e], 0, at);
    UpdateMoves(le, p, at, 0, x);
    MovedAt(p.entries[at := e], 0, at, 0);
    MovedAt(p.entries[at := e], 0, at, 1);
    UpdateContents(le, p, p.entries[at].id, x, p.entries[at].id);
    UpdateKeepsIds(le, p, p.entries[at].id, x);
    var p2 := p'.(accepted := p.accepted);
    SameVoters(p', p2);
    FirstAlone(le, p2);
  }

  lemma FirstAlone<P>(le: Order<P>, p: Progress<P>)
    requires Shape(p) && OneMajority(p) && p.voterCount > 1 && !le(p.entries[0].val, p.accepted)
    requires le(p.entries[1].val, p.accepted)
    ensures Scan(le, p.quorumSet, p.entries, p.voterCount, 0, p.accepted) == p.accepted
  {
    hide OneMajority, Distinct, IsQuorum;
    PrefixIsQuorum(p, 1);
    assert Scan(le, p.quorumSet, p.entries, p.voterCount, 1, p.accepted) == p.accepted;
  }

  // ----- The voters before the four -----------------------------------------------

  /** The first `j` voters are at `z`, and all others at the default. */
  ghost predicate Filled<P>(p: Progress<P>, all: seq<NodeId>, j: nat, z: P, d: P) {
    && Shape(p) && OneMajority(p) && |p.entries| == |all| && j <= p.voterCount && p.accepted == d
    && forall i :: 0 <= i < |all| ==> p.entries[i] == IdVal(all[i], if i < j then z else d)
  }

  lemma NewIsFilled<P(!new)>(le: Order<P>, s: set<NodeId>, learners: seq<NodeId>, z: P, d: P)
    requires TotalOrder(le) && Apart([s], learners)
    ensures Filled(New([s], learners, d), SortedIds(s) + learners, 0, z, d) && New([s], learners, d).voterCount == |s|
  {
    hide SortedIds;
    assert Union([s]) == s by {
      assert [s][0] == s;
    }
    NewIsExact(le, [s], learners, d);
  }

  lemma FillOne<P(!new)>(le: Order<P>, p: Progress<P>, all: seq<NodeId>, j: nat, z: P, d: P)
    requires TotalOrder(le) && Filled(p, all, j, z, d) && j + 1 < p.voterCount && 2 * (j + 1) <= p.voterCount
             && !le(z, d)
    ensures Filled(Update(le, p, all[j], z), all, j + 1, z, d)
  {
    hide TotalOrder, Update, OneMajority, Distinct, Scan;
    var e := IdVal(all[j], z);
    var b, p' := Moved(p.entries[j := e], j, j), Update(le, p, all[j], z);
    assert p.entries[j] == IdVal(all[j], d);
    OrderIsReflexive(le, z);
    OrderIsReflexive(le, d);
    UpdateMoves(le, p, j, j, z);
    assert b == p.entries[j := e];
    UpdateContents(le, p, all[j], z, all[j]);
    UpdateKeepsIds(le, p, all[j], z);
    var p2 := p'.(accepted := d);
    SameVoters(p', p2);
    FillScan(le, p2, all, j + 1, z, d);
  }

  lemma FillScan<P>(le: Order<P>, p: Progress<P>, all: seq<NodeId>, j: nat, z: P, d: P)
    requires Filled(p, all, j, z, d) && 0 < j < p.voterCount && 2 * j <= p.voterCount && !le(z, d) && le(d, d)
    ensures Scan(le, p.quorumSet, p.entries, p.voterCount, j - 1, d) == d
  {
    hide OneMajority, Distinct, IsQuorum;
    PrefixIsQuorum(p, j);
    assert Scan(le, p.quorumSet, p.entries, p.voterCount, j, d) == d;
  }

  /** How many voters come before the four. */
  function Before(n: nat): nat
    requires n >= 4
  {
    n / 2 - 2
  }

  lemma FilledMiddle<P>(p: Progress<P>, all: seq<NodeId>, z: P, d: P)
    requires p.voterCount >= 4 && Filled(p, all, Before(p.voterCount), z, d)
    ensures var k := Before(p.voterCount);
            && p.voterCount <= |p.entries| && k + 4 <= p.voterCount
            && Middle(p, p.entries[..k], p.entries[k..k + 4], p.entries[k + 4..])
  {
    var k := Before(p.voterCount);
    assert p.entries == p.entries[..k] + p.entries[k..k + 4] + p.entries[k + 4..];
  }
}
