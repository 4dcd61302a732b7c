/** Where the accepted value of a progress goes wrong, where it never does, and a variant without the fault. */
module ProgressFaults {
  import opened Ids
  import opened Quorum
  import opened ProgressSpec
  import opened ProgressRuns

  // ----- One majority config ------------------------------------------------------

  /** The voters of `p` are the members of its one config. */
  ghost predicate OneMajority<P>(p: Progress<P>)
    requires p.voterCount <= |p.entries|
  {
    |p.quorumSet| == 1 && IdsOf(p.entries[..p.voterCount]) == p.quorumSet[0]
  }

  lemma {:induction false} IdsSize<P>(es: seq<IdVal<P>>)
    requires Distinct(es)
    ensures |IdsOf(es)| == |es|
  {
    if |es| > 0 {
      var init, e := es[..|es| - 1], es[|es| - 1];
      IdsSize(init);
      assert IdsOf(es) == IdsOf(init) + {e.id} by {
        assert es == init + [e];
      }
      assert e.id !in IdsOf(init);
    }
  }

  lemma OneChild(q: seq<set<NodeId>>, ids: set<NodeId>)
    requires |q| == 1
    ensures IsQuorum(q, ids) <==> Majority(q[0], ids)
  {
  }

  lemma PrefixIds<P>(es: seq<IdVal<P>>, k: nat, n: nat)
    requires Distinct(es) && k <= n <= |es|
    ensures IdsOf(es[..k]) <= IdsOf(es[..n]) && |IdsOf(es[..k])| == k
  {
    IdsSize(es[..k]);
    assert forall i :: 0 <= i < k ==> es[..n][i] == es[..k][i];
  }

  /** The first `k` voters are a quorum when they are more than half of them. */
  lemma PrefixIsQuorum<P>(p: Progress<P>, k: nat)
    requires Shape(p) && OneMajority(p) && k <= p.voterCount
    ensures IsQuorum(p.quorumSet, IdsOf(p.entries[..k])) <==> 2 * k > p.voterCount
  {
    hide IdsOf, IsQuorum, Distinct;
    var ids, all := IdsOf(p.entries[..k]), IdsOf(p.entries[..p.voterCount]);
    PrefixIds(p.entries, k, p.voterCount);
    PrefixIds(p.entries, p.voterCount, p.voterCount);
    OneChild(p.quorumSet, ids);
    assert ids * all == ids;
  }

  /** Fewer than half of the voters are above the accepted value. */
  lemma AboveAreFew<P(!new)>(le: Order<P>, p: Progress<P>, d: P, i: nat)
    requires TotalOrder(le) && Shape(p) && Exact(le, p, d) && Ordered(le, p) && OneMajority(p)
    requires i < p.voterCount && !le(p.entries[i].val, p.accepted)
    ensures 2 * (i + 1) <= p.voterCount
  {
    hide Ordered, OneMajority, Distinct, IsQuorum, IdsOf, TotalOrder;
    if 2 * (i + 1) > p.voterCount {
      PrefixIsQuorum(p, i + 1);
      PrefixAccepts(le, p, i);
      assert false;
    }
  }

  lemma PrefixAccepts<P(!new)>(le: Order<P>, p: Progress<P>, i: nat)
    requires TotalOrder(le) && Shape(p) && Ordered(le, p)
    requires i < p.voterCount && !le(p.entries[i].val, p.accepted) && IsQuorum(p.quorumSet, IdsOf(p.entries[..i + 1]))
    ensures Accepts(le, p, p.entries[i].val)
  {
    hide IsQuorum, Ordered, Distinct, TotalOrder;
    var ws, x := p.entries[..p.voterCount], p.entries[i].val;
    PrefixHolds(le, p, i);
    QuorumGrows(p.quorumSet, IdsOf(p.entries[..i + 1]), Holders(le, ws, x));
    assert p.entries[..i + 1][i] == p.entries[i];
    assert p.entries[i].id in IdsOf(p.entries[..i + 1]);
  }

  /** With at most three voters no update skips. */
  lemma SmallNeverSkips<P(!new)>(le: Order<P>, p: Progress<P>, id: NodeId, v: P, d: P)
    requires TotalOrder(le) && Shape(p) && Exact(le, p, d) && Ordered(le, p) && OneMajority(p) && |p.quorumSet[0]| <= 3
    ensures !Skips(le, p, id, v)
  {
    if Skips(le, p, id, v) {
      PrefixIds(p.entries, p.voterCount, p.voterCount);
      AboveAreFew(le, p, d, Index(p.entries, id));
    }
  }

  // ----- Where more voters can skip -----------------------------------------------

  /** Only ids of `few` have left the default, and they are no majority. */
  lemma StillDefault<P(!new)>(le: Order<P>, p: Progress<P>, d: P, few: set<NodeId>)
    requires TotalOrder(le) && Least(le, d) && Shape(p) && Exact(le, p, d) && OneMajority(p)
    requires forall k :: 0 <= k < p.voterCount && p.entries[k].id !in few ==> p.entries[k].val == d
    requires 2 * |few| <= p.voterCount
    ensures p.accepted == d
  {
    if p.accepted != d {
      var ids := Holders(le, p.entries[..p.voterCount], p.accepted);
      assert le(d, p.accepted) && !le(p.accepted, d);
      assert ids <= few;
      SubsetSize(ids * p.quorumSet[0], few);
      PrefixIds(p.entries, p.voterCount, p.voterCount);
      OneChild(p.quorumSet, ids);
      assert false;
    }
  }

  lemma NewIsOneMajority<P(!new)>(le: Order<P>, s: set<NodeId>, learners: seq<NodeId>, d: P)
    requires TotalOrder(le) && Apart([s], learners)
    ensures var p := New([s], learners, d);
            && Shape(p) && Exact(le, p, d) && Ordered(le, p) && OneMajority(p) && p.quorumSet == [s] && p.voterCount == |s|
            && (forall id :: id in s ==> Value(p, id) == Some(d))
  {
    assert Union([s]) == s by {
      assert [s][0] == s;
    }
    NewIsExact(le, [s], learners, d);
  }

  /** Updates keep a progress of one majority config one. */
  lemma UpdateKeepsIds<P(!new)>(le: Order<P>, p: Progress<P>, id: NodeId, v: P)
    requires TotalOrder(le) && Shape(p) && OneMajority(p)
    ensures OneMajority(Update(le, p, id, v))
  {
    var p' := Update(le, p, id, v);
    forall x ensures x in IdsOf(p'.entries[..p.voterCount]) <==> x in IdsOf(p.entries[..p.voterCount]) {
      UpdateContents(le, p, id, v, x);
      IdOfVoter(p, x);
      IdOfVoter(p', x);
    }
  }

  lemma ValueAt<P>(p: Progress<P>, k: nat)
    requires Shape(p) && k < |p.entries|
    ensures Value(p, p.entries[k].id) == Some(p.entries[k].val)
  {
    IndexOf(p.entries, k);
  }

  /** Two voters above the default, the greater one raised last, leave the other behind it. */
  lemma SecondInFront<P(!new)>(le: Order<P>, p: Progress<P>, d: P, a: NodeId, b: NodeId, x: P, y: P, z: P)
    requires TotalOrder(le) && Least(le, d) && Shape(p) && Ordered(le, p) && p.accepted == d
    requires a != b && !le(x, d) && !le(y, x) && !le(z, y) && IsVoter(p, a) == Some(true) && IsVoter(p, b) == Some(true)
    requires forall id :: IsVoter(p, id) == Some(true) ==>
               Value(p, id) == Some(if id == a then x else if id == b then y else d)
    ensures Skips(le, p, a, z) && Raises(le, p, a, z)
  {
    var i, j := Index(p.entries, a), Index(p.entries, b);
    assert Value(p, a) == Some(x) && Value(p, b) == Some(y);
    assert p.entries[i].val == x && p.entries[j].val == y && le(d, x);
    assert !(i < j);
    ValueAt(p, i - 1);
    IndexOf(p.entries, i - 1);
    assert le(p.entries[i].val, p.entries[i - 1].val);
  }

  lemma AboveAbove<P(!new)>(le: Order<P>, d: P, x: P, y: P)
    requires TotalOrder(le) && Least(le, d) && !le(y, x)
    ensures !le(y, d)
  {
  }

  lemma ThreeUpdates<P>(le: Order<P>, p: Progress<P>, a: (NodeId, P), b: (NodeId, P), c: (NodeId, P))
    requires p.voterCount <= |p.entries|
    ensures var p1 := Update(le, p, a.0, a.1); var p2 := Update(le, p1, b.0, b.1); var us := [a, b, c];
            && (Raises(le, p, a.0, a.1) && Raises(le, p1, b.0, b.1) && Raises(le, p2, c.0, c.1) ==> Legal(le, p, us))
            && (Skips(le, p2, c.0, c.1) ==> !NeverSkips(le, p, us))
  {
    hide Update, Raises, Skips;
    var us := [a, b, c];
    assert us[..0] == [] && us[..1] == [a] && us[..2] == [a, b];
    assert [a][..0] == [] && [a, b][..1] == [a];
    assert Run(le, p, us[..1]) == Update(le, p, a.0, a.1);
    assert Run(le, p, us[..2]) == Update(le, Run(le, p, us[..1]), b.0, b.1);
    assert us[2] == c;
  }

  /** The same from the updates made so far. */
  lemma SecondRaised<P(!new)>(le: Order<P>, p: Progress<P>, s: set<NodeId>, d: P, a: NodeId, b: NodeId, x: P, y: P, z: P)
    requires TotalOrder(le) && Least(le, d) && Raised(p, s, d, map[a := x][b := y]) && Exact(le, p, d) && Ordered(le, p)
    requires a in s && b in s && a != b && |s| >= 4 && !le(x, d) && !le(y, x) && !le(z, y)
    ensures Skips(le, p, a, z) && Raises(le, p, a, z)
  {
    hide Skips, Raises, OneMajority, Exact, Ordered, TotalOrder, Least;
    VotersAre(p, s);
    assert map[a := x][b := y].Keys == {a, b};
    StillDefaultAt(le, p, s, d, map[a := x][b := y]);
    SecondInFront(le, p, d, a, b, x, y, z);
  }

  lemma NewIsRaised<P(!new)>(le: Order<P>, s: set<NodeId>, learners: seq<NodeId>, d: P)
    requires TotalOrder(le) && Apart([s], learners)
    ensures var p := New([s], learners, d); Raised(p, s, d, map[]) && Exact(le, p, d) && Ordered(le, p)
  {
    NewIsOneMajority(le, s, learners, d);
  }

  /** With four voters or more, a new progress can come to a skip in three legal updates. */
  lemma LargeCanSkip<P(!new)>(le: Order<P>, s: set<NodeId>, d: P, x: P, y: P, z: P) returns (us: seq<(NodeId, P)>)
    requires TotalOrder(le) && Least(le, d) && !le(x, d) && !le(y, x) && !le(z, y) && |s| >= 4
    ensures Legal(le, New([s], [], d), us) && !NeverSkips(le, New([s], [], d), us)
  {
    hide Update, Raised, Exact, Ordered, Legal, NeverSkips, Raises, Skips, New, TotalOrder, Least;
    var p := New([s], [], d);
    NewIsRaised(le, s, [], d);
    AboveAbove(le, d, x, y);
    var a :| a in s;
    assert s - {a} != {} by {
      assert s == {a} + (s - {a});
    }
    var b :| b in s - {a};
    var p1 := Update(le, p, a, x);
    us := [(a, x), (b, y), (a, z)];
    RaiseFromDefault(le, p, s, d, map[], a, x);
    assert map[][a := x] == map[a := x];
    RaiseFromDefault(le, p1, s, d, map[a := x], b, y);
    SecondRaised(le, Update(le, p1, b, y), s, d, a, b, x, y, z);
    ThreeUpdates(le, p, (a, x), (b, y), (a, z));
  }

  /** The voters are `s`, all at the default but those of `m`. */
  ghost predicate Raised<P>(p: Progress<P>, s: set<NodeId>, d: P, m: map<NodeId, P>) {
    Shape(p) && OneMajority(p) && p.quorumSet == [s] && p.voterCount == |s|
    && forall id :: id in s ==> Value(p, id) == Some(if id in m then m[id] else d)
  }

  lemma VotersAre<P>(p: Progress<P>, s: set<NodeId>)
    requires Shape(p) && OneMajority(p) && p.quorumSet == [s]
    ensures forall id :: IsVoter(p, id) == Some(true) <==> id in s
  {
    forall id ensures IsVoter(p, id) == Some(true) <==> id in s {
      IdOfVoter(p, id);
    }
  }

  lemma StillDefaultAt<P(!new)>(le: Order<P>, p: Progress<P>, s: set<NodeId>, d: P, m: map<NodeId, P>)
    requires TotalOrder(le) && Least(le, d) && Raised(p, s, d, m) && Exact(le, p, d) && 2 * |m.Keys| <= |s|
    ensures p.accepted == d
  {
    forall k | 0 <= k < p.voterCount && p.entries[k].id !in m.Keys ensures p.entries[k].val == d {
      ValueAt(p, k);
    }
    StillDefault(le, p, d, m.Keys);
  }

  /** A raise from the default never skips. */
  lemma RaiseFromDefault<P(!new)>(le: Order<P>, p: Progress<P>, s: set<NodeId>, d: P, m: map<NodeId, P>, a: NodeId, x: P)
    requires TotalOrder(le) && Least(le, d) && Raised(p, s, d, m) && Exact(le, p, d) && Ordered(le, p)
    requires a in s && a !in m && !le(x, d)
    ensures var p' := Update(le, p, a, x);
            && Raises(le, p, a, x) && !Skips(le, p, a, x)
            && Raised(p', s, d, m[a := x]) && Exact(le, p', d) && Ordered(le, p')
  {
    hide Update, OneMajority;
    var p' := Update(le, p, a, x);
    assert Value(p, a) == Some(d);
    UpdateKeeps(le, p, a, x, d);
    UpdateKeepsIds(le, p, a, x);
    forall id | id in s ensures Value(p', id) == Some(if id in m[a := x] then m[a := x][id] else d) {
      UpdateContents(le, p, a, x, id);
    }
  }

  /** All members of `m` have reached `x`, and they are a majority. */
  lemma MajorityReaches<P(!new)>(le: Order<P>, p: Progress<P>, s: set<NodeId>, d: P, m: map<NodeId, P>, x: P)
    requires TotalOrder(le) && Least(le, d) && Raised(p, s, d, m) && Exact(le, p, d) && !le(x, d)
    requires (forall id :: id in m ==> id in s && m[id] == x) && 2 * |m.Keys| > |s|
    ensures p.accepted == x
  {
    hide Index, OneMajority, Distinct, IsQuorum;
    var ws := p.entries[..p.voterCount];
    VotersAre(p, s);
    assert m.Keys <= Holders(le, ws, x) by {
      forall id | id in m ensures id in Holders(le, ws, x) {
        VoterEntry(le, p, id);
      }
    }
    assert m.Keys * s == m.Keys;
    OneChild(p.quorumSet, m.Keys);
    QuorumGrows(p.quorumSet, m.Keys, Holders(le, ws, x));
    assert Accepts(le, p, x);
    assert p.accepted != d;
    var id :| id in Holders(le, ws, p.accepted);
    VoterEntry(le, p, id);
    assert le(p.accepted, x);
  }

  // ----- A skip is at fault for whatever goes wrong after it -----------------------

  /** The first `k` voters behind position `at` raised to the value there. */
  function Levelled<P>(p: Progress<P>, at: nat, k: nat): (r: Progress<P>)
    requires at + k < p.voterCount <= |p.entries|
    ensures |r.entries| == |p.entries| && r.voterCount == p.voterCount && r.quorumSet == p.quorumSet
    ensures r.accepted == p.accepted
    ensures forall j :: 0 <= j < |p.entries| ==>
              r.entries[j] == if at < j <= at + k then IdVal(p.entries[j].id, p.entries[at].val) else p.entries[j]
  {
    p.(entries := seq(|p.entries|, j requires 0 <= j < |p.entries| =>
      if at < j <= at + k then IdVal(p.entries[j].id, p.entries[at].val) else p.entries[j]))
  }

  /** Raise one voter after the other from behind `at` to the value there. */
  function Levelling<P>(p: Progress<P>, at: nat, k: nat): (us: seq<(NodeId, P)>)
    requires at + k < p.voterCount <= |p.entries|
    ensures |us| == k && forall i :: 0 <= i < k ==> us[i] == (p.entries[at + 1 + i].id, p.entries[at].val)
  {
    seq(k, i requires 0 <= i < k => (p.entries[at + 1 + i].id, p.entries[at].val))
  }

  /** The state a skip leaves behind: `at` above the accepted value and above the voter in front of it. */
  ghost predicate Broken<P(!new)>(le: Order<P>, p: Progress<P>, at: nat, d: P) {
    && Shape(p) && OneMajority(p) && 0 < at < p.voterCount && Exact(le, p, d)
    && !le(p.entries[at].val, p.accepted) && !le(p.entries[at].val, p.entries[at - 1].val)
    && !le(p.entries[at - 1].val, p.accepted)
    && (forall i, j :: at < i < j < p.voterCount && !le(p.entries[j].val, p.accepted)
          ==> le(p.entries[j].val, p.entries[i].val))
    && (forall j :: at < j < p.voterCount ==> le(p.entries[j].val, p.entries[at].val))
    && (forall j :: at < j < p.voterCount && 2 * (j + 1) > p.voterCount ==> le(p.entries[j].val, p.accepted))
    && 2 * (at + 1) <= p.voterCount
  }

  lemma SkipBreaks<P(!new)>(le: Order<P>, p: Progress<P>, id: NodeId, v: P, d: P)
    requires TotalOrder(le) && Shape(p) && Exact(le, p, d) && Ordered(le, p) && OneMajority(p)
    requires Raises(le, p, id, v) && Skips(le, p, id, v)
    ensures Broken(le, Update(le, p, id, v), Index(p.entries, id), d)
  {
    var at, p' := Index(p.entries, id), Update(le, p, id, v);
    UpdateKeeps(le, p, id, v, d);
    UpdateKeepsIds(le, p, id, v);
    AboveAreFew(le, p, d, at);
    assert p' == p.(entries := p.entries[at := IdVal(id, v)]);
    forall j | at < j < p.voterCount && 2 * (j + 1) > p.voterCount ensures le(p.entries[j].val, p.accepted) {
      if !le(p.entries[j].val, p.accepted) {
        AboveAreFew(le, p, d, j);
      }
    }
  }

  /** An update of a voter that does not pass the one in front of it. */
  lemma UpdateAt<P>(le: Order<P>, p: Progress<P>, j: nat, v: P)
    requires Shape(p) && 0 < j < p.voterCount && le(v, p.entries[j - 1].val)
    ensures var es := p.entries[j := IdVal(p.entries[j].id, v)];
            Update(le, p, p.entries[j].id, v) ==
              if p.entries[j].val != v && le(p.entries[j].val, p.accepted) && !le(v, p.accepted)
              then p.(entries := es, accepted := Scan(le, p.quorumSet, es, p.voterCount, j, p.accepted))
              else p.(entries := es)
  {
    IndexOf(p.entries, j);
    MoveUpStays(le, p.entries[j := IdVal(p.entries[j].id, v)], j);
  }

  /** A scan of one voter above the accepted value, with none behind it. */
  lemma ScanOne<P>(le: Order<P>, q: seq<set<NodeId>>, es: seq<IdVal<P>>, n: nat, i: nat, acc: P)
    requires i < n <= |es| && !le(es[i].val, acc) && (i + 1 < n ==> le(es[i + 1].val, acc))
    ensures Scan(le, q, es, n, i, acc) == if IsQuorum(q, IdsOf(es[..i + 1])) then es[i].val else acc
  {
  }

  lemma LevelledOne<P>(p: Progress<P>, at: nat, k: nat)
    requires Shape(p) && at + k + 1 < p.voterCount
    ensures Shape(Levelled(p, at, k))
    ensures Levelled(p, at, k).entries[at + k + 1 := IdVal(p.entries[at + k + 1].id, p.entries[at].val)]
         == Levelled(p, at, k + 1).entries
  {
    assert forall j :: 0 <= j < |p.entries| ==> Levelled(p, at, k).entries[j].id == p.entries[j].id;
  }

  /** What `Broken` says of the voter that is levelled next. */
  lemma NextToLevel<P(!new)>(le: Order<P>, p: Progress<P>, at: nat, j: nat, d: P)
    requires TotalOrder(le) && Broken(le, p, at, d) && at < j < p.voterCount
    ensures le(p.entries[j].val, p.entries[at].val) && !le(p.entries[at].val, p.accepted)
    ensures 2 * (j + 1) > p.voterCount ==> le(p.entries[j].val, p.accepted)
    ensures le(p.entries[j].val, p.accepted) && j + 1 < p.voterCount ==> le(p.entries[j + 1].val, p.accepted)
  {
  }

  lemma OrderIsReflexive<P(!new)>(le: Order<P>, v: P)
    requires TotalOrder(le)
    ensures le(v, v)
  {
  }

  /** One more voter levelled: nothing moves, and a quorum of positions accepts the value. */
  lemma LevelOne<P(!new)>(le: Order<P>, p: Progress<P>, at: nat, k: nat, d: P)
    requires TotalOrder(le) && Broken(le, p, at, d) && at + k + 1 < p.voterCount && 2 * (at + k + 1) <= p.voterCount
    ensures var q, id, v := Levelled(p, at, k), p.entries[at + k + 1].id, p.entries[at].val;
            && Raises(le, q, id, v) && !Skips(le, q, id, v)
            && Update(le, q, id, v) ==
                 if 2 * (at + k + 2) > p.voterCount then Levelled(p, at, k + 1).(accepted := v) else Levelled(p, at, k + 1)
  {
    hide IsQuorum, IdsOf, Accepts, MoveUp, Update, Scan, Broken, Exact, OneMajority, Distinct, TotalOrder, Index;
    BrokenIsLow(le, p, at, d);
    var q, j, v := Levelled(p, at, k), at + k + 1, p.entries[at].val;
    var r := Levelled(p, at, k + 1);
    NextToLevel(le, p, at, j, d);
    OrderIsReflexive(le, v);
    LevelledOne(p, at, k);
    IndexOf(q.entries, j);
    UpdateAt(le, q, j, v);
    if le(p.entries[j].val, p.accepted) {
      ScanOne(le, p.quorumSet, r.entries, p.voterCount, j, p.accepted);
      LevelledQuorum(p, at, k + 1, j + 1);
    }
  }

  lemma MoveUpStays<P>(le: Order<P>, es: seq<IdVal<P>>, j: nat)
    requires 0 < j < |es| && le(es[j].val, es[j - 1].val)
    ensures MoveUp(le, es, j) == (es, j)
  {
  }

  lemma LevelledQuorum<P>(p: Progress<P>, at: nat, k: nat, n: nat)
    requires Shape(p) && OneMajority(p) && at + k < p.voterCount && n <= p.voterCount
    ensures IsQuorum(p.quorumSet, IdsOf(Levelled(p, at, k).entries[..n])) <==> 2 * n > p.voterCount
  {
    var r := Levelled(p, at, k);
    SameIds(r.entries, p.entries, n);
    PrefixIsQuorum(p, n);
  }

  lemma SameIds<P>(a: seq<IdVal<P>>, b: seq<IdVal<P>>, n: nat)
    requires n <= |a| == |b| && forall j :: 0 <= j < |a| ==> a[j].id == b[j].id
    ensures IdsOf(a[..n]) == IdsOf(b[..n])
  {
    forall id ensures id in IdsOf(a[..n]) <==> id in IdsOf(b[..n]) {
      if id in IdsOf(a[..n]) {
        var j :| 0 <= j < n && a[..n][j].id == id;
        assert b[..n][j].id == id;
      }
      if id in IdsOf(b[..n]) {
        var j :| 0 <= j < n && b[..n][j].id == id;
        assert a[..n][j].id == id;
      }
    }
  }

  /** Levelling up to a majority of positions is legal, skips nothing and raises the accepted value. */
  lemma {:induction false} LevelAll<P(!new)>(le: Order<P>, p: Progress<P>, at: nat, k: nat, d: P)
    requires TotalOrder(le) && Broken(le, p, at, d) && at + k < p.voterCount && 2 * (at + k) <= p.voterCount
    ensures var us := Levelling(p, at, k);
            && Legal(le, p, us) && NeverSkips(le, p, us)
            && Run(le, p, us) ==
                 if 2 * (at + k + 1) > p.voterCount then Levelled(p, at, k).(accepted := p.entries[at].val)
                 else Levelled(p, at, k)
    decreases k
  {
    hide Broken, Update, Raises, Skips, Legal, NeverSkips, Run, OneMajority, Distinct, TotalOrder;
    BrokenIsLow(le, p, at, d);
    if k == 0 {
      NoUpdates(le, p);
      assert Levelled(p, at, 0).entries == p.entries;
    } else {
      var init := Levelling(p, at, k - 1);
      assert Levelling(p, at, k) == init + [(p.entries[at + k].id, p.entries[at].val)];
      LevelAll(le, p, at, k - 1, d);
      LevelOne(le, p, at, k - 1, d);
      OneMoreUpdate(le, p, init, (p.entries[at + k].id, p.entries[at].val));
    }
  }

  lemma NoUpdates<P>(le: Order<P>, p: Progress<P>)
    requires p.voterCount <= |p.entries|
    ensures Legal(le, p, []) && NeverSkips(le, p, []) && Run(le, p, []) == p
  {
  }

  lemma OneMoreUpdate<P>(le: Order<P>, p: Progress<P>, us: seq<(NodeId, P)>, u: (NodeId, P))
    requires p.voterCount <= |p.entries|
    ensures Run(le, p, us + [u]) == Update(le, Run(le, p, us), u.0, u.1)
    ensures Legal(le, p, us) && Raises(le, Run(le, p, us), u.0, u.1) ==> Legal(le, p, us + [u])
    ensures NeverSkips(le, p, us) && !Skips(le, Run(le, p, us), u.0, u.1) ==> NeverSkips(le, p, us + [u])
  {
    hide Update, Raises, Skips;
    var more := us + [u];
    assert more[..|us|] == us;
    assert forall i :: 0 <= i < |us| ==> more[..i] == us[..i] && more[i] == us[i];
  }

  lemma BrokenIsLow<P(!new)>(le: Order<P>, p: Progress<P>, at: nat, d: P)
    requires Broken(le, p, at, d)
    ensures Shape(p) && OneMajority(p) && 0 < at && 2 * (at + 1) <= p.voterCount
  {
  }

  lemma LevelledHolds<P(!new)>(le: Order<P>, p: Progress<P>, at: nat, k: nat, d: P, j: nat)
    requires TotalOrder(le) && Broken(le, p, at, d) && at + k < p.voterCount < 2 * (at + k + 1) && j < p.voterCount
    requires le(p.entries[at].val, Levelled(p, at, k).entries[j].val)
    ensures j <= at + k && j != at - 1
  {
  }

  /** Once levelled, the value at `at` is accepted though the voter in front of it has not reached it. */
  lemma LevelledOverstates<P(!new)>(le: Order<P>, p: Progress<P>, at: nat, k: nat, d: P)
    requires TotalOrder(le) && Broken(le, p, at, d) && at + k < p.voterCount
    requires 2 * (at + k) <= p.voterCount < 2 * (at + k + 1)
    ensures !Accepts(le, Levelled(p, at, k).(accepted := p.entries[at].val), p.entries[at].val)
  {
    hide Broken, TotalOrder, IsQuorum, OneMajority, Distinct, Holders, IdsOf;
    BrokenIsLow(le, p, at, d);
    var ws := Levelled(p, at, k).entries[..p.voterCount];
    HoldersAmong(le, p, at, k, d);
    PrefixWithout(p, at + k + 1, at - 1);
    TooFew(p, Holders(le, ws, p.entries[at].val), IdsOf(p.entries[..at + k + 1]) - {p.entries[at - 1].id});
  }

  lemma PrefixWithout<P>(p: Progress<P>, k: nat, i: nat)
    requires Shape(p) && i < k <= p.voterCount
    ensures |IdsOf(p.entries[..k]) - {p.entries[i].id}| == k - 1 && |IdsOf(p.entries[..p.voterCount])| == p.voterCount
  {
    PrefixIds(p.entries, k, p.voterCount);
    PrefixIds(p.entries, p.voterCount, p.voterCount);
    assert p.entries[..k][i] == p.entries[i];
  }

  lemma TooFew<P>(p: Progress<P>, ids: set<NodeId>, low: set<NodeId>)
    requires Shape(p) && OneMajority(p) && ids <= low && 2 * |low| <= p.voterCount == |IdsOf(p.entries[..p.voterCount])|
    ensures !IsQuorum(p.quorumSet, ids)
  {
    SubsetSize(ids * p.quorumSet[0], low);
    OneChild(p.quorumSet, ids);
  }

  lemma HoldersAmong<P(!new)>(le: Order<P>, p: Progress<P>, at: nat, k: nat, d: P)
    requires TotalOrder(le) && Broken(le, p, at, d) && at + k < p.voterCount < 2 * (at + k + 1)
    ensures 0 < at && p.voterCount <= |p.entries|
    ensures Holders(le, Levelled(p, at, k).entries[..p.voterCount], p.entries[at].val)
         <= IdsOf(p.entries[..at + k + 1]) - {p.entries[at - 1].id}
  {
    hide TotalOrder, Broken, OneMajority;
    BrokenIsLow(le, p, at, d);
    var v, front, ws := p.entries[at].val, p.entries[..at + k + 1], Levelled(p, at, k).entries[..p.voterCount];
    forall e | e in ws && le(v, e.val) ensures e.id in IdsOf(front) - {p.entries[at - 1].id} {
      var j :| 0 <= j < |ws| && ws[j] == e;
      LevelledHolds(le, p, at, k, d, j);
      assert front[j].id == e.id;
    }
  }

  lemma OverstatedIsInexact<P(!new)>(le: Order<P>, p: Progress<P>, d: P)
    requires p.voterCount <= |p.entries| && !Accepts(le, p, p.accepted) && p.accepted != d
    ensures !Exact(le, p, d)
  {
  }

  /** For one majority config: an update skips if and only if some legal updates after it, none of which
      skips, make the accepted value wrong. */
  lemma SkipsDecide<P(!new)>(le: Order<P>, p: Progress<P>, id: NodeId, v: P, d: P)
    requires TotalOrder(le) && Least(le, d) && Shape(p) && Exact(le, p, d) && Ordered(le, p) && OneMajority(p)
    requires Raises(le, p, id, v)
    ensures var p' := Update(le, p, id, v);
            Skips(le, p, id, v) <==>
              exists us :: Legal(le, p', us) && NeverSkips(le, p', us) && !Exact(le, Run(le, p', us), d)
  {
    hide Update, Raises, Legal, NeverSkips, Run, Exact, Ordered, OneMajority, Skips, Levelled, Levelling;
    var p' := Update(le, p, id, v);
    if Skips(le, p, id, v) {
      var at := Index(p.entries, id);
      SkipBreaks(le, p, id, v, d);
      BrokenIsLow(le, p', at, d);
      var k := p'.voterCount / 2 - at;
      var us := Levelling(p', at, k);
      LevelAll(le, p', at, k, d);
      LevelledOverstates(le, p', at, k, d);
      assert p'.entries[at].val != d && 2 * (at + k + 1) > p'.voterCount by {
        assert Broken(le, p', at, d) && le(d, p'.accepted);
      }
      OverstatedIsInexact(le, Run(le, p', us), d);
    } else {
      UpdateKeeps(le, p, id, v, d);
      forall us | Legal(le, p', us) && NeverSkips(le, p', us) ensures Exact(le, Run(le, p', us), d) {
        RunIsExact(le, p', us, d);
      }
    }
  }

  // ----- Five voters --------------------------------------------------------------

  const FIVE: set<NodeId> := {0, 1, 2, 3, 4}

  function Five<P>(es: seq<IdVal<P>>, accepted: P): Progress<P> {
    Progress([FIVE], es, |es|, accepted)
  }

  ghost predicate FiveVoters<P>(es: seq<IdVal<P>>) {
    |es| == 5 && Distinct(es) && forall i :: 0 <= i < 5 ==> es[i].id in FIVE
  }

  lemma FiveIsOneMajority<P>(es: seq<IdVal<P>>, accepted: P)
    requires FiveVoters(es)
    ensures Shape(Five(es, accepted)) && OneMajority(Five(es, accepted))
  {
    var ids := IdsOf(es);
    IdsSize(es);
    SameSize(ids, FIVE);
    assert es[..5] == es;
  }

  lemma SameSize(a: set<NodeId>, b: set<NodeId>)
    requires a <= b && |a| == |b|
    ensures a == b
  {
    if exists x :: x in b && x !in a {
      var x :| x in b && x !in a;
      SubsetSize(a, b - {x});
    }
  }

  /** The scan of five voters of which the first `c` are above the accepted value. */
  lemma {:induction false} FiveScan<P>(le: Order<P>, es: seq<IdVal<P>>, i: nat, acc: P, c: nat)
    requires FiveVoters(es) && i <= c <= 5
    requires (forall j :: 0 <= j < c ==> !le(es[j].val, acc)) && (c < 5 ==> le(es[c].val, acc))
    ensures Scan(le, [FIVE], es, 5, i, acc) == if i < c && 3 <= c then es[if i < 2 then 2 else i].val else acc
    decreases 5 - i
  {
    if i < c {
      FiveIsOneMajority(es, acc);
      PrefixIsQuorum(Five(es, acc), i + 1);
      FiveScan(le, es, i + 1, acc, c);
    }
  }

  /** An update that moves its voter from `at` up to `to`. */
  lemma UpdateMoves<P(!new)>(le: Order<P>, p: Progress<P>, at: nat, to: nat, x: P)
    requires TotalOrder(le) && Shape(p) && to <= at < p.voterCount && le(p.entries[at].val, p.accepted) && !le(x, p.accepted)
    requires (forall i :: to <= i < at ==> !le(x, p.entries[i].val)) && (to > 0 ==> le(x, p.entries[to - 1].val))
    ensures var b := Moved(p.entries[at := IdVal(p.entries[at].id, x)], to, at);
            |b| == |p.entries| &&
            Update(le, p, p.entries[at].id, x) ==
              p.(entries := b, accepted := Scan(le, p.quorumSet, b, p.voterCount, to, p.accepted))
  {
    hide Scan, TotalOrder, MoveUp, Distinct;
    var raised := p.entries[at := IdVal(p.entries[at].id, x)];
    IndexOf(p.entries, at);
    OrderIsReflexive(le, x);
    OrderIsReflexive(le, p.entries[at].val);
    MoveUpIs(le, raised, at);
    var t := MoveUp(le, raised, at).1;
    assert to > 0 ==> le(x, raised[to - 1].val);
    assert t == to;
  }

  /** An update of a voter not above the accepted value to one that is: it moves to `to`, and the third
      voter decides once three are above. */
  lemma FiveRaised<P(!new)>(le: Order<P>, es: seq<IdVal<P>>, acc: P, k: nat, to: nat, x: P, c: nat)
    requires TotalOrder(le) && FiveVoters(es) && to <= k < 5 && to < c <= 5
    requires le(es[k].val, acc) && !le(x, acc)
    requires (forall i :: to <= i < k ==> !le(x, es[i].val)) && (to > 0 ==> le(x, es[to - 1].val))
    requires var b := Moved(es[k := IdVal(es[k].id, x)], to, k);
             (forall j :: 0 <= j < c ==> !le(b[j].val, acc)) && (c < 5 ==> le(b[c].val, acc))
    ensures var b := Moved(es[k := IdVal(es[k].id, x)], to, k);
            && FiveVoters(b)
            && Update(le, Five(es, acc), es[k].id, x) == Five(b, if 3 <= c then b[if to < 2 then 2 else to].val else acc)
  {
    hide Scan, TotalOrder, Update, Moved, Distinct;
    var raised := es[k := IdVal(es[k].id, x)];
    UpdateMoves(le, Five(es, acc), k, to, x);
    SameDistinct(es, k, x);
    MovedFive(raised, to, k);
    FiveScan(le, Moved(raised, to, k), to, acc, c);
  }

  lemma SameDistinct<P>(es: seq<IdVal<P>>, k: nat, x: P)
    requires Distinct(es) && k < |es|
    ensures Distinct(es[k := IdVal(es[k].id, x)])
  {
  }

  lemma MovedFive<P>(es: seq<IdVal<P>>, to: nat, k: nat)
    requires |es| == 5 && (forall i :: 0 <= i < 5 ==> es[i].id in FIVE) && to <= k < 5
    ensures Distinct(es) ==> FiveVoters(Moved(es, to, k))
  {
    MovedHolds(es, to, k, 5);
    forall i: nat | i < 5 ensures Moved(es, to, k)[i].id in FIVE {
      MovedAt(es, to, k, i);
    }
  }

  /** Voters 0 and 1 in the order of the fault: 0 is raised again past 1, and stays behind it. */
  function Skipped<P>(d: P, x: P, y: P): (es: seq<IdVal<P>>)
    ensures |es| == 5
  {
    [IdVal(1, y), IdVal(0, x), IdVal(2, d), IdVal(3, d), IdVal(4, d)]
  }

  function AllAt<P>(d: P): (es: seq<IdVal<P>>)
    ensures |es| == 5
  {
    [IdVal(0, d), IdVal(1, d), IdVal(2, d), IdVal(3, d), IdVal(4, d)]
  }

  /** `d < x < y < w <= z`. */
  ghost predicate Rising<P(!new)>(le: Order<P>, d: P, x: P, y: P, w: P, z: P) {
    && !le(x, d) && !le(y, x) && !le(w, y) && le(w, z)
    && le(d, x) && le(d, y) && le(d, w) && le(x, y) && le(x, z) && le(y, w) && le(y, z) && le(y, y) && le(w, w)
    && !le(y, d) && !le(w, d) && !le(z, d) && !le(z, y) && le(d, d)
  }

  lemma RisingIs<P(!new)>(le: Order<P>, d: P, x: P, y: P, w: P, z: P)
    requires TotalOrder(le) && !le(x, d) && !le(y, x) && !le(w, y) && le(w, z)
    ensures Rising(le, d, x, y, w, z)
  {
  }

  lemma FirstStep<P(!new)>(le: Order<P>, d: P, x: P)
    requires TotalOrder(le) && !le(x, d) && le(d, d)
    ensures Update(le, Five(AllAt(d), d), 0, x) == Five(AllAt(d)[0 := IdVal(0, x)], d)
  {
    FiveRaised(le, AllAt(d), d, 0, 0, x, 1);
    assert Moved(AllAt(d)[0 := IdVal(0, x)], 0, 0) == AllAt(d)[0 := IdVal(0, x)];
  }

  lemma SecondStep<P(!new)>(le: Order<P>, d: P, x: P, y: P)
    requires TotalOrder(le) && !le(x, d) && !le(y, x) && !le(y, d) && le(d, d)
    ensures Update(le, Five(AllAt(d)[0 := IdVal(0, x)], d), 1, y) == Five(Skipped(d, x, y), d)
  {
    var es := AllAt(d)[0 := IdVal(0, x)];
    assert Moved(es[1 := IdVal(1, y)], 0, 1) == Skipped(d, x, y);
    FiveRaised(le, es, d, 1, 0, y, 2);
  }

  /** The step that skips. */
  lemma SkippingStep<P(!new)>(le: Order<P>, d: P, x: P, y: P, z: P)
    requires !le(x, d) && !le(z, y)
    ensures var p := Five(Skipped(d, x, y), d);
            Skips(le, p, 0, z) && Update(le, p, 0, z) == Five(Skipped(d, z, y), d)
  {
    var es := Skipped(d, x, y);
    assert Distinct(es);
    IndexOf(es, 1);
    assert es[1 := IdVal(0, z)] == Skipped(d, z, y);
  }

  lemma LastStep<P(!new)>(le: Order<P>, d: P, y: P, w: P, z: P)
    requires TotalOrder(le) && le(w, z) && !le(w, y) && !le(w, d) && !le(z, d) && !le(y, d) && le(d, d)
    ensures var es := Skipped(d, z, y)[2 := IdVal(2, w)];
            FiveVoters(es) && Update(le, Five(Skipped(d, z, y), d), 2, w) == Five(es, w)
  {
    var es := Skipped(d, z, y);
    assert Moved(es[2 := IdVal(2, w)], 2, 2) == es[2 := IdVal(2, w)];
    FiveRaised(le, es, d, 2, 2, w, 3);
  }

  /** Voters 0 and 2 have reached `w`, and a quorum has reached `y` only. */
  lemma Overstated<P(!new)>(le: Order<P>, d: P, x: P, y: P, w: P, z: P)
    requires Rising(le, d, x, y, w, z)
    ensures var p := Five(Skipped(d, z, y)[2 := IdVal(2, w)], w);
            && Holders(le, p.entries[..5], w) == {0, 2} && !Accepts(le, p, w) && Accepts(le, p, y)
  {
    hide Holders, IsQuorum;
    var es := Skipped(d, z, y)[2 := IdVal(2, w)];
    assert es[..5] == es && es == [IdVal(1, y), IdVal(0, z), IdVal(2, w), IdVal(3, d), IdVal(4, d)];
    HoldersOfFive(le, es, w);
    HoldersOfFive(le, es, y);
    assert Holders(le, es, w) == {0, 2};
    assert Holders(le, es, y) == {0, 1, 2};
    TwoAndThree();
  }

  lemma TwoAndThree()
    ensures !IsQuorum([FIVE], {0, 2}) && IsQuorum([FIVE], {0, 1, 2})
  {
    OneChild([FIVE], {0, 2});
    OneChild([FIVE], {0, 1, 2});
    assert {0, 2} * FIVE == {0, 2} && {0, 1, 2} * FIVE == {0, 1, 2};
  }

  lemma HoldersOfFive<P>(le: Order<P>, es: seq<IdVal<P>>, v: P)
    requires |es| == 5
    ensures forall id :: id in Holders(le, es, v) <==>
              || (id == es[0].id && le(v, es[0].val)) || (id == es[1].id && le(v, es[1].val))
              || (id == es[2].id && le(v, es[2].val)) || (id == es[3].id && le(v, es[3].val))
              || (id == es[4].id && le(v, es[4].val))
  {
    assert forall i :: 0 <= i < 5 ==> es[i] in es;
  }

  /** Four legal updates of five voters, whatever is counted: voter 0 reaches `x`, voter 1 passes it with
      `y`, voter 0 is raised past voter 1 to `z`, and voter 2 reaches `w`, not above `z`. Then `w` is accepted,
      though only voters 0 and 2 have reached it. The value a quorum has reached is `y`. */
  lemma SkippedOrderOverstates<P(!new)>(le: Order<P>, d: P, x: P, y: P, w: P, z: P)
    requires TotalOrder(le) && !le(x, d) && !le(y, x) && !le(w, y) && le(w, z)
    ensures var p0, us := Five(AllAt(d), d), [(0, x), (1, y), (0, z), (2, w)];
            var p := Run(le, p0, us);
            && p0.quorumSet == [FIVE] && Shape(p0) && Exact(le, p0, d) && Ordered(le, p0) && Legal(le, p0, us)
            && p.accepted == w && p.voterCount == 5 && Holders(le, p.entries[..5], w) == {0, 2}
            && !Accepts(le, p, w) && Accepts(le, p, y)
  {
    hide Update, Raises, Accepts, Holders, TotalOrder, Exact;
    RisingIs(le, d, x, y, w, z);
    FourUpdates(le, Five(AllAt(d), d), (0, x), (1, y), (0, z), (2, w));
    FirstStep(le, d, x);
    SecondStep(le, d, x, y);
    SkippingStep(le, d, x, y, z);
    LastStep(le, d, y, w, z);
    Overstated(le, d, x, y, w, z);
    FiveStart(le, d);
    FiveRaises(le, AllAt(d), d, 0, x);
    FiveRaises(le, AllAt(d)[0 := IdVal(0, x)], d, 1, y);
    FiveRaises(le, Skipped(d, x, y), d, 1, z);
    FiveRaises(le, Skipped(d, z, y), d, 2, w);
  }

  lemma FiveStart<P(!new)>(le: Order<P>, d: P)
    requires TotalOrder(le)
    ensures var p := Five(AllAt(d), d); Shape(p) && Exact(le, p, d) && Ordered(le, p)
  {
  }

  lemma FiveRaises<P(!new)>(le: Order<P>, es: seq<IdVal<P>>, acc: P, k: nat, v: P)
    requires k < |es| == 5 && Distinct(es) && le(es[k].val, v)
    ensures Raises(le, Five(es, acc), es[k].id, v)
  {
    IndexOf(es, k);
  }

  lemma FourUpdates<P>(le: Order<P>, p: Progress<P>, a: (NodeId, P), b: (NodeId, P), c: (NodeId, P), d: (NodeId, P))
    requires p.voterCount <= |p.entries|
    ensures var p1 := Update(le, p, a.0, a.1);
            var p2 := Update(le, p1, b.0, b.1);
            var p3 := Update(le, p2, c.0, c.1);
            && Run(le, p, [a, b, c, d]) == Update(le, p3, d.0, d.1)
            && (Raises(le, p, a.0, a.1) && Raises(le, p1, b.0, b.1) && Raises(le, p2, c.0, c.1) && Raises(le, p3, d.0, d.1)
                ==> Legal(le, p, [a, b, c, d]))
  {
    hide Update, Raises, Skips, Legal, NeverSkips, Run;
    NoUpdates(le, p);
    OneMoreUpdate(le, p, [], a);
    OneMoreUpdate(le, p, [a], b);
    OneMoreUpdate(le, p, [a, b], c);
    OneMoreUpdate(le, p, [a, b, c], d);
    assert [] + [a] == [a] && [a] + [b] == [a, b] && [a, b] + [c] == [a, b, c] && [a, b, c] + [d] == [a, b, c, d];
  }

  // ----- The intended variant -----------------------------------------------------

  /** A VARIANT of `update_with`, not the code: it moves up and scans whenever the new value is above
      the accepted one, whatever the previous value was. */
  ghost function UpdateAlwaysMoving<P>(le: Order<P>, p: Progress<P>, id: NodeId, v: P): (r: Progress<P>)
    requires p.voterCount <= |p.entries|
    ensures r.voterCount == p.voterCount && |r.entries| == |p.entries| && r.quorumSet == p.quorumSet
  {
    var at := Index(p.entries, id);
    if at == |p.entries| then p else
    var entries := p.entries[at := IdVal(id, v)];
    if at < p.voterCount && !le(v, p.accepted) then
      var (moved, i) := MoveUp(le, entries, at);
      p.(entries := moved, accepted := Scan(le, p.quorumSet, moved, p.voterCount, i, p.accepted))
    else p.(entries := entries)
  }

  lemma VariantKeeps<P(!new)>(le: Order<P>, p: Progress<P>, id: NodeId, v: P, d: P)
    requires TotalOrder(le) && Shape(p) && Exact(le, p, d) && Ordered(le, p) && Raises(le, p, id, v)
    ensures var p' := UpdateAlwaysMoving(le, p, id, v);
            Shape(p') && Exact(le, p', d) && Ordered(le, p') && le(p.accepted, p'.accepted)
  {
    var at := Index(p.entries, id);
    if at < |p.entries| {
      if at < p.voterCount && !le(v, p.accepted) {
        MovedIsExact(le, p, at, v, d);
      } else {
        InPlace(le, p, id, v, d);
      }
    }
  }

  ghost function VariantRun<P>(le: Order<P>, p: Progress<P>, us: seq<(NodeId, P)>): (r: Progress<P>)
    requires p.voterCount <= |p.entries|
    ensures r.voterCount == p.voterCount && |r.entries| == |p.entries| && r.quorumSet == p.quorumSet
  {
    if |us| == 0 then p
    else var (id, v) := us[|us| - 1]; UpdateAlwaysMoving(le, VariantRun(le, p, us[..|us| - 1]), id, v)
  }

  /** The variant is exact and ordered after every sequence of updates that lower no value. */
  lemma {:induction false} VariantRunIsExact<P(!new)>(le: Order<P>, p: Progress<P>, us: seq<(NodeId, P)>, d: P)
    requires TotalOrder(le) && Shape(p) && Exact(le, p, d) && Ordered(le, p)
    requires forall i :: 0 <= i < |us| ==> Raises(le, VariantRun(le, p, us[..i]), us[i].0, us[i].1)
    ensures var r := VariantRun(le, p, us); Shape(r) && Exact(le, r, d) && Ordered(le, r)
    decreases |us|
  {
    if |us| > 0 {
      Prefixes(us);
      VariantRunIsExact(le, p, us[..|us| - 1], d);
      VariantKeeps(le, VariantRun(le, p, us[..|us| - 1]), us[|us| - 1].0, us[|us| - 1].1, d);
    }
  }
}
