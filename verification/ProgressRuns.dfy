/** Sequences of updates of a progress: where its accepted value is exact, and where it is not. */
module ProgressRuns {
  import opened Ids
  import opened Quorum
  import opened ProgressSpec

  // ----- A new progress -----------------------------------------------------------

  lemma {:induction false} LeastExists(s: set<NodeId>)
    requires s != {}
    ensures exists x :: x in s && forall y :: y in s ==> x <= y
  {
    var z :| z in s;
    var rest := s - {z};
    if rest == {} {
      assert s == {z};
    } else {
      LeastExists(rest);
      var x :| x in rest && forall y :: y in rest ==> x <= y;
      var w := if x <= z then x else z;
      assert forall y :: y in s ==> y == z || y in rest;
      assert w in s && forall y :: y in s ==> w <= y;
    }
  }

  ghost function LeastId(s: set<NodeId>): (x: NodeId)
    requires s != {}
    ensures x in s && forall y :: y in s ==> x <= y
  {
    LeastExists(s);
    var x :| x in s && forall y :: y in s ==> x <= y;
    x
  }

  /** The members of `s` in ascending order. */
  ghost function SortedIds(s: set<NodeId>): seq<NodeId> {
    if s == {} then [] else [LeastId(s)] + SortedIds(s - {LeastId(s)})
  }

  lemma {:induction false} SortedIdsAre(s: set<NodeId>)
    ensures |SortedIds(s)| == |s| && SetOf(SortedIds(s)) == s && NoDuplicates(SortedIds(s))
  {
    if s != {} {
      var x := LeastId(s);
      SortedIdsAre(s - {x});
      assert forall k :: 0 <= k < |SortedIds(s - {x})| ==> SortedIds(s - {x})[k] in SetOf(SortedIds(s - {x}));
      assert SetOf(SortedIds(s)) == {x} + SetOf(SortedIds(s - {x}));
    }
  }

  function Defaults<P>(ids: seq<NodeId>, d: P): (r: seq<IdVal<P>>)
    ensures |r| == |ids| && forall k :: 0 <= k < |ids| ==> r[k] == IdVal(ids[k], d)
  {
    seq(|ids|, k requires 0 <= k < |ids| => IdVal(ids[k], d))
  }

  ghost function New<P>(q: seq<set<NodeId>>, learners: seq<NodeId>, d: P): (r: Progress<P>)
    ensures r.voterCount <= |r.entries|
  {
    SortedIdsAre(Union(q));
    Progress(q, Defaults(SortedIds(Union(q)) + learners, d), |Union(q)|, d)
  }

  /** Learners are told apart from each other and from the voters. */
  ghost predicate Apart(q: seq<set<NodeId>>, learners: seq<NodeId>) {
    NoDuplicates(learners) && SetOf(learners) !! Union(q)
  }

  lemma NewIds(q: seq<set<NodeId>>, learners: seq<NodeId>)
    requires Apart(q, learners)
    ensures var ids := SortedIds(Union(q)) + learners;
            && NoDuplicates(ids) && SetOf(ids) == Union(q) + SetOf(learners)
            && |SortedIds(Union(q))| == |Union(q)| && SetOf(ids[..|Union(q)|]) == Union(q)
  {
    var voters := SortedIds(Union(q));
    SortedIdsAre(Union(q));
    hide SortedIds, Union;
    var ids := voters + learners;
    assert ids[..|voters|] == voters;
    forall i, j | 0 <= i < j < |ids| ensures ids[i] != ids[j] {
      assert i < |voters| ==> voters[i] in SetOf(voters);
      assert j >= |voters| ==> learners[j - |voters|] in SetOf(learners);
    }
  }

  lemma DefaultsValue<P>(p: Progress<P>, ids: seq<NodeId>, d: P, id: NodeId)
    requires NoDuplicates(ids) && p.entries == Defaults(ids, d)
    ensures Value(p, id) == if id in ids then Some(d) else None
  {
    if id in ids {
      var k :| 0 <= k < |ids| && ids[k] == id;
      IndexOf(p.entries, k);
    }
  }

  lemma DefaultsAreExact<P(!new)>(le: Order<P>, p: Progress<P>, ids: seq<NodeId>, d: P)
    requires TotalOrder(le) && NoDuplicates(ids) && p.entries == Defaults(ids, d) && p.voterCount <= |ids|
    requires p.accepted == d
    ensures Shape(p) && Exact(le, p, d) && Ordered(le, p)
  {
  }

  lemma NewIsExact<P(!new)>(le: Order<P>, q: seq<set<NodeId>>, learners: seq<NodeId>, d: P)
    requires TotalOrder(le) && Apart(q, learners)
    ensures var p := New(q, learners, d);
            && Shape(p) && Exact(le, p, d) && Ordered(le, p) && p.quorumSet == q && p.accepted == d
            && IdsOf(p.entries[..p.voterCount]) == Union(q)
            && forall id :: Value(p, id) == if id in Union(q) + SetOf(learners) then Some(d) else None
  {
    var ids, p := SortedIds(Union(q)) + learners, New(q, learners, d);
    NewIds(q, learners);
    hide SortedIds, Union, Value;
    DefaultsAreExact(le, p, ids, d);
    assert IdsOf(p.entries[..p.voterCount]) == SetOf(ids[..p.voterCount]) by {
      EntryIds(ids[..p.voterCount], d);
      assert p.entries[..p.voterCount] == Defaults(ids[..p.voterCount], d);
    }
    forall id ensures Value(p, id) == if id in Union(q) + SetOf(learners) then Some(d) else None {
      DefaultsValue(p, ids, d, id);
      assert id in ids <==> id in SetOf(ids);
    }
  }

  lemma EntryIds<P>(ids: seq<NodeId>, d: P)
    ensures IdsOf(Defaults(ids, d)) == SetOf(ids)
  {
    forall id | id in ids ensures id in IdsOf(Defaults(ids, d)) {
      var k :| 0 <= k < |ids| && ids[k] == id;
      assert Defaults(ids, d)[k] == IdVal(id, d);
    }
  }

  lemma IdOfVoter<P>(p: Progress<P>, id: NodeId)
    requires Shape(p)
    ensures id in IdsOf(p.entries[..p.voterCount]) <==> IsVoter(p, id) == Some(true)
  {
    var ws := p.entries[..p.voterCount];
    if id in IdsOf(ws) {
      var k :| 0 <= k < |ws| && ws[k].id == id;
      IndexOf(p.entries, k);
    }
    if IsVoter(p, id) == Some(true) {
      assert ws[Index(p.entries, id)] in ws;
    }
  }

  // ----- Runs ---------------------------------------------------------------------

  ghost function Run<P>(le: Order<P>, p: Progress<P>, us: seq<(NodeId, P)>): (r: Progress<P>)
    requires p.voterCount <= |p.entries|
    ensures r.voterCount == p.voterCount && |r.entries| == |p.entries| && r.quorumSet == p.quorumSet
  {
    if |us| == 0 then p
    else var (id, v) := us[|us| - 1]; Update(le, Run(le, p, us[..|us| - 1]), id, v)
  }

  /** No update lowers a value. */
  ghost predicate Legal<P>(le: Order<P>, p: Progress<P>, us: seq<(NodeId, P)>)
    requires p.voterCount <= |p.entries|
  {
    forall i :: 0 <= i < |us| ==> Raises(le, Run(le, p, us[..i]), us[i].0, us[i].1)
  }

  ghost predicate NeverSkips<P>(le: Order<P>, p: Progress<P>, us: seq<(NodeId, P)>)
    requires p.voterCount <= |p.entries|
  {
    forall i :: 0 <= i < |us| ==> !Skips(le, Run(le, p, us[..i]), us[i].0, us[i].1)
  }

  lemma Prefixes<P>(us: seq<(NodeId, P)>)
    requires |us| > 0
    ensures forall i :: 0 <= i < |us| ==> us[..|us| - 1][..i] == us[..i]
  {
  }

  lemma Shorter<P>(le: Order<P>, p: Progress<P>, us: seq<(NodeId, P)>)
    requires |us| > 0 && p.voterCount <= |p.entries| && Legal(le, p, us)
    ensures Legal(le, p, us[..|us| - 1]) && (NeverSkips(le, p, us) ==> NeverSkips(le, p, us[..|us| - 1]))
    ensures Raises(le, Run(le, p, us[..|us| - 1]), us[|us| - 1].0, us[|us| - 1].1)
  {
    Prefixes(us);
  }

  /** Over any run of legal updates without a skip, the accepted value is exact after each. */
  lemma {:induction false} RunIsExact<P(!new)>(le: Order<P>, p: Progress<P>, us: seq<(NodeId, P)>, d: P)
    requires TotalOrder(le) && Shape(p) && Exact(le, p, d) && Ordered(le, p)
    requires Legal(le, p, us) && NeverSkips(le, p, us)
    ensures Shape(Run(le, p, us)) && Exact(le, Run(le, p, us), d) && Ordered(le, Run(le, p, us))
    decreases |us|
  {
    if |us| > 0 {
      Shorter(le, p, us);
      RunIsExact(le, p, us[..|us| - 1], d);
      UpdateKeeps(le, Run(le, p, us[..|us| - 1]), us[|us| - 1].0, us[|us| - 1].1, d);
    }
  }

  lemma {:induction false} RunContents<P(!new)>(le: Order<P>, p: Progress<P>, us: seq<(NodeId, P)>, id: NodeId)
    requires TotalOrder(le) && Shape(p)
    ensures Shape(Run(le, p, us)) && IsVoter(Run(le, p, us), id) == IsVoter(p, id)
    ensures Value(Run(le, p, us), id).Some? == Value(p, id).Some?
    ensures (forall i :: 0 <= i < |us| ==> us[i].0 != id) ==> Value(Run(le, p, us), id) == Value(p, id)
    ensures forall i :: 0 <= i < |us| && us[i].0 == id && Value(p, id).Some? && (forall j :: i < j < |us| ==> us[j].0 != id)
              ==> Value(Run(le, p, us), id) == Some(us[i].1)
    decreases |us|
  {
    if |us| > 0 {
      RunContents(le, p, us[..|us| - 1], id);
      RunContents(le, p, us[..|us| - 1], us[|us| - 1].0);
      UpdateContents(le, Run(le, p, us[..|us| - 1]), us[|us| - 1].0, us[|us| - 1].1, id);
    }
  }

  // ----- Rebuilding for a new quorum set ------------------------------------------

  function Pairs<P>(entries: seq<IdVal<P>>): (r: seq<(NodeId, P)>)
    ensures |r| == |entries| && forall k :: 0 <= k < |r| ==> r[k] == (entries[k].id, entries[k].val)
  {
    seq(|entries|, k requires 0 <= k < |entries| => (entries[k].id, entries[k].val))
  }

  /** `upgrade_quorum_set`. */
  ghost function Upgrade<P>(le: Order<P>, prev: Progress<P>, q: seq<set<NodeId>>, learners: seq<NodeId>, d: P): Progress<P> {
    Run(le, New(q, learners, d), Pairs(prev.entries))
  }

  /** Whatever the order of the previous entries, the rebuilt progress is exact for the new quorum
      set, and every id tracked before and after keeps its value. */
  lemma UpgradeIsExact<P(!new)>(le: Order<P>, prev: Progress<P>, q: seq<set<NodeId>>, learners: seq<NodeId>, d: P)
    requires TotalOrder(le) && Least(le, d) && Distinct(prev.entries) && Apart(q, learners)
    ensures var p := Upgrade(le, prev, q, learners, d);
            && Shape(p) && p.quorumSet == q && Exact(le, p, d) && Ordered(le, p)
            && forall id :: Value(p, id) == if id !in Union(q) + SetOf(learners) then None
                                            else if Value(prev, id).Some? then Value(prev, id) else Some(d)
  {
    var p0, us := New(q, learners, d), Pairs(prev.entries);
    NewIsExact(le, q, learners, d);
    forall i | 0 <= i < |us|
      ensures Raises(le, Run(le, p0, us[..i]), us[i].0, us[i].1) && !Skips(le, Run(le, p0, us[..i]), us[i].0, us[i].1)
    {
      UpgradeStep(le, prev, p0, i, d);
    }
    RunIsExact(le, p0, us, d);
    forall id
      ensures Value(Run(le, p0, us), id) == if id !in Union(q) + SetOf(learners) then None
                                            else if Value(prev, id).Some? then Value(prev, id) else Some(d)
    {
      UpgradeValue(le, prev, p0, id);
    }
  }

  /** Every id is raised once, from the default. */
  lemma UpgradeStep<P(!new)>(le: Order<P>, prev: Progress<P>, p0: Progress<P>, i: nat, d: P)
    requires TotalOrder(le) && Least(le, d) && Distinct(prev.entries) && Shape(p0) && i < |prev.entries|
    requires forall id :: Value(p0, id) == Some(d) || Value(p0, id) == None
    ensures var us := Pairs(prev.entries); var p := Run(le, p0, us[..i]);
            Raises(le, p, us[i].0, us[i].1) && !Skips(le, p, us[i].0, us[i].1)
  {
    var us := Pairs(prev.entries);
    RunContents(le, p0, us[..i], us[i].0);
    assert forall k :: 0 <= k < i ==> us[..i][k].0 != us[i].0;
    assert Value(Run(le, p0, us[..i]), us[i].0) == Value(p0, us[i].0);
  }

  lemma UpgradeValue<P(!new)>(le: Order<P>, prev: Progress<P>, p0: Progress<P>, id: NodeId)
    requires TotalOrder(le) && Distinct(prev.entries) && Shape(p0)
    ensures Value(Run(le, p0, Pairs(prev.entries)), id) ==
            if Value(p0, id).Some? && Value(prev, id).Some? then Value(prev, id) else Value(p0, id)
  {
    var us, k := Pairs(prev.entries), Index(prev.entries, id);
    RunContents(le, p0, us, id);
    if k < |us| {
      assert us[k].0 == id;
      assert forall j :: k < j < |us| ==> us[j].0 != id;
    }
  }

  // ----- Counting votes -----------------------------------------------------------

  function GrantOrder(): Order<bool> {
    (a: bool, b: bool) => a ==> b
  }

  function Grants(ids: seq<NodeId>): (r: seq<(NodeId, bool)>)
    ensures |r| == |ids| && forall k :: 0 <= k < |r| ==> r[k] == (ids[k], true)
  {
    seq(|ids|, k requires 0 <= k < |ids| => (ids[k], true))
  }

  /** With two values an update can never skip. */
  lemma GrantNeverSkips(p: Progress<bool>, id: NodeId)
    requires Shape(p) && Ordered(GrantOrder(), p)
    ensures Raises(GrantOrder(), p, id, true) && !Skips(GrantOrder(), p, id, true)
  {
  }

  lemma {:induction false} GrantsAreLegal(p: Progress<bool>, ids: seq<NodeId>)
    requires Shape(p) && Exact(GrantOrder(), p, false) && Ordered(GrantOrder(), p)
    ensures Legal(GrantOrder(), p, Grants(ids)) && NeverSkips(GrantOrder(), p, Grants(ids))
    decreases |ids|
  {
    if |ids| > 0 {
      var us, init := Grants(ids), Grants(ids[..|ids| - 1]);
      assert us[..|ids| - 1] == init;
      GrantsAreLegal(p, ids[..|ids| - 1]);
      RunIsExact(GrantOrder(), p, init, false);
      GrantNeverSkips(Run(GrantOrder(), p, init), ids[|ids| - 1]);
      forall i | 0 <= i < |us|
        ensures Raises(GrantOrder(), Run(GrantOrder(), p, us[..i]), us[i].0, us[i].1)
             && !Skips(GrantOrder(), Run(GrantOrder(), p, us[..i]), us[i].0, us[i].1)
      {
        assert i < |us| - 1 ==> us[..i] == init[..i] && us[i] == init[i];
      }
    }
  }

  /** Counting votes is exact: after any calls of `grant_by`, in any order and with repetitions, the
      candidate holds a quorum if and only if those who granted hold a majority of every child. */
  lemma VoteCountIsExact(q: seq<set<NodeId>>, ids: seq<NodeId>)
    requires |q| > 0
    ensures Run(GrantOrder(), New(q, [], false), Grants(ids)).accepted <==> IsQuorum(q, SetOf(ids))
  {
    var le, p0 := GrantOrder(), New(q, [], false);
    NewIsExact(le, q, [], false);
    GrantsAreLegal(p0, ids);
    RunIsExact(le, p0, Grants(ids), false);
    hide New, Run, Index, Union;
    var p := Run(le, p0, Grants(ids));
    VotersHold(q, ids);
    OnlyVotersCount(q, SetOf(ids));
    assert IsQuorum(q, SetOf(ids)) ==> Accepts(le, p, true);
    assert Accepts(le, p, true) ==> le(true, p.accepted);
  }

  /** Ids outside all children do not matter, and a quorum is never empty. */
  lemma OnlyVotersCount(q: seq<set<NodeId>>, ids: set<NodeId>)
    requires |q| > 0
    ensures IsQuorum(q, ids * Union(q)) == IsQuorum(q, ids)
    ensures IsQuorum(q, ids) ==> ids * Union(q) != {}
  {
    forall i | 0 <= i < |q| ensures Majority(q[i], ids * Union(q)) == Majority(q[i], ids) {
      assert forall id :: id in q[i] ==> id in Union(q);
      assert (ids * Union(q)) * q[i] == ids * q[i];
    }
    if ids * Union(q) == {} {
      assert !Majority(q[0], ids * Union(q));
    }
  }

  lemma VotersHold(q: seq<set<NodeId>>, ids: seq<NodeId>)
    ensures var p := Run(GrantOrder(), New(q, [], false), Grants(ids));
            Holders(GrantOrder(), p.entries[..p.voterCount], true) == SetOf(ids) * Union(q)
  {
    var le, p0 := GrantOrder(), New(q, [], false);
    var p := Run(le, p0, Grants(ids));
    NewIsExact(le, q, [], false);
    assert Shape(p) by { RunContents(le, p0, Grants(ids), 0); }
    forall id ensures id in Holders(le, p.entries[..p.voterCount], true) <==> id in SetOf(ids) * Union(q) {
      RunContents(le, p0, Grants(ids), id);
      GrantedValue(p0, ids, id);
      VoterEntry(le, p, id);
      NewVoters(q, id);
    }
  }

  lemma NewVoters(q: seq<set<NodeId>>, id: NodeId)
    ensures (IsVoter(New(q, [], false), id) == Some(true)) <==> id in Union(q)
  {
    NewIsExact(GrantOrder(), q, [], false);
  }

  lemma {:induction false} GrantedValue(p: Progress<bool>, ids: seq<NodeId>, id: NodeId)
    requires Shape(p)
    ensures Value(p, id) == Some(false) ==> Value(Run(GrantOrder(), p, Grants(ids)), id) == Some(id in ids)
    decreases |ids|
  {
    if |ids| > 0 {
      var init := ids[..|ids| - 1];
      assert Grants(ids)[..|ids| - 1] == Grants(init);
      GrantedValue(p, init, id);
      RunContents(GrantOrder(), p, Grants(init), id);
      UpdateContents(GrantOrder(), Run(GrantOrder(), p, Grants(init)), ids[|ids| - 1], true, id);
    }
  }

  lemma VoterEntry<P(!new)>(le: Order<P>, p: Progress<P>, id: NodeId)
    requires Shape(p)
    ensures forall v :: id in Holders(le, p.entries[..p.voterCount], v)
              <==> IsVoter(p, id) == Some(true) && le(v, Value(p, id).value)
  {
    var ws := p.entries[..p.voterCount];
    forall v ensures id in Holders(le, ws, v) <==> IsVoter(p, id) == Some(true) && le(v, Value(p, id).value) {
      if id in Holders(le, ws, v) {
        var k :| 0 <= k < |ws| && ws[k].id == id && le(v, ws[k].val);
        IndexOf(p.entries, k);
      } else if IsVoter(p, id) == Some(true) {
        assert ws[Index(p.entries, id)] in ws;
      }
    }
  }
}
