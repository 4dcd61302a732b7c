/** The progress as the object the leader and the candidate update in place. */
module VecProgressImpl {
  import opened Ids
  import opened Quorum
  import opened ProgressSpec
  import opened ProgressRuns

  /** Both results carry the accepted value; `Unknown` says that the id is not tracked. */
  datatype Granted<P> = Known(value: P) | Unknown(value: P)

  datatype Stats = Stats(updates: nat, moves: nat, quorumChecks: nat)

  /** The members of a set in ascending order. */
  method InOrder(ids: set<NodeId>) returns (r: seq<NodeId>)
    ensures r == SortedIds(ids)
  {
    r := [];
    var rest := ids;
    while rest != {}
      invariant r + SortedIds(rest) == SortedIds(ids)
    {
      LeastExists(rest);
      var x :| x in rest && forall y :: y in rest ==> x <= y;
      assert x == LeastId(rest);
      r := r + [x];
      rest := rest - {x};
    }
  }

  class VecProgress<P(==, !new)> {
    const le: Order<P>
    const quorumSet: seq<set<NodeId>>
    var accepted: P
    var voterCount: nat
    var entries: seq<IdVal<P>>
    var stat: Stats

    ghost function View(): Progress<P>
      reads this
    {
      Progress(quorumSet, entries, voterCount, accepted)
    }

    ghost predicate Valid()
      reads this
    {
      TotalOrder(le) && Shape(View())
    }

    /** Voters in ascending order, then the learners, all at the default. */
    constructor (le: Order<P>, q: seq<set<NodeId>>, learners: seq<NodeId>, d: P)
      requires TotalOrder(le) && Apart(q, learners)
      ensures this.le == le && Valid() && View() == New(q, learners, d)
    {
      var ids := JointIds(q);
      var voters := InOrder(ids);
      SortedIdsAre(ids);
      this.le := le;
      quorumSet := q;
      accepted := d;
      voterCount := |voters|;
      entries := Defaults(voters + learners, d);
      stat := Stats(0, 0, 0);
      NewIsExact(le, q, learners, d);
    }

    method IndexOf(id: NodeId) returns (r: nat)
      ensures r == Index(entries, id)
    {
      r := 0;
      while r < |entries|
        invariant r <= |entries| && Index(entries, id) == r + Index(entries[r..], id)
      {
        if entries[r].id == id {
          return;
        }
        r := r + 1;
      }
    }

    method MoveUpFrom(index: nat) returns (r: nat)
      requires index < |entries|
      modifies this`entries, this`stat
      ensures (entries, r) == MoveUp(le, old(entries), index)
    {
      stat := stat.(moves := stat.moves + 1);
      var i := index;
      while i > 0
        invariant 0 <= i <= index < |entries|
        invariant MoveUp(le, entries, i) == MoveUp(le, old(entries), index)
      {
        if !le(entries[i].val, entries[i - 1].val) {
          entries := entries[i := entries[i - 1]][i - 1 := entries[i]];
        } else {
          return i;
        }
        i := i - 1;
      }
      return 0;
    }

    /** The ids of the first `n` entries. */
    function FirstIds(n: nat): (r: seq<NodeId>)
      requires n <= |entries|
      reads this
      ensures |r| == n && forall k :: 0 <= k < n ==> r[k] == entries[k].id
    {
      seq(n, k requires 0 <= k < n reads this requires n <= |entries| => entries[k].id)
    }

    lemma FirstIdsAre(n: nat)
      requires Valid() && n <= |entries|
      ensures NoDuplicates(FirstIds(n)) && SetOf(FirstIds(n)) == IdsOf(entries[..n])
    {
      forall id | id in IdsOf(entries[..n]) ensures id in SetOf(FirstIds(n)) {
        var k :| 0 <= k < n && entries[..n][k].id == id;
        assert FirstIds(n)[k] == id;
      }
    }

    /** Looks for a new accepted value from position `from` down. */
    method ScanFrom(from: nat)
      requires Valid() && from <= voterCount
      modifies this`accepted, this`stat
      ensures Valid()
      ensures accepted == Scan(le, quorumSet, entries, voterCount, from, old(accepted))
    {
      var i := from;
      while i < voterCount
        invariant from <= i <= voterCount && accepted == old(accepted) && Valid()
        invariant Scan(le, quorumSet, entries, voterCount, from, accepted)
               == Scan(le, quorumSet, entries, voterCount, i, accepted)
      {
        var prog := entries[i].val;
        if le(prog, accepted) {
          break;
        }
        stat := stat.(quorumChecks := stat.quorumChecks + 1);
        FirstIdsAre(i + 1);
        var quorum := JointIsQuorum(quorumSet, FirstIds(i + 1));
        if quorum {
          accepted := prog;
          break;
        }
        i := i + 1;
      }
    }

    /** `update_with`. */
    method UpdateWith(id: NodeId, f: P -> P) returns (r: Granted<P>)
      requires Valid()
      requires Value(View(), id).Some? ==> le(Value(View(), id).value, f(Value(View(), id).value))
      modifies this`accepted, this`entries, this`stat
      ensures Valid()
      ensures var v := Value(old(View()), id);
              && View() == (if v.Some? then Update(le, old(View()), id, f(v.value)) else old(View()))
              && r == (if v.Some? then Known(accepted) else Unknown(accepted))
    {
      stat := stat.(updates := stat.updates + 1);
      ghost var p := View();
      var index := IndexOf(id);
      if index == |entries| {
        return Unknown(accepted);
      }
      var prev := entries[index].val;
      var next := f(prev);
      UpdateContents(le, p, id, next, id);
      entries := entries[index := IdVal(id, next)];
      if prev == next || index >= voterCount {
        return Known(accepted);
      }
      if le(prev, accepted) && !le(next, accepted) {
        ghost var raised := entries;
        var to := MoveUpFrom(index);
        MoveUpIs(le, raised, index);
        MovedHolds(raised, to, index, voterCount);
        ScanFrom(to);
      }
      return Known(accepted);
    }

    /** `increase_to`: a value that is not greater is ignored. */
    method IncreaseTo(id: NodeId, v: P) returns (r: Granted<P>)
      requires Valid()
      modifies this`accepted, this`entries, this`stat
      ensures Valid()
      ensures var prev := Value(old(View()), id);
              && View() == (if prev.Some? then Update(le, old(View()), id, if le(v, prev.value) then prev.value else v)
                            else old(View()))
              && r == (if prev.Some? then Known(accepted) else Unknown(accepted))
    {
      var order := le;
      r := UpdateWith(id, x => if order(v, x) then x else v);
    }

    method IsVoterOf(id: NodeId) returns (r: Option<bool>)
      requires Valid()
      ensures r == IsVoter(View(), id)
    {
      var index := IndexOf(id);
      if index == |entries| {
        return None;
      }
      return Some(index < voterCount);
    }

    /** `upgrade_quorum_set`: a new progress that inherits the values of this one. */
    method UpgradeQuorumSet(q: seq<set<NodeId>>, learners: seq<NodeId>, d: P) returns (r: VecProgress<P>)
      requires Valid() && Least(le, d) && Apart(q, learners)
      ensures fresh(r) && r.Valid() && r.le == le && r.View() == Upgrade(le, View(), q, learners, d)
    {
      r := new VecProgress(le, q, learners, d);
      r.stat := stat;
      ghost var us := Pairs(entries);
      ghost var p0 := r.View();
      NewIsExact(le, q, learners, d);
      for i := 0 to |entries|
        invariant r.le == le && r.Valid() && r.View() == Run(le, p0, us[..i])
        invariant fresh(r)
      {
        UpgradeStep(le, View(), p0, i, d);
        assert us[..i + 1][..i] == us[..i];
        var v := entries[i].val;
        UpdateValueIs(le, r.View(), entries[i].id, v);
        var g := r.UpdateWith(entries[i].id, _ => v);
      }
      assert us[..|entries|] == us;
    }
  }

  lemma UpdateValueIs<P(!new)>(le: Order<P>, p: Progress<P>, id: NodeId, v: P)
    requires Shape(p) && Raises(le, p, id, v)
    ensures Value(p, id).Some? ==> le(Value(p, id).value, v)
    ensures Value(p, id).None? ==> Update(le, p, id, v) == p
  {
  }
}
