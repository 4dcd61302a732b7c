/** Majority quorums, joint quorums and coherence of two joint configs. */
module Quorum {
  import opened Ids

  /** More than half of `config` is in `ids`. */
  ghost predicate Majority(config: set<NodeId>, ids: set<NodeId>) {
    2 * |ids * config| > |config|
  }

  /** `ids` holds a majority of every child config. */
  ghost predicate IsQuorum(joint: seq<set<NodeId>>, ids: set<NodeId>) {
    forall i :: 0 <= i < |joint| ==> Majority(joint[i], ids)
  }

  lemma MajoritiesIntersect(config: set<NodeId>, a: set<NodeId>, b: set<NodeId>) returns (q: NodeId)
    requires Majority(config, a) && Majority(config, b)
    ensures q in a && q in b && q in config
  {
    var x, y := a * config, b * config;
    if x * y == {} {
      assert |x + y| == |x| + |y|;
      SubsetSize(x + y, config);
      assert false;
    }
    q :| q in x * y;
  }

  lemma {:induction false} SubsetSize(a: set<NodeId>, b: set<NodeId>)
    requires a <= b
    ensures |a| <= |b|
  {
    if a != {} {
      var x :| x in a;
      SubsetSize(a - {x}, b - {x});
    }
  }

  lemma QuorumGrows(joint: seq<set<NodeId>>, a: set<NodeId>, b: set<NodeId>)
    requires IsQuorum(joint, a) && a <= b
    ensures IsQuorum(joint, b)
  {
    forall i | 0 <= i < |joint| ensures Majority(joint[i], b) {
      assert Majority(joint[i], a);
      SubsetSize(a * joint[i], b * joint[i]);
    }
  }

  /** Any quorum of one joint config meets any quorum of another one that shares a child. */
  lemma SharedChildIntersects(j1: seq<set<NodeId>>, j2: seq<set<NodeId>>, c: set<NodeId>,
                              a: set<NodeId>, b: set<NodeId>) returns (q: NodeId)
    requires c in j1 && c in j2
    requires IsQuorum(j1, a) && IsQuorum(j2, b)
    ensures q in a && q in b && q in c
  {
    var k1 :| 0 <= k1 < |j1| && j1[k1] == c;
    var k2 :| 0 <= k2 < |j2| && j2[k2] == c;
    q := MajoritiesIntersect(c, a, b);
  }

  // ----- The loops that decide it -------------------------------------------------

  /** How many positions of `ids` hold a member of `config`. */
  function CountIn(config: set<NodeId>, ids: seq<NodeId>): nat {
    if |ids| == 0 then 0
    else CountIn(config, ids[..|ids| - 1]) + (if ids[|ids| - 1] in config then 1 else 0)
  }

  ghost function SetOf(ids: seq<NodeId>): set<NodeId> {
    set id | id in ids
  }

  ghost predicate NoDuplicates(ids: seq<NodeId>) {
    forall i, j :: 0 <= i < j < |ids| ==> ids[i] != ids[j]
  }

  /** Counting positions never misses a member, and is exact when no id is repeated. */
  lemma {:induction false} CountIsSize(config: set<NodeId>, ids: seq<NodeId>)
    ensures |SetOf(ids) * config| <= CountIn(config, ids)
    ensures NoDuplicates(ids) ==> CountIn(config, ids) == |SetOf(ids) * config|
  {
    if |ids| > 0 {
      var init, x := ids[..|ids| - 1], ids[|ids| - 1];
      CountIsSize(config, init);
      assert SetOf(ids) == SetOf(init) + {x};
      if x in config {
        assert SetOf(ids) * config == SetOf(init) * config + {x};
      } else {
        assert SetOf(ids) * config == SetOf(init) * config;
      }
      assert NoDuplicates(ids) ==> x !in init;
    }
  }

  lemma {:induction false} CountGrows(config: set<NodeId>, ids: seq<NodeId>, i: nat)
    requires i <= |ids|
    ensures CountIn(config, ids[..i]) <= CountIn(config, ids)
  {
    if i < |ids| {
      CountGrows(config, ids[..|ids| - 1], i);
      assert ids[..|ids| - 1][..i] == ids[..i];
    } else {
      assert ids[..i] == ids;
    }
  }

  /** The counting loop with its early exit. */
  method CountedMajority(config: set<NodeId>, ids: seq<NodeId>) returns (r: bool)
    ensures r <==> 2 * CountIn(config, ids) > |config|
    ensures NoDuplicates(ids) ==> (r <==> Majority(config, SetOf(ids)))
  {
    CountIsSize(config, ids);
    var count, limit := 0, |config|;
    for i := 0 to |ids|
      invariant count == 2 * CountIn(config, ids[..i]) && count <= limit
    {
      assert ids[..i + 1][..i] == ids[..i];
      if ids[i] in config {
        count := count + 2;
        if count > limit {
          CountGrows(config, ids, i + 1);
          return true;
        }
      }
    }
    assert ids[..|ids|] == ids;
    return false;
  }

  /** With a repeated id the loop can answer `true` where there is no majority. */
  lemma RepeatedIdMiscounts()
    ensures var config, ids: seq<NodeId> := {0, 1, 2}, [0, 0];
            2 * CountIn(config, ids) > |config| && !Majority(config, SetOf(ids))
  {
    var config: set<NodeId>, ids: seq<NodeId> := {0, 1, 2}, [0, 0];
    assert ids[..1] == [0] && ids[..1][..0] == [];
    assert CountIn(config, ids[..1]) == 1;
    assert SetOf(ids) * config == {0};
  }

  /** A joint quorum is a counted majority of every child, which for distinct ids is a majority. */
  method JointIsQuorum(joint: seq<set<NodeId>>, ids: seq<NodeId>) returns (r: bool)
    ensures r <==> forall i :: 0 <= i < |joint| ==> 2 * CountIn(joint[i], ids) > |joint[i]|
    ensures NoDuplicates(ids) ==> (r <==> IsQuorum(joint, SetOf(ids)))
  {
    for i := 0 to |joint|
      invariant forall k :: 0 <= k < i ==> 2 * CountIn(joint[k], ids) > |joint[k]|
      invariant NoDuplicates(ids) ==> forall k :: 0 <= k < i ==> Majority(joint[k], SetOf(ids))
    {
      var child := CountedMajority(joint[i], ids);
      if !child {
        return false;
      }
    }
    return true;
  }

  /** Every id of some child config. */
  ghost function Union(joint: seq<set<NodeId>>): set<NodeId> {
    set i, id | 0 <= i < |joint| && id in joint[i] :: id
  }

  method JointIds(joint: seq<set<NodeId>>) returns (ids: set<NodeId>)
    ensures ids == Union(joint)
  {
    ids := {};
    for i := 0 to |joint|
      invariant ids == Union(joint[..i])
    {
      assert Union(joint[..i + 1]) == Union(joint[..i]) + joint[i] by {
        assert joint[..i + 1] == joint[..i] + [joint[i]];
        UnionOneMore(joint[..i], joint[i]);
      }
      ids := ids + joint[i];
    }
    assert joint[..|joint|] == joint;
  }

  lemma UnionOneMore(joint: seq<set<NodeId>>, child: set<NodeId>)
    ensures Union(joint + [child]) == Union(joint) + child
  {
    var more := joint + [child];
    forall id | id in Union(joint) + child ensures id in Union(more) {
      if id in child {
        assert id in more[|joint|];
      } else {
        var i :| 0 <= i < |joint| && id in joint[i];
        assert id in more[i];
      }
    }
  }
}
