/** Membership configs and their changes: one joint config at a time, each sharing a child with the
    one before it. */
module Membership {
  import opened Ids
  import opened Quorum
  import opened ProgressRuns

  type NodeInfo = string

  datatype Membership = Membership(configs: seq<set<NodeId>>, nodes: map<NodeId, NodeInfo>)

  datatype Change =
    | AddVoterIds(ids: set<NodeId>)
    | AddVoters(voters: map<NodeId, NodeInfo>)
    | RemoveVoters(ids: set<NodeId>)
    | ReplaceAllVoters(ids: set<NodeId>)
    | AddNodes(nodes: map<NodeId, NodeInfo>)
    | SetNodes(nodes: map<NodeId, NodeInfo>)
    | RemoveNodes(ids: set<NodeId>)
    | ReplaceAllNodes(nodes: map<NodeId, NodeInfo>)
    | Batch(changes: seq<Change>)

  datatype Error = EmptyMembership | NodeNotFound(id: NodeId)

  datatype Result<T> = Ok(value: T) | Err(error: Error)

  // ----- The change as functions --------------------------------------------------

  function LastConfig(m: Membership): set<NodeId> {
    if |m.configs| == 0 then {} else m.configs[|m.configs| - 1]
  }

  /** `compute_target_membership`: the change applied to the last config and the nodes. */
  function Target(m: Membership, c: Change): Membership
    decreases c
  {
    match c
    case AddVoterIds(ids) => m.(configs := [LastConfig(m) + ids])
    case AddVoters(voters) => m.(configs := [LastConfig(m) + voters.Keys], nodes := voters + m.nodes)
    case RemoveVoters(ids) => m.(configs := [LastConfig(m) - ids])
    case ReplaceAllVoters(ids) => m.(configs := [ids])
    case AddNodes(nodes) => m.(nodes := nodes + m.nodes)
    case SetNodes(nodes) => m.(nodes := m.nodes + nodes)
    case RemoveNodes(ids) => m.(nodes := m.nodes - ids)
    case ReplaceAllNodes(nodes) => m.(nodes := nodes)
    case Batch(changes) => TargetAll(m, changes)
  }

  function TargetAll(m: Membership, cs: seq<Change>): Membership
    decreases cs
  {
    if |cs| == 0 then m else TargetAll(Target(m, cs[0]), cs[1..])
  }

  /** `find_coherent`: `goal` itself when it is a child already, otherwise joined to the last one. */
  function FindCoherent(configs: seq<set<NodeId>>, goal: set<NodeId>): seq<set<NodeId>> {
    if goal in configs || |configs| == 0 then [goal] else [configs[|configs| - 1], goal]
  }

  function VoterIds(configs: seq<set<NodeId>>): set<NodeId> {
    set c, id | c in configs && id in c :: id
  }

  /** `next_coherent`: voters that are dropped are also dropped as nodes unless `retain`. */
  function NextCoherent(m: Membership, goal: set<NodeId>, retain: bool): Membership {
    var configs := FindCoherent(m.configs, goal);
    Membership(configs, if retain then m.nodes else m.nodes - (VoterIds(m.configs) - VoterIds(configs)))
  }

  predicate HasEmpty(configs: seq<set<NodeId>>) {
    {} in configs
  }

  /** `ensure_valid`: no empty child, and a node for every voter; the least voter without one is
      reported. */
  ghost function EnsureValid(m: Membership): Result<()> {
    var missing := VoterIds(m.configs) - m.nodes.Keys;
    if HasEmpty(m.configs) then Err(EmptyMembership)
    else if missing != {} then Err(NodeNotFound(LeastId(missing)))
    else Ok(())
  }

  /** `change`. Taking the goal from an empty config list fails when nothing put a config there. */
  ghost function Changed(m: Membership, c: Change, retain: bool): Result<Membership>
    requires |Target(m, c).configs| > 0
  {
    var t := Target(m, c);
    var next := NextCoherent(m.(nodes := t.nodes), LastConfig(t), retain);
    match EnsureValid(next)
    case Ok(_) => Ok(next)
    case Err(e) => Err(e)
  }

  // ----- A change as one edit of a set --------------------------------------------

  /** X -> (X \ drop) U add, or just `add`. */
  datatype Edit = Edit(all: bool, drop: set<NodeId>, add: set<NodeId>)

  function Apply(e: Edit, x: set<NodeId>): set<NodeId> {
    if e.all then e.add else x - e.drop + e.add
  }

  const KEEP := Edit(false, {}, {})

  function Then(a: Edit, b: Edit): Edit {
    if b.all then b else Edit(a.all, a.drop + b.drop, a.add - b.drop + b.add)
  }

  /** What a change does to the voters. */
  function VoterEdit(c: Change): Edit
    decreases c
  {
    match c
    case AddVoterIds(ids) => Edit(false, {}, ids)
    case AddVoters(voters) => Edit(false, {}, voters.Keys)
    case RemoveVoters(ids) => Edit(false, ids, {})
    case ReplaceAllVoters(ids) => Edit(true, {}, ids)
    case Batch(changes) => VoterEditAll(changes)
    case _ => KEEP
  }

  function VoterEditAll(cs: seq<Change>): Edit
    decreases cs
  {
    if |cs| == 0 then KEEP else Then(VoterEdit(cs[0]), VoterEditAll(cs[1..]))
  }

  /** What a change does to the ids that have a node. */
  function NodeEdit(c: Change): Edit
    decreases c
  {
    match c
    case AddVoters(voters) => Edit(false, {}, voters.Keys)
    case AddNodes(nodes) => Edit(false, {}, nodes.Keys)
    case SetNodes(nodes) => Edit(false, {}, nodes.Keys)
    case RemoveNodes(ids) => Edit(false, ids, {})
    case ReplaceAllNodes(nodes) => Edit(true, {}, nodes.Keys)
    case Batch(changes) => NodeEditAll(changes)
    case _ => KEEP
  }

  function NodeEditAll(cs: seq<Change>): Edit
    decreases cs
  {
    if |cs| == 0 then KEEP else Then(NodeEdit(cs[0]), NodeEditAll(cs[1..]))
  }

  lemma ThenApplies(a: Edit, b: Edit, x: set<NodeId>)
    ensures Apply(Then(a, b), x) == Apply(b, Apply(a, x))
  {
  }

  /** Doing an edit twice is doing it once. */
  lemma EditTwice(e: Edit, x: set<NodeId>)
    ensures Apply(e, Apply(e, x)) == Apply(e, x)
  {
  }

  /** Every change, however its batches nest, is one edit of the last config and one of the nodes. */
  lemma {:induction false} TargetIsEdit(m: Membership, c: Change)
    ensures LastConfig(Target(m, c)) == Apply(VoterEdit(c), LastConfig(m))
    ensures Target(m, c).nodes.Keys == Apply(NodeEdit(c), m.nodes.Keys)
    ensures |m.configs| > 0 ==> |Target(m, c).configs| > 0
    decreases c
  {
    match c {
      case Batch(changes) => TargetAllIsEdit(m, changes);
      case _ =>
    }
  }

  lemma {:induction false} TargetAllIsEdit(m: Membership, cs: seq<Change>)
    ensures LastConfig(TargetAll(m, cs)) == Apply(VoterEditAll(cs), LastConfig(m))
    ensures TargetAll(m, cs).nodes.Keys == Apply(NodeEditAll(cs), m.nodes.Keys)
    ensures |m.configs| > 0 ==> |TargetAll(m, cs).configs| > 0
    decreases cs
  {
    if |cs| > 0 {
      var m1 := Target(m, cs[0]);
      TargetIsEdit(m, cs[0]);
      TargetAllIsEdit(m1, cs[1..]);
      ThenApplies(VoterEdit(cs[0]), VoterEditAll(cs[1..]), LastConfig(m));
      ThenApplies(NodeEdit(cs[0]), NodeEditAll(cs[1..]), m.nodes.Keys);
    }
  }

  // ----- Convergence --------------------------------------------------------------

  lemma FoundIs(configs: seq<set<NodeId>>, goal: set<NodeId>)
    ensures var f := FindCoherent(configs, goal);
            && |f| > 0 && f[|f| - 1] == goal && FindCoherent(f, goal) == [goal]
            && VoterIds([goal]) == goal && goal <= VoterIds(f)
  {
    var f := FindCoherent(configs, goal);
    assert goal in f && f[|f| - 1] == goal;
    assert goal in [goal];
  }

  /** Changing towards a goal reaches the goal alone in at most two steps. */
  lemma TwoSteps(m: Membership, goal: set<NodeId>, r1: bool, r2: bool)
    ensures NextCoherent(NextCoherent(m, goal, r1), goal, r2).configs == [goal]
  {
    FoundIs(m.configs, goal);
  }

  /** Once a change is accepted, applying the same change again is accepted too, whatever is retained,
      and gives the single config the change makes of the last one. */
  lemma ChangeConverges(m: Membership, c: Change, r1: bool, r2: bool)
    requires |m.configs| > 0
    ensures |Target(m, c).configs| > 0
    ensures Changed(m, c, r1).Ok? ==>
              var m1 := Changed(m, c, r1).value;
              && |Target(m1, c).configs| > 0
              && Changed(m1, c, r2).Ok?
              && Changed(m1, c, r2).value.configs == [Apply(VoterEdit(c), LastConfig(m))]
  {
    TargetIsEdit(m, c);
    if Changed(m, c, r1).Ok? {
      var goal, m1 := LastConfig(Target(m, c)), Changed(m, c, r1).value;
      FoundIs(m.configs, goal);
      TargetIsEdit(m1, c);
      EditTwice(VoterEdit(c), LastConfig(m));
      assert LastConfig(m1) == goal && LastConfig(Target(m1, c)) == goal;
      var m2 := NextCoherent(m1.(nodes := Target(m1, c).nodes), goal, r2);
      assert m2.configs == [goal];
      SecondIsValid(m, c, r1, m1, m2, goal);
    }
  }

  lemma SecondIsValid(m: Membership, c: Change, r1: bool, m1: Membership, m2: Membership, goal: set<NodeId>)
    requires |Target(m, c).configs| > 0 && Changed(m, c, r1) == Ok(m1) && goal == LastConfig(Target(m, c))
    requires m2.configs == [goal]
    requires Target(m1, c).nodes.Keys - (VoterIds(m1.configs) - goal) <= m2.nodes.Keys
    ensures EnsureValid(m2) == Ok(())
  {
    hide Target, VoterEdit, NodeEdit;
    FoundIs(m.configs, goal);
    TargetIsEdit(m, c);
    TargetIsEdit(m1, c);
    AcceptedIs(m, c, r1);
    assert goal in m1.configs;
    EditKeepsMembers(NodeEdit(c), goal, m1.nodes.Keys, m.nodes.Keys);
    assert goal <= m2.nodes.Keys;
    assert {} !in m2.configs;
  }

  /** What an accepted change says about its result. */
  lemma AcceptedIs(m: Membership, c: Change, retain: bool)
    requires |Target(m, c).configs| > 0 && Changed(m, c, retain).Ok?
    ensures var m' := Changed(m, c, retain).value;
            && m'.configs == FindCoherent(m.configs, LastConfig(Target(m, c)))
            && m'.nodes.Keys <= Target(m, c).nodes.Keys
            && VoterIds(m'.configs) <= m'.nodes.Keys && {} !in m'.configs
  {
    var m' := Changed(m, c, retain).value;
    var missing := VoterIds(m'.configs) - m'.nodes.Keys;
    assert EnsureValid(m') == Ok(());
    assert forall id :: id in VoterIds(m'.configs) ==> id in missing || id in m'.nodes;
  }

  /** Members that survived an edit once survive it again. */
  lemma EditKeepsMembers(e: Edit, goal: set<NodeId>, after: set<NodeId>, before: set<NodeId>)
    requires goal <= after <= Apply(e, before)
    ensures goal <= Apply(e, after)
  {
  }

  /** Every accepted change keeps a child of the config it came from, so that any quorum of one and
      any quorum of the other have a member in common. */
  lemma ChangeIsCoherent(m: Membership, c: Change, retain: bool, a: set<NodeId>, b: set<NodeId>)
    requires |m.configs| > 0 && |Target(m, c).configs| > 0 && Changed(m, c, retain).Ok?
    requires IsQuorum(m.configs, a) && IsQuorum(Changed(m, c, retain).value.configs, b)
    ensures exists child :: child in m.configs && child in Changed(m, c, retain).value.configs
    ensures exists q :: q in a && q in b
  {
    var goal, next := LastConfig(Target(m, c)), Changed(m, c, retain).value.configs;
    var child := if goal in m.configs then goal else m.configs[|m.configs| - 1];
    assert child in m.configs && child in next;
    var q := SharedChildIntersects(m.configs, next, child, a, b);
  }

  /** An accepted change leaves a config in which every child has a voter and every voter a node. */
  lemma ChangeIsValid(m: Membership, c: Change, retain: bool)
    requires |Target(m, c).configs| > 0 && Changed(m, c, retain).Ok?
    ensures var m' := Changed(m, c, retain).value;
            && |m'.configs| > 0 && (forall i :: 0 <= i < |m'.configs| ==> m'.configs[i] != {})
            && (forall i, id :: 0 <= i < |m'.configs| && id in m'.configs[i] ==> id in m'.nodes)
  {
    var m' := Changed(m, c, retain).value;
    AcceptedIs(m, c, retain);
    forall i, id | 0 <= i < |m'.configs| && id in m'.configs[i] ensures id in m'.nodes {
      assert id in VoterIds(m'.configs);
    }
  }

  // ----- What is accepted, and what it leaves -------------------------------------

  /** `id` is in some child. */
  ghost predicate Votes(configs: seq<set<NodeId>>, id: NodeId) {
    exists i :: 0 <= i < |configs| && id in configs[i]
  }

  /** The step towards `goal`: alone when it is a child already or there is none, otherwise joined to the last one. */
  ghost predicate StepsTo(configs: seq<set<NodeId>>, goal: set<NodeId>, next: seq<set<NodeId>>) {
    if |configs| == 0 || exists i :: 0 <= i < |configs| && configs[i] == goal then next == [goal]
    else next == [configs[|configs| - 1], goal]
  }

  /** A node stays unless it is a voter no more and is not retained. */
  ghost predicate Stays(before: seq<set<NodeId>>, next: seq<set<NodeId>>, retain: bool, id: NodeId) {
    retain || !Votes(before, id) || Votes(next, id)
  }

  lemma VotesIs(configs: seq<set<NodeId>>, id: NodeId)
    ensures id in VoterIds(configs) <==> Votes(configs, id)
  {
    if id in VoterIds(configs) {
      var c :| c in configs && id in c;
      var i :| 0 <= i < |configs| && configs[i] == c;
    }
  }

  /** The config and the nodes an accepted change leaves: one step towards the edited config, and of the nodes the
      change makes those that stay. */
  lemma ChangeLeaves(m: Membership, c: Change, retain: bool)
    requires |Target(m, c).configs| > 0 && Changed(m, c, retain).Ok?
    ensures var m', t := Changed(m, c, retain).value, Target(m, c);
            && StepsTo(m.configs, Apply(VoterEdit(c), LastConfig(m)), m'.configs)
            && (forall id :: id in m'.nodes <==> id in t.nodes && Stays(m.configs, m'.configs, retain, id))
            && (forall id :: id in m'.nodes ==> m'.nodes[id] == t.nodes[id])
  {
    hide VoterIds;
    TargetIsEdit(m, c);
    var m' := Changed(m, c, retain).value;
    forall id ensures id in m'.nodes <==> id in Target(m, c).nodes && Stays(m.configs, m'.configs, retain, id) {
      VotesIs(m.configs, id);
      VotesIs(m'.configs, id);
    }
  }

  /** A change is accepted exactly when the next config has no empty child and every voter of it a node after the change;
      otherwise an empty child is reported first, and then the least voter without a node. */
  lemma AcceptedExactly(m: Membership, c: Change, retain: bool, next: seq<set<NodeId>>)
    requires |Target(m, c).configs| > 0 && StepsTo(m.configs, Apply(VoterEdit(c), LastConfig(m)), next)
    ensures Changed(m, c, retain).Ok? <==>
              (forall i :: 0 <= i < |next| ==> next[i] != {}) && forall id :: Votes(next, id) ==> id in Target(m, c).nodes
    ensures Changed(m, c, retain) == Err(EmptyMembership) <==> exists i :: 0 <= i < |next| && next[i] == {}
    ensures Changed(m, c, retain).Err? && Changed(m, c, retain).error.NodeNotFound? ==>
              var x := Changed(m, c, retain).error.id;
              && Votes(next, x) && x !in Target(m, c).nodes
              && forall id :: Votes(next, id) && id !in Target(m, c).nodes ==> x <= id
  {
    hide VoterIds;
    TargetIsEdit(m, c);
    var t := Target(m, c);
    var m' := NextCoherent(m.(nodes := t.nodes), LastConfig(t), retain);
    assert m'.configs == next;
    var missing := VoterIds(next) - m'.nodes.Keys;
    forall id ensures id in missing <==> Votes(next, id) && id !in t.nodes {
      VotesIs(m.configs, id);
      VotesIs(next, id);
    }
    if missing != {} {
      LeastExists(missing);
    }
  }

  // ----- Addresses ----------------------------------------------------------------

  /** Setting nodes overrides those of ids that have one, and leaves all others; replacing leaves only the new ones. */
  lemma NodesAreSet(m: Membership, nodes: map<NodeId, NodeInfo>, id: NodeId)
    ensures var t := Target(m, SetNodes(nodes));
            && (id in t.nodes <==> id in m.nodes || id in nodes)
            && (id in t.nodes ==> t.nodes[id] == if id in nodes then nodes[id] else m.nodes[id])
            && t.configs == m.configs
    ensures Target(m, ReplaceAllNodes(nodes)) == Membership(m.configs, nodes)
  {
  }

  /** Which ids vote after each change of voters; which have a node after nodes are removed. */
  lemma VotersAreChanged(m: Membership, ids: set<NodeId>, nodes: map<NodeId, NodeInfo>, id: NodeId)
    ensures id in LastConfig(Target(m, AddVoterIds(ids))) <==> id in LastConfig(m) || id in ids
    ensures id in LastConfig(Target(m, AddVoters(nodes))) <==> id in LastConfig(m) || id in nodes
    ensures id in LastConfig(Target(m, RemoveVoters(ids))) <==> id in LastConfig(m) && id !in ids
    ensures id in LastConfig(Target(m, ReplaceAllVoters(ids))) <==> id in ids
    ensures id in Target(m, RemoveNodes(ids)).nodes <==> id in m.nodes && id !in ids
    ensures Target(m, RemoveNodes(ids)).configs == m.configs && Target(m, RemoveVoters(ids)).nodes == m.nodes
  {
  }

  /** A voter or node that is added gets the node given for it, unless its id has one. */
  lemma NodesAreAdded(m: Membership, nodes: map<NodeId, NodeInfo>, id: NodeId)
    requires id in nodes
    ensures var t := Target(m, AddNodes(nodes));
            t.configs == m.configs && id in t.nodes && t.nodes[id] == if id in m.nodes then m.nodes[id] else nodes[id]
    ensures var t := Target(m, AddVoters(nodes));
            id in LastConfig(t) && id in t.nodes && t.nodes[id] == if id in m.nodes then m.nodes[id] else nodes[id]
  {
  }

  /** The change never sets, removes or replaces nodes. */
  predicate OnlyAdds(c: Change)
    decreases c
  {
    match c
    case SetNodes(_) => false
    case RemoveNodes(_) => false
    case ReplaceAllNodes(_) => false
    case Batch(changes) => OnlyAddsAll(changes)
    case _ => true
  }

  predicate OnlyAddsAll(cs: seq<Change>)
    decreases cs
  {
    |cs| == 0 || (OnlyAdds(cs[0]) && OnlyAddsAll(cs[1..]))
  }

  /** Adding never changes the node of an id that already has one. */
  lemma {:induction false} AddressesStay(m: Membership, c: Change)
    requires OnlyAdds(c)
    ensures forall id :: id in m.nodes ==> id in Target(m, c).nodes && Target(m, c).nodes[id] == m.nodes[id]
    decreases c
  {
    match c {
      case Batch(changes) => AddressesStayAll(m, changes);
      case _ =>
    }
  }

  lemma {:induction false} AddressesStayAll(m: Membership, cs: seq<Change>)
    requires OnlyAddsAll(cs)
    ensures forall id :: id in m.nodes ==> id in TargetAll(m, cs).nodes && TargetAll(m, cs).nodes[id] == m.nodes[id]
    decreases cs
  {
    if |cs| > 0 {
      AddressesStay(m, cs[0]);
      AddressesStayAll(Target(m, cs[0]), cs[1..]);
    }
  }

  // ----- The same, step by step ---------------------------------------------------

  /** `extend_nodes`: nodes that are there already are not replaced. */
  method ExtendNodes(present: map<NodeId, NodeInfo>, more: map<NodeId, NodeInfo>) returns (res: map<NodeId, NodeInfo>)
    ensures res == more + present
  {
    res := present;
    var left := more.Keys;
    while left != {}
      invariant left <= more.Keys
      invariant Extended(present, more, left, res)
      decreases |left|
    {
      var id :| id in left;
      if id !in res {
        ExtendedInsert(present, more, left, res, id);
        res := res[id := more[id]];
      } else {
        ExtendedSkip(present, more, left, res, id);
      }
      left := left - {id};
    }
    ExtendedAll(present, more, res);
  }

  /** All of `more` except `left` has been taken over. */
  ghost predicate Extended(present: map<NodeId, NodeInfo>, more: map<NodeId, NodeInfo>, left: set<NodeId>,
                           res: map<NodeId, NodeInfo>)
  {
    && (forall id :: id in res <==> id in present || (id in more && id !in left))
    && (forall id :: id in present && id in res ==> res[id] == present[id])
    && (forall id :: id in more && id in res && id !in present ==> res[id] == more[id])
  }

  lemma ExtendedInsert(present: map<NodeId, NodeInfo>, more: map<NodeId, NodeInfo>, left: set<NodeId>,
                       res: map<NodeId, NodeInfo>, id: NodeId)
    requires Extended(present, more, left, res) && id in left && id in more && id !in res
    ensures Extended(present, more, left - {id}, res[id := more[id]])
  {
  }

  lemma ExtendedSkip(present: map<NodeId, NodeInfo>, more: map<NodeId, NodeInfo>, left: set<NodeId>,
                     res: map<NodeId, NodeInfo>, id: NodeId)
    requires Extended(present, more, left, res) && id in left && id in more && id in res
    ensures Extended(present, more, left - {id}, res)
  {
  }

  lemma ExtendedAll(present: map<NodeId, NodeInfo>, more: map<NodeId, NodeInfo>, res: map<NodeId, NodeInfo>)
    requires Extended(present, more, {}, res)
    ensures res == more + present
  {
    assert forall id :: id in res <==> id in more + present;
    assert forall id :: id in res ==> res[id] == (more + present)[id];
  }

  method IsVoter(m: Membership, id: NodeId) returns (r: bool)
    ensures r <==> id in VoterIds(m.configs)
  {
    for i := 0 to |m.configs|
      invariant forall k :: 0 <= k < i ==> id !in m.configs[k]
    {
      if id in m.configs[i] {
        return true;
      }
    }
    return false;
  }

  /** `is_coherent_with` for two joint configs. */
  method IsCoherent(a: seq<set<NodeId>>, b: seq<set<NodeId>>) returns (r: bool)
    ensures r <==> exists child :: child in a && child in b
  {
    for i := 0 to |a|
      invariant forall k :: 0 <= k < i ==> a[k] !in b
    {
      for j := 0 to |b|
        invariant forall k :: 0 <= k < j ==> b[k] != a[i]
      {
        if a[i] == b[j] {
          assert a[i] in a && b[j] in b;
          return true;
        }
      }
    }
    return false;
  }

  method EnsureNonEmpty(m: Membership) returns (ok: bool)
    ensures ok <==> !HasEmpty(m.configs)
  {
    for i := 0 to |m.configs|
      invariant forall k :: 0 <= k < i ==> m.configs[k] != {}
    {
      if m.configs[i] == {} {
        assert m.configs[i] in m.configs;
        return false;
      }
    }
    return true;
  }

  lemma VotersAreUnion(configs: seq<set<NodeId>>)
    ensures Union(configs) == VoterIds(configs)
  {
    forall id | id in VoterIds(configs) ensures id in Union(configs) {
      var c :| c in configs && id in c;
      var i :| 0 <= i < |configs| && configs[i] == c;
    }
  }

  lemma LeastIs(s: set<NodeId>, id: NodeId)
    requires id in s && forall y :: y in s ==> id <= y
    ensures LeastId(s) == id
  {
  }

  /** Looks at the voters in ascending order and reports the first one without a node. */
  method EnsureVoterNodes(m: Membership) returns (missing: Option<NodeId>)
    ensures var none := VoterIds(m.configs) - m.nodes.Keys;
            missing == if none == {} then None else Some(LeastId(none))
  {
    hide VoterIds, Union, LeastId;
    var left := JointIds(m.configs);
    VotersAreUnion(m.configs);
    ghost var all := left;
    while left != {}
      invariant left <= all && all - m.nodes.Keys <= left
      decreases |left|
    {
      LeastExists(left);
      var id :| id in left && forall y :: y in left ==> id <= y;
      if id !in m.nodes {
        LeastIs(all - m.nodes.Keys, id);
        return Some(id);
      }
      left := left - {id};
    }
    return None;
  }

  method EnsureValidNow(m: Membership) returns (r: Result<()>)
    ensures r == EnsureValid(m)
  {
    var ok := EnsureNonEmpty(m);
    if !ok {
      return Err(EmptyMembership);
    }
    var missing := EnsureVoterNodes(m);
    if missing.Some? {
      return Err(NodeNotFound(missing.value));
    }
    return Ok(());
  }

  /** `compute_target_membership`, consuming and rebuilding the membership. */
  method ComputeTarget(start: Membership, c: Change) returns (m: Membership)
    ensures m == Target(start, c)
    decreases c
  {
    m := start;
    var last := LastConfig(m);
    match c {
      case AddVoterIds(ids) =>
        m := m.(configs := [last + ids]);
      case AddVoters(voters) =>
        var nodes := ExtendNodes(m.nodes, voters);
        m := m.(nodes := nodes);
        m := m.(configs := [last + voters.Keys]);
      case RemoveVoters(ids) =>
        m := m.(configs := [last - ids]);
      case ReplaceAllVoters(ids) =>
        m := m.(configs := [ids]);
      case AddNodes(nodes) =>
        var all := ExtendNodes(m.nodes, nodes);
        m := m.(nodes := all);
      case SetNodes(nodes) =>
        m := m.(nodes := m.nodes + nodes);
      case RemoveNodes(ids) =>
        m := m.(nodes := m.nodes - ids);
      case ReplaceAllNodes(nodes) =>
        m := m.(nodes := nodes);
      case Batch(changes) =>
        for i := 0 to |changes|
          invariant TargetAll(m, changes[i..]) == TargetAll(start, changes)
        {
          m := ComputeTarget(m, changes[i]);
          assert changes[i..][1..] == changes[i + 1..];
        }
    }
  }

  /** `change`. */
  method ChangeMembership(m: Membership, c: Change, retain: bool) returns (r: Result<Membership>)
    requires |Target(m, c).configs| > 0
    ensures r == Changed(m, c, retain)
  {
    var t := ComputeTarget(m, c);
    var goal := t.configs[|t.configs| - 1];
    var next := NextCoherent(m.(nodes := t.nodes), goal, retain);
    var valid := EnsureValidNow(next);
    match valid {
      case Ok(_) => return Ok(next);
      case Err(e) => return Err(e);
    }
  }
}
