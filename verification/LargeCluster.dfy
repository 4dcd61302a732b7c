/** Clusters of one majority of four voters or more: two leaders, one after the other, and what they and their followers
    do. For building runs, in any number of voters. */
module LargeCluster {
  import opened Ids
  import opened Quorum
  import opened ProgressSpec
  import opened ProgressRuns
  import F = ProgressFaults
  import opened ProgressSplit
  import opened EngineSpec
  import B = Ballots
  import opened Cluster
  import opened ClusterVotes
  import opened LeaderProgress
  import opened TrackedCluster
  import R = TrackedRuns

  // ----- The roles ----------------------------------------------------------------

  /** One majority of four voters or more. */
  ghost predicate Large(cfg: Config) {
    cfg.Valid() && |cfg.joint| == 1 && |cfg.joint[0]| >= 4
  }

  ghost function Voters(cfg: Config): (ids: seq<NodeId>)
    requires Large(cfg)
    ensures |ids| == |cfg.joint[0]| && SetOf(ids) == cfg.joint[0] && NoDuplicates(ids)
  {
    SortedIdsAre(cfg.joint[0]);
    SortedIds(cfg.joint[0])
  }

  ghost function Front(cfg: Config): (k: nat)
    requires Large(cfg)
    ensures k + 4 <= |Voters(cfg)|
  {
    Before(|Voters(cfg)|)
  }

  /** The four voters in the middle: 0 is the first leader, 1 the second. */
  ghost function Role(cfg: Config, i: nat): (q: NodeId)
    requires Large(cfg) && i < 4
    ensures q == Voters(cfg)[Front(cfg) + i]
  {
    Voters(cfg)[Front(cfg) + i]
  }

  /** The voters after those two. */
  ghost function Tail(cfg: Config): (ids: seq<NodeId>)
    requires Large(cfg)
    ensures |ids| == |Voters(cfg)| - Front(cfg) - 2 && ids == Voters(cfg)[Front(cfg) + 2..]
  {
    Voters(cfg)[Front(cfg) + 2..]
  }

  /** Enough voters to elect the second leader, none of them the first. */
  ghost function Later(cfg: Config): (ids: seq<NodeId>)
    requires Large(cfg)
    ensures |ids| == |Voters(cfg)| / 2 && ids <= Tail(cfg)
  {
    Tail(cfg)[..|Voters(cfg)| / 2]
  }

  /** Enough voters to elect the first leader. */
  ghost function Former(cfg: Config): (ids: seq<NodeId>)
    requires Large(cfg)
    ensures |ids| == |Voters(cfg)| / 2
  {
    var ids, k := Voters(cfg), Front(cfg);
    (ids[..k] + ids[k + 1..])[..|ids| / 2]
  }

  lemma {:induction false} SetOfSize(ids: seq<NodeId>)
    requires NoDuplicates(ids)
    ensures |SetOf(ids)| == |ids|
  {
    if |ids| > 0 {
      var init, x := ids[..|ids| - 1], ids[|ids| - 1];
      SetOfSize(init);
      assert ids == init + [x];
      assert SetOf(ids) == SetOf(init) + {x} && x !in init;
    }
  }

  /** Some voters, listed without repetition. */
  ghost predicate Picked(cfg: Config, gs: seq<NodeId>)
    requires Large(cfg)
  {
    NoDuplicates(gs) && forall x :: x in gs ==> x in cfg.joint[0]
  }

  lemma QuorumSize(cfg: Config, q: NodeId, gs: seq<NodeId>)
    requires Large(cfg) && Picked(cfg, gs) && q in cfg.joint[0] && q !in gs
    ensures IsQuorum(cfg.joint, {q} + SetOf(gs)) <==> 2 * (|gs| + 1) > |Voters(cfg)|
  {
    SetOfSize(gs);
    F.OneChild(cfg.joint, {q} + SetOf(gs));
    assert ({q} + SetOf(gs)) * cfg.joint[0] == {q} + SetOf(gs);
  }

  lemma AreVoters(cfg: Config)
    requires Large(cfg)
    ensures forall x :: x in cfg.joint[0] ==> x in cfg.members && cfg.IsVoter(x) && !cfg.IsOnlyVoter(x)
  {
    hide SortedIds;
    var ids := Voters(cfg);
    assert ids[0] in SetOf(ids) && ids[1] in SetOf(ids) && ids[0] != ids[1];
    assert cfg.joint[0] <= cfg.members;
    forall x | x in cfg.joint[0] ensures cfg.IsVoter(x) {
    }
  }

  lemma RolesAre(cfg: Config)
    requires Large(cfg)
    ensures forall i, j :: 0 <= i < j < 4 ==> Role(cfg, i) != Role(cfg, j)
    ensures forall i :: 0 <= i < 4 ==> Role(cfg, i) in cfg.joint[0]
  {
    hide SortedIds, Front;
    var ids := Voters(cfg);
    assert forall i :: 0 <= i < |ids| ==> ids[i] in SetOf(ids);
  }

  /** Ids at ascending positions among the voters. */
  lemma PickedVoters(cfg: Config, gs: seq<NodeId>, at: seq<nat>)
    requires Large(cfg) && |gs| == |at|
    requires forall i :: 0 <= i < |gs| ==> at[i] < |Voters(cfg)| && gs[i] == Voters(cfg)[at[i]]
    requires forall i, j :: 0 <= i < j < |gs| ==> at[i] < at[j]
    ensures Picked(cfg, gs)
    ensures forall k :: 0 <= k < |Voters(cfg)| && k !in at ==> Voters(cfg)[k] !in gs
  {
    hide SortedIds;
    var ids := Voters(cfg);
    assert forall i :: 0 <= i < |ids| ==> ids[i] in SetOf(ids);
  }

  lemma LaterAre(cfg: Config)
    requires Large(cfg)
    ensures Picked(cfg, Later(cfg)) && Role(cfg, 0) !in Later(cfg) && Role(cfg, 1) !in Later(cfg)
  {
    hide SortedIds, SetOf;
    var n, k := |Voters(cfg)|, Front(cfg);
    PickedVoters(cfg, Later(cfg), seq(n / 2, i requires 0 <= i < n / 2 => k + 2 + i));
  }

  lemma FormerAre(cfg: Config)
    requires Large(cfg)
    ensures Picked(cfg, Former(cfg)) && Role(cfg, 0) !in Former(cfg)
  {
    hide SortedIds, SetOf;
    var n, k := |Voters(cfg)|, Front(cfg);
    PickedVoters(cfg, Former(cfg), seq(n / 2, i requires 0 <= i < n / 2 => if i < k then i else i + 1));
  }

  /** The voters before the four in the middle. */
  ghost function Ahead(cfg: Config): (ids: seq<NodeId>)
    requires Large(cfg)
    ensures |ids| == Front(cfg) && ids == Voters(cfg)[..Front(cfg)]
  {
    Voters(cfg)[..Front(cfg)]
  }

  lemma AheadAre(cfg: Config)
    requires Large(cfg)
    ensures Picked(cfg, Ahead(cfg)) && forall i :: 0 <= i < 4 ==> Role(cfg, i) !in Ahead(cfg)
    ensures forall x :: x in Later(cfg) ==> x !in Ahead(cfg)
  {
    hide SortedIds, SetOf;
    var k := Front(cfg);
    PickedVoters(cfg, Ahead(cfg), seq(k, i requires 0 <= i < k => i));
  }

  /** All voters and learners in the order of a new progress. */
  ghost function InOrder(cfg: Config): seq<NodeId>
    requires Large(cfg)
  {
    Voters(cfg) + Learners(cfg)
  }

  // ----- Votes, logs and times ----------------------------------------------------

  ghost function VoteA(cfg: Config): LeaderId
    requires Large(cfg)
  {
    LeaderId(1, Role(cfg, 0))
  }

  ghost function VoteB(cfg: Config): LeaderId
    requires Large(cfg)
  {
    LeaderId(2, Role(cfg, 1))
  }

  function Id(u: LeaderId, i: nat): Option<LogId> {
    Some(LogId(u, i))
  }

  function FirstTime(cfg: Config): nat {
    cfg.electionTimeout + 1
  }

  // ----- Followers ----------------------------------------------------------------

  /** The node follows, with `log`, and trusts no lease after `until`. */
  ghost predicate Trails(n: Node, u: LeaderId, log: Log, until: nat) {
    && n.log == log && n.committed == None && n.leader == None && !n.seenGreater
    && (n.announced.Some? ==> n.announced.value.logId == None)
    && R.VoteSaved(n) && VoteLe(n.vote, Vote(u, true))
    && (n.vote.committed ==> OptLe(IoLogId(n.accepted.value), LastId(log)))
    && n.utime.Some? && n.utime.value + n.lease <= until
  }

  lemma TrailsTakes(n: Node, u: LeaderId, v: LeaderId, log: Log, until: nat, entries: Log)
    requires Trails(n, u, log, until) && VoteLe(n.vote, Vote(v, true)) && log <= entries
             && OptLe(LastId(log), LastId(entries))
    ensures R.MayTake(n, v, entries)
  {
  }

  lemma TookTrails(cfg: Config, n: Node, u: LeaderId, log: Log, until: nat, entries: Log, now: nat)
    requires Trails(n, u, log, until)
    ensures var n' := R.TookAll(cfg, n, u, entries, now);
            n'.vote == Vote(u, true) && Trails(n', u, entries, now + cfg.leaderLease)
  {
  }

  lemma TrailsGrants(cfg: Config, x: NodeId, n: Node, u: LeaderId, log: Log, until: nat, v: LeaderId,
                     last: Option<LogId>, now: nat)
    requires Trails(n, u, log, until) && u.term < v.term && until < now && OptLe(LastId(log), last)
    ensures GrantsVote(cfg, x, n, Vote(v, false), last, now) && R.VoteSaved(n)
    ensures Trails(Following(cfg, n, Vote(v, false), now), v, log, now)
  {
  }

  lemma TrailsVote(n: Node, u: LeaderId, log: Log, until: nat)
    requires Trails(n, u, log, until)
    ensures VoteLe(n.vote, Vote(u, true))
  {
  }

  // ----- The start ----------------------------------------------------------------

  function Started(q: NodeId, log: Log): Node {
    Node(Vote(LeaderId(0, q), false), Some(0), 0, log, None, None, Some(VoteIo(LeaderId(0, q))), None, None, false)
  }

  /** The log of a node that was initialized: the entry that says who the voters are. Without it a node does not
      stand for election. */
  const FIRST: Log := [GENESIS]

  /** Both leaders to be were initialized, and the others are empty. */
  ghost function StartLog(cfg: Config, x: NodeId): Log
    requires Large(cfg)
  {
    if x == Role(cfg, 0) || x == Role(cfg, 1) then FIRST else []
  }

  ghost function Begin(cfg: Config): Tracked
    requires Large(cfg)
  {
    var nodes := map q | q in cfg.members :: Started(q, StartLog(cfg, q));
    var h := B.History(map q | q in nodes :: nodes[q].vote.leader, map q | q in nodes :: nodes[q].log,
                       map[GENESIS := []], map[GENESIS := B.Election({}, FIRST)], {}, {});
    Tracked(Sys(nodes, {}, 0, h), map[], false)
  }

  lemma BeginReachable(cfg: Config)
    requires Large(cfg)
    ensures R.Reachable(cfg, Begin(cfg)) && Begin(cfg).sys.nodes.Keys == cfg.members && Begin(cfg).tracks == map[]
    ensures Begin(cfg).sys.now == 0
    ensures forall x :: x in cfg.members ==>
              Begin(cfg).sys.nodes[x] == Started(x, StartLog(cfg, x))
  {
    hide Role;
    assert IsTrackedRun(cfg, [Begin(cfg)]);
  }

  lemma StartedTrails(q: NodeId, log: Log, a: LeaderId, until: nat)
    requires a.term > 0
    ensures Trails(Started(q, log), a, log, until)
  {
  }

  lemma StartedGrants(cfg: Config, q: NodeId, log: Log, v: LeaderId, last: Option<LogId>, now: nat)
    requires v.term > 0 && OptLe(LastId(log), last)
    ensures GrantsVote(cfg, q, Started(q, log), Vote(v, false), last, now) && R.VoteSaved(Started(q, log))
    ensures Trails(Following(cfg, Started(q, log), Vote(v, false), now), v, log, now)
  {
  }

  lemma StartedIs(q: NodeId)
    ensures Started(q, FIRST).log == FIRST && Started(q, FIRST).committed == None
  {
  }

  lemma TrailsLonger(n: Node, u: LeaderId, log: Log, until: nat, later: nat)
    requires Trails(n, u, log, until) && until <= later
    ensures Trails(n, u, log, later)
  {
  }

  // ----- Leaders ------------------------------------------------------------------

  /** `q` leads with vote `u` and the log `log`, and its track agrees with what it was told. */
  ghost predicate Leads(cfg: Config, c: Tracked, q: NodeId, u: LeaderId, log: Log, committed: Option<LogId>) {
    && R.Reachable(cfg, c) && c.sys.nodes.Keys == cfg.members && q in cfg.members && q in c.tracks && u.node == q
    && var n := c.sys.nodes[q];
       && n.vote == Vote(u, true) && n.log == log && n.committed == committed
       && n.leader.Some? && n.leader.value.id == u
       && Tracks(cfg, c.tracks[q].log, n.leader.value.progress)
  }

  /** Only the node `q` and its track have changed. */
  ghost predicate OnlyLeader(c: Tracked, c': Tracked, q: NodeId) {
    && R.Continues(c, c')
    && (forall x :: x in c.sys.nodes && x != q ==> c'.sys.nodes[x] == c.sys.nodes[x])
    && forall x :: x in c.tracks && x != q ==> x in c'.tracks && c'.tracks[x] == c.tracks[x]
  }

  lemma WinningLeads(cfg: Config, c: Tracked, q: NodeId, n: Node, v: LeaderId)
    requires cfg.Valid() && R.Reachable(cfg, c) && c.sys.nodes.Keys == cfg.members && q in cfg.members && v.node == q
    requires n.committed == None && c.sys.nodes[q] == Winning(cfg, n, v, c.sys.now)
    requires q in c.tracks && c.tracks[q] == NewTrack(cfg)
    ensures Leads(cfg, c, q, v, n.log + [v], None)
  {
    hide R.Reachable, Tracks, NewTrack, ClockOkOf;
    NewTrackOk(cfg, q, c.sys.now, c.sys.nodes[q].leader.value);
  }

  lemma StandingIs(n: Node, v: LeaderId, now: nat)
    ensures Standing(n, v, now).log == n.log && Standing(n, v, now).committed == n.committed
  {
  }

  lemma WinningNoop(cfg: Config, n: Node, v: LeaderId, now: nat)
    requires |n.log| > 0 && n.log[|n.log| - 1] != v
    ensures Winning(cfg, n, v, now).leader.value.noop == LogId(v, |n.log|)
  {
  }

  /** The first leader is elected. */
  lemma FirstElected(cfg: Config) returns (c: Tracked)
    requires Large(cfg)
    ensures c.sys.now == FirstTime(cfg) && Leads(cfg, c, Role(cfg, 0), VoteA(cfg), [GENESIS, VoteA(cfg)], None)
    ensures c.tracks == map[Role(cfg, 0) := NewTrack(cfg)]
    ensures c.sys.nodes[Role(cfg, 0)].leader.value.noop == LogId(VoteA(cfg), 1)
    ensures forall x :: x in cfg.members && x != Role(cfg, 0) ==>
              Trails(c.sys.nodes[x], VoteA(cfg), StartLog(cfg, x), FirstTime(cfg))
  {
    hide R.Reachable, R.MayGrant, R.MayStand, Trails, Following, Winning, NewTrack, IsQuorum, Former, Role,
        SortedIds, Leads, Begin, Standing, Started;
    var q, a, t, gs := Role(cfg, 0), VoteA(cfg), FirstTime(cfg), Former(cfg);
    RolesAre(cfg);
    AreVoters(cfg);
    FormerAre(cfg);
    BeginReachable(cfg);
    var c0 := R.Wait(cfg, Begin(cfg), t);
    FirstMayStand(cfg, c0);
    forall x | x in gs ensures R.MayGrant(cfg, c0, x, a, FIRST) {
      FirstMayGrant(cfg, c0, x);
    }
    QuorumSize(cfg, q, gs);
    QuorumSize(cfg, q, gs[..|gs| - 1]);
    c := R.ElectBy(cfg, c0, q, gs);
    StandingIs(Started(q, FIRST), a, t);
    StartedIs(q);
    WinningNoop(cfg, Standing(Started(q, FIRST), a, t), a, t);
    WinningLeads(cfg, c, q, Standing(Started(q, FIRST), a, t), a);
    assert FIRST + [a] == [GENESIS, a];
    forall x | x in cfg.members && x != q ensures Trails(c.sys.nodes[x], a, StartLog(cfg, x), t) {
      StartedTrails(x, StartLog(cfg, x), a, t);
      StartedGrants(cfg, x, StartLog(cfg, x), a, LastId(FIRST), t);
    }
  }

  lemma FirstMayGrant(cfg: Config, c: Tracked, x: NodeId)
    requires Large(cfg) && c.sys == Begin(cfg).sys.(now := FirstTime(cfg)) && x in Former(cfg)
    ensures R.MayGrant(cfg, c, x, VoteA(cfg), FIRST)
  {
    hide Role, Former, Config.IsVoter, GrantsVote;
    FormerAre(cfg);
    AreVoters(cfg);
    StartedGrants(cfg, x, StartLog(cfg, x), VoteA(cfg), LastId(FIRST), c.sys.now);
  }

  lemma FirstMayStand(cfg: Config, c: Tracked)
    requires Large(cfg) && c.sys == Begin(cfg).sys.(now := FirstTime(cfg))
    ensures R.MayStand(cfg, c, Role(cfg, 0))
    ensures R.NextVote(c.sys.nodes[Role(cfg, 0)], Role(cfg, 0)) == VoteA(cfg)
    ensures c.sys.nodes[Role(cfg, 0)].log == FIRST
  {
    hide Role, Begin, Config.IsVoter, Config.IsOnlyVoter;
    BeginReachable(cfg);
    RolesAre(cfg);
    AreVoters(cfg);
  }

  // ----- Replication --------------------------------------------------------------

  /** All of `xs` take the first `count` entries of the leader. */
  lemma {:induction false} AppendAll(cfg: Config, c: Tracked, q: NodeId, u: LeaderId, log: Log, xs: seq<NodeId>,
                                     count: nat)
    returns (c': Tracked)
    requires Leads(cfg, c, q, u, log, None) && NoDuplicates(xs) && count <= |log|
    requires forall x :: x in xs ==> x in cfg.members && x != q && R.MayTake(c.sys.nodes[x], u, log[..count])
    ensures Leads(cfg, c', q, u, log, None) && R.Continues(c, c') && R.SameTracks(c, c')
    ensures forall x :: x in c.sys.nodes ==>
              c'.sys.nodes[x] ==
                if x in xs then R.TookAll(cfg, c.sys.nodes[x], u, log[..count], c.sys.now) else c.sys.nodes[x]
    ensures forall x :: x in xs ==> R.Matching(x, u, log[..count], c.sys.now) in c'.sys.net
    decreases |xs|
  {
    hide R.Reachable, R.MayTake, R.TookAll, Tracks;
    if xs == [] {
      c' := c;
    } else {
      var init, x := xs[..|xs| - 1], xs[|xs| - 1];
      assert xs == init + [x] && x !in init;
      var c1 := AppendAll(cfg, c, q, u, log, init, count);
      c' := R.AppendTo(cfg, c1, q, x, count);
    }
  }

  // ----- Reports ------------------------------------------------------------------

  ghost predicate Reporting(c: Tracked, x: NodeId, u: LeaderId, entries: Log, t: nat) {
    R.Matching(x, u, entries, t) in c.sys.net
  }

  ghost predicate HasReport(c: Tracked, x: NodeId, u: LeaderId, entries: Log) {
    exists t: nat :: Reporting(c, x, u, entries, t)
  }

  lemma StillTold(c: Tracked, c': Tracked, q: NodeId, u: LeaderId, log: Log, target: NodeId, i: nat)
    requires i < |log| && Told(c, q, u, log, target, i) && R.Continues(c, c')
    ensures Told(c', q, u, log, target, i)
  {
    if target != q {
      var t: nat :| Reporting(c, target, u, log[..i + 1], t);
      assert Reporting(c', target, u, log[..i + 1], t);
    }
  }

  /** The leader `q` was told that `target` has its entry `i`, or has flushed it itself. */
  ghost predicate Told(c: Tracked, q: NodeId, u: LeaderId, log: Log, target: NodeId, i: nat)
    requires i < |log|
  {
    target == q || HasReport(c, target, u, log[..i + 1])
  }

  /** What counting the report does. */
  ghost predicate Counted(cfg: Config, c: Tracked, c': Tracked, q: NodeId, u: LeaderId, log: Log, target: NodeId,
                          i: nat)
    requires q in c.tracks
  {
    var p' := Update(IdOrder(), c.tracks[q].log, target, Id(u, i));
    Leads(cfg, c', q, u, log, p'.accepted) && c'.tracks[q].log == p' && OnlyLeader(c, c', q)
  }

  lemma RaisedTo(n: Node, granted: Option<LogId>)
    requires OptLe(n.committed, granted) && (granted.Some? ==> granted.value.leader == n.vote.leader)
    ensures R.Raised(n, granted) == granted
  {
  }

  lemma ReportedLeads(cfg: Config, c: Tracked, c': Tracked, q: NodeId, u: LeaderId, log: Log, committed: Option<LogId>,
                      target: NodeId, i: nat)
    requires Leads(cfg, c, q, u, log, committed) && R.Reachable(cfg, c')
    requires R.Reported(c, c', q, target, Id(u, i)) && target in c.sys.nodes[q].leader.value.progress
    requires var g := Update(IdOrder(), c.tracks[q].log, target, Id(u, i)).accepted;
             OptLe(committed, g) && (g.Some? ==> g.value.leader == u)
    ensures Counted(cfg, c, c', q, u, log, target, i)
  {
    hide R.Reachable, Update, Value, IsVoter, Union, R.Raised;
    var p := c.tracks[q].log;
    var p' := Update(IdOrder(), p, target, Id(u, i));
    IdOrderIsTotal();
    RaisedTo(c.sys.nodes[q], p'.accepted);
    forall id ensures
        && Shape(p') && p'.quorumSet == p.quorumSet
        && Value(p', id) == (if id == target && Value(p, target).Some? then Some(Id(u, i)) else Value(p, id))
        && IsVoter(p', id) == IsVoter(p, id) {
      UpdateContents(IdOrder(), p, target, Id(u, i), id);
    }
  }

  /** The leader counts a report it was told of. */
  lemma CountReport(cfg: Config, c: Tracked, q: NodeId, u: LeaderId, log: Log, committed: Option<LogId>,
                    target: NodeId, i: nat)
    returns (c': Tracked)
    requires Leads(cfg, c, q, u, log, committed) && 0 < i < |log| && log[i] == u && Told(c, q, u, log, target, i)
    requires var w := Value(c.tracks[q].log, target); w.Some? && !OptLe(Id(u, i), w.value)
    requires var g := Update(IdOrder(), c.tracks[q].log, target, Id(u, i)).accepted;
             OptLe(committed, g) && (g.Some? ==> g.value.leader == u)
    ensures Counted(cfg, c, c', q, u, log, target, i)
  {
    hide R.Reachable, Update, Value, R.Reported, Counted;
    if target == q {
      c' := R.FlushOwn(cfg, c, q, LogId(u, i));
    } else {
      var t: nat :| Reporting(c, target, u, log[..i + 1], t);
      assert LastId(log[..i + 1]) == Id(u, i);
      c' := R.TakeReport(cfg, c, q, R.Matching(target, u, log[..i + 1], t));
    }
    ReportedLeads(cfg, c, c', q, u, log, committed, target, i);
  }

  // ----- A majority with one value ------------------------------------------------

  function Same(t: set<NodeId>, v: Option<LogId>): map<NodeId, Option<LogId>> {
    map x | x in t :: v
  }

  /** The voters `t`, and no others, have told the leader that they have its last entry. */
  ghost predicate Level(cfg: Config, c: Tracked, q: NodeId, u: LeaderId, t: set<NodeId>, i: nat)
    requires Large(cfg) && q in c.tracks
  {
    var p := c.tracks[q].log;
    && F.Raised(p, cfg.joint[0], None, Same(t, Id(u, i)))
    && Exact(IdOrder(), p, None) && Ordered(IdOrder(), p) && t <= cfg.joint[0]
  }

  /** What `t` makes the leader commit. */
  ghost function Decided(cfg: Config, u: LeaderId, t: set<NodeId>, i: nat): Option<LogId>
    requires Large(cfg)
  {
    if 2 * |t| > |cfg.joint[0]| then Id(u, i) else None
  }

  lemma LevelDecides(cfg: Config, p: LogProgress, u: LeaderId, t: set<NodeId>, i: nat)
    requires Large(cfg) && t <= cfg.joint[0] && F.Raised(p, cfg.joint[0], None, Same(t, Id(u, i)))
    requires Exact(IdOrder(), p, None)
    ensures p.accepted == Decided(cfg, u, t, i)
  {
    hide F.Raised, Exact;
    IdOrderIsTotal();
    var m := Same(t, Id(u, i));
    assert m.Keys == t;
    if 2 * |t| > |cfg.joint[0]| {
      F.MajorityReaches(IdOrder(), p, cfg.joint[0], None, m, Id(u, i));
    } else {
      F.StillDefaultAt(IdOrder(), p, cfg.joint[0], None, m);
    }
  }

  lemma CountLevel(cfg: Config, c: Tracked, q: NodeId, u: LeaderId, log: Log, t: set<NodeId>, x: NodeId, i: nat)
    returns (c': Tracked)
    requires Large(cfg) && Leads(cfg, c, q, u, log, Decided(cfg, u, t, i)) && 0 < i < |log| && log[i] == u
    requires Told(c, q, u, log, x, i) && Level(cfg, c, q, u, t, i) && x in cfg.joint[0] && x !in t
    ensures Leads(cfg, c', q, u, log, Decided(cfg, u, t + {x}, i)) && Level(cfg, c', q, u, t + {x}, i)
             && OnlyLeader(c, c', q)
  {
    hide R.Reachable, Update, Exact, Ordered, Value, Tracks, F.OneMajority;
    var p := c.tracks[q].log;
    var m := Same(t, Id(u, i));
    IdOrderIsTotal();
    F.RaiseFromDefault(IdOrder(), p, cfg.joint[0], None, m, x, Id(u, i));
    assert m[x := Id(u, i)] == Same(t + {x}, Id(u, i));
    LevelDecides(cfg, Update(IdOrder(), p, x, Id(u, i)), u, t + {x}, i);
    MoreDecide(cfg, u, t, x, i);
    c' := CountReport(cfg, c, q, u, log, Decided(cfg, u, t, i), x, i);
  }

  lemma MoreDecide(cfg: Config, u: LeaderId, t: set<NodeId>, x: NodeId, i: nat)
    requires Large(cfg) && x !in t
    ensures OptLe(Decided(cfg, u, t, i), Decided(cfg, u, t + {x}, i))
  {
  }

  lemma {:induction false} CountAll(cfg: Config, c: Tracked, q: NodeId, u: LeaderId, log: Log, t: set<NodeId>,
                                    xs: seq<NodeId>, i: nat) returns (c': Tracked)
    requires Large(cfg) && Leads(cfg, c, q, u, log, Decided(cfg, u, t, i)) && 0 < i < |log| && log[i] == u
    requires Level(cfg, c, q, u, t, i) && Picked(cfg, xs)
    requires forall x :: x in xs ==> x !in t && Told(c, q, u, log, x, i)
    ensures Leads(cfg, c', q, u, log, Decided(cfg, u, t + SetOf(xs), i)) && OnlyLeader(c, c', q)
    ensures Level(cfg, c', q, u, t + SetOf(xs), i)
    decreases |xs|
  {
    hide R.Reachable, Level, Decided, Tracks;
    if xs == [] {
      assert t + SetOf(xs) == t;
      c' := c;
    } else {
      var init, x := xs[..|xs| - 1], xs[|xs| - 1];
      assert xs == init + [x] && x !in init;
      var c1 := CountAll(cfg, c, q, u, log, t, init, i);
      assert t + SetOf(init) + {x} == t + SetOf(xs);
      StillTold(c, c1, q, u, log, x, i);
      c' := CountLevel(cfg, c1, q, u, log, t + SetOf(init), x, i);
    }
  }

  // ----- The second leader --------------------------------------------------------

  /** The voter that will be the second leader has the log `base`, those that will elect it no more, and no lease keeps
      any of them from it. */
  ghost predicate Ready(cfg: Config, c: Tracked, base: Log, until: nat)
    requires Large(cfg)
  {
    && R.Reachable(cfg, c) && c.sys.nodes.Keys == cfg.members && until + cfg.electionTimeout < c.sys.now
    && |base| > 0 && Lt(base[|base| - 1], VoteB(cfg))
    && Role(cfg, 1) in cfg.members && Trails(c.sys.nodes[Role(cfg, 1)], VoteA(cfg), base, until)
    && c.sys.nodes[Role(cfg, 1)].vote == Vote(VoteA(cfg), true)
    && forall x :: x in Later(cfg) ==> x in cfg.members && NotAhead(c.sys.nodes[x], VoteA(cfg), base, until)
  }

  ghost predicate NotAhead(n: Node, u: LeaderId, base: Log, until: nat) {
    Trails(n, u, n.log, until) && n.log <= base && OptLe(LastId(n.log), LastId(base))
  }

  /** The first leader and its track are as they were. */
  ghost predicate FirstStays(cfg: Config, c: Tracked, c': Tracked)
    requires Large(cfg)
  {
    && Role(cfg, 0) in c.sys.nodes && Role(cfg, 0) in c'.sys.nodes
    && c'.sys.nodes[Role(cfg, 0)] == c.sys.nodes[Role(cfg, 0)]
    && (Role(cfg, 0) in c.tracks ==> Role(cfg, 0) in c'.tracks && c'.tracks[Role(cfg, 0)] == c.tracks[Role(cfg, 0)])
    && c'.sys.now == c.sys.now
  }

  lemma SecondMayStand(cfg: Config, c: Tracked, base: Log, until: nat)
    requires Large(cfg) && Ready(cfg, c, base, until)
    ensures R.MayStand(cfg, c, Role(cfg, 1)) && R.NextVote(c.sys.nodes[Role(cfg, 1)], Role(cfg, 1)) == VoteB(cfg)
    ensures c.sys.nodes[Role(cfg, 1)].log == base && c.sys.nodes[Role(cfg, 1)].committed == None
  {
    hide Role, Later, R.Reachable, Config.IsVoter, Config.IsOnlyVoter;
    RolesAre(cfg);
    AreVoters(cfg);
  }

  lemma LaterMayGrant(cfg: Config, c: Tracked, base: Log, until: nat, x: NodeId)
    requires Large(cfg) && Ready(cfg, c, base, until) && x in Later(cfg)
    ensures x in c.sys.nodes && R.MayGrant(cfg, c, x, VoteB(cfg), base)
    ensures R.MayTake(Following(cfg, c.sys.nodes[x], Vote(VoteB(cfg), false), c.sys.now), VoteB(cfg),
        base + [VoteB(cfg)])
  {
    hide Role, Later, R.Reachable, Config.IsVoter, GrantsVote, Trails, Following, R.MayTake;
    LaterAre(cfg);
    AreVoters(cfg);
    var n, b := c.sys.nodes[x], VoteB(cfg);
    var n' := Following(cfg, n, Vote(b, false), c.sys.now);
    assert NotAhead(n, VoteA(cfg), base, until);
    TrailsGrants(cfg, x, n, VoteA(cfg), n.log, until, b, LastId(base), c.sys.now);
    TrailsVote(n', b, n.log, c.sys.now);
    BaseIsBelow(n.log, base, b);
    TrailsTakes(n', b, b, n.log, c.sys.now, base + [b]);
  }

  lemma BaseIsBelow(log: Log, base: Log, b: LeaderId)
    requires log <= base && |base| > 0 && OptLe(LastId(log), LastId(base)) && Lt(base[|base| - 1], b)
    ensures log <= base + [b] && OptLe(LastId(log), LastId(base + [b]))
  {
  }

  /** The second leader is elected. */
  lemma SecondElected(cfg: Config, c: Tracked, base: Log, until: nat) returns (c': Tracked)
    requires Large(cfg) && Ready(cfg, c, base, until)
    ensures Leads(cfg, c', Role(cfg, 1), VoteB(cfg), base + [VoteB(cfg)], None) && FirstStays(cfg, c, c')
    ensures Role(cfg, 1) in c'.tracks && c'.tracks[Role(cfg, 1)] == NewTrack(cfg)
    ensures forall x :: x in Later(cfg) ==>
              x in c'.sys.nodes && R.MayTake(c'.sys.nodes[x], VoteB(cfg), base + [VoteB(cfg)])
  {
    hide Role, Later, R.Reachable, Trails, Following, Standing, Winning, NewTrack, IsQuorum, R.MayStand, R.MayGrant,
        R.MayTake,
         NotAhead, Leads;
    var q, b, gs := Role(cfg, 1), VoteB(cfg), Later(cfg);
    RolesAre(cfg);
    AreVoters(cfg);
    LaterAre(cfg);
    SecondMayStand(cfg, c, base, until);
    forall x | x in gs ensures R.MayGrant(cfg, c, x, b, base) {
      LaterMayGrant(cfg, c, base, until, x);
    }
    QuorumSize(cfg, q, gs);
    QuorumSize(cfg, q, gs[..|gs| - 1]);
    c' := R.ElectBy(cfg, c, q, gs);
    StandingIs(c.sys.nodes[q], b, c.sys.now);
    WinningLeads(cfg, c', q, Standing(c.sys.nodes[q], b, c.sys.now), b);
    forall x | x in gs ensures x in c'.sys.nodes && R.MayTake(c'.sys.nodes[x], b, base + [b]) {
      LaterMayGrant(cfg, c, base, until, x);
    }
  }

  /** The second leader commits its own entry. */
  lemma SecondCommit(cfg: Config, c: Tracked, base: Log, until: nat) returns (c': Tracked)
    requires Large(cfg) && Ready(cfg, c, base, until)
    ensures Leads(cfg, c', Role(cfg, 1), VoteB(cfg), base + [VoteB(cfg)], Id(VoteB(cfg), |base|))
             && FirstStays(cfg, c, c')
  {
    hide Role, Later, R.Reachable, NewTrack, R.MayTake, R.TookAll, Leads, Level, IsQuorum, Ready;
    var q, b, gs, i := Role(cfg, 1), VoteB(cfg), Later(cfg), |base|;
    var log := base + [b];
    RolesAre(cfg);
    AreVoters(cfg);
    LaterAre(cfg);
    assert i > 0 by {
      BaseIsSome(cfg, c, base, until);
    }
    var c0 := SecondElected(cfg, c, base, until);
    assert log[..i + 1] == log;
    var c1 := AppendAll(cfg, c0, q, b, log, gs, i + 1);
    forall x | x in gs ensures Told(c1, q, b, log, x, i) {
      assert Reporting(c1, x, b, log[..i + 1], c0.sys.now);
    }
    NewIsLevel(cfg, c1, i);
    var c2 := CountLevel(cfg, c1, q, b, log, {}, q, i);
    assert {} + {q} == {q};
    forall x | x in gs ensures Told(c2, q, b, log, x, i) {
      StillTold(c1, c2, q, b, log, x, i);
    }
    c' := CountAll(cfg, c2, q, b, log, {q}, gs, i);
    SetOfSize(gs);
  }

  lemma BaseIsSome(cfg: Config, c: Tracked, base: Log, until: nat)
    requires Large(cfg) && Ready(cfg, c, base, until)
    ensures |base| > 0
  {
  }

  lemma NewIsLevel(cfg: Config, c: Tracked, i: nat)
    requires Large(cfg) && Role(cfg, 1) in c.tracks && c.tracks[Role(cfg, 1)] == NewTrack(cfg)
    ensures Level(cfg, c, Role(cfg, 1), VoteB(cfg), {}, i) && Decided(cfg, VoteB(cfg), {}, i) == None
  {
    hide Role, Learners, New, F.Raised, Exact, Ordered;
    IdOrderIsTotal();
    UnionIsMembers(cfg);
    assert cfg.joint == [cfg.joint[0]];
    F.NewIsRaised(IdOrder(), cfg.joint[0], Learners(cfg), None);
    assert Same({}, Id(VoteB(cfg), i)) == map[];
  }
}
