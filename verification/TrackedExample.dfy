/** A run of the code on three nodes: it elects a leader, replicates and commits its entry, and serves a read
    under a lease. */
module TrackedExample {
  import opened Ids
  import opened Quorum
  import opened EngineSpec
  import opened ProgressSpec
  import opened ProgressFaults
  import B = Ballots
  import opened Cluster
  import opened Elections
  import opened ClusterVotes
  import opened ClusterReads
  import opened LeaderProgress
  import opened TrackedCluster
  import opened TrackedSafety
  import opened TrackedReads
  import R = TrackedRuns

  const THREE := Config([{0, 1, 2}], {0, 1, 2}, 10, 20, 5)

  const FIRST := LeaderId(1, 0)

  /** The log of the leader: the first entry and its own blank one. */
  const BOTH := [GENESIS, FIRST]

  function Started(q: NodeId, log: Log): Node {
    Node(Vote(LeaderId(0, q), false), Some(0), 0, log, None, None, Some(VoteIo(LeaderId(0, q))), None, None, false)
  }

  /** Node 0 was initialized: it holds the entry that says who the voters are. The others are empty. */
  function AllStarted(): map<NodeId, Node> {
    map[0 := Started(0, [GENESIS]), 1 := Started(1, []), 2 := Started(2, [])]
  }

  ghost function Begin(): Tracked {
    var nodes := AllStarted();
    var h := B.History(map q | q in nodes :: nodes[q].vote.leader, map q | q in nodes :: nodes[q].log,
                       map[GENESIS := []], map[GENESIS := B.Election({}, [GENESIS])], {}, {});
    Tracked(Sys(nodes, {}, 0, h), map[], false)
  }

  lemma BeginReachable()
    ensures R.Reachable(THREE, Begin()) && Begin().sys.nodes == AllStarted() && Begin().sys.nodes.Keys == {0, 1, 2}
    ensures Begin().sys.now == 0 && Begin().tracks == map[] && !Begin().skipped
  {
    assert Begin().sys.nodes.Keys == {0, 1, 2};
    assert IsTrackedRun(THREE, [Begin()]);
  }

  lemma Voters()
    ensures forall q :: q in {0, 1, 2} ==> THREE.IsVoter(q)
    ensures forall q :: !THREE.IsOnlyVoter(q)
  {
    assert THREE.joint[0] == {0, 1, 2};
    assert THREE.IsVoter(0) && THREE.IsVoter(1);
  }

  lemma TwoDecide(ids: set<NodeId>)
    ensures !IsQuorum(THREE.joint, {} + {0})
    ensures {0, 1} <= ids ==> IsQuorum(THREE.joint, ids)
  {
    var all: set<NodeId> := {0, 1, 2};
    assert ({} + {0}) * all == {0};
    assert !Majority(THREE.joint[0], {} + {0});
    if {0, 1} <= ids {
      SubsetSize({0, 1}, ids * all);
    }
  }

  /** Node 1 elects node 0. */
  lemma Elected() returns (c: Tracked)
    ensures R.Reachable(THREE, c) && c.sys.now == 21 && c.sys.nodes.Keys == {0, 1, 2}
    ensures c.tracks == map[0 := NewTrack(THREE)]
    ensures c.sys.nodes[0] == Winning(THREE, Standing(Started(0, [GENESIS]), FIRST, 21), FIRST, 21)
    ensures c.sys.nodes[1] == Following(THREE, Started(1, []), Vote(FIRST, false), 21)
  {
    hide R.Reachable, NewTrack, Winning, Following, Begin, Config.IsVoter, Config.IsOnlyVoter, IsQuorum;
    BeginReachable();
    Voters();
    TwoDecide({} + {0} + {1});
    var own := VoteResp(0, FIRST, VoteReply(Vote(FIRST, false), None, true));
    var c0 := R.Wait(THREE, Begin(), 21);
    var c1 := R.Stand(THREE, c0, 0);
    var c2 := R.GrantTo(THREE, c1, 1, FIRST, [GENESIS]);
    var c3 := R.CountVote(THREE, c2, 0, FIRST, {}, own);
    c := R.WinVote(THREE, c3, 0, FIRST, {} + {0}, R.Granting(1, FIRST, []));
    WinningForgets(Standing(Started(0, [GENESIS]), FIRST, 21), c3.sys.nodes[0], FIRST, 21);
  }

  lemma WinningForgets(n: Node, n': Node, v: LeaderId, now: nat)
    requires n'.(candidate := None) == n.(candidate := None)
    ensures Winning(THREE, n', v, now) == Winning(THREE, n, v, now)
  {
  }

  const NOTHING: map<NodeId, Option<LogId>> := map[0 := None, 1 := None, 2 := None]

  lemma LeadsAtFirst()
    ensures var n := Winning(THREE, Standing(Started(0, [GENESIS]), FIRST, 21), FIRST, 21);
            && n.vote == Vote(FIRST, true) && n.log == BOTH && n.committed == None && n.leader.Some?
            && n.leader.value.id == FIRST && n.leader.value.progress == NOTHING && n.leader.value.clock.Keys == {0, 1, 2}
  {
    var none: map<NodeId, Option<LogId>> := map q | q in THREE.members :: None;
    assert none == NOTHING;
    assert [GENESIS] + [FIRST] == BOTH;
  }

  lemma FollowsFresh()
    ensures var n := Following(THREE, Started(1, []), Vote(FIRST, false), 21);
            && n.vote == Vote(FIRST, false) && n.log == [] && n.committed == None && n.announced == None
            && n.accepted.Some? && IoVote(n.accepted.value) == n.vote && IoLogId(n.accepted.value) == None
  {
  }

  function Entry(): Option<LogId> {
    Some(LogId(FIRST, 1))
  }

  /** Whatever the progress looks like inside, it returns an entry that a quorum has. */
  lemma ReportIsRight(c: Tracked, progress: map<NodeId, Option<LogId>>, target: NodeId)
    requires R.Reachable(THREE, c) && LeaderOn(c.sys, 0).Some? && 0 in c.tracks
    requires LeaderOn(c.sys, 0).value.progress == progress && target in progress && progress[target] == None
    ensures QuorumAccepted(THREE, progress[target := Entry()], Update(IdOrder(), c.tracks[0].log, target, Entry()).accepted)
  {
    hide SysInv, ElectionInv, ClocksInv, Update, Skips, QuorumAccepted, Exact, Ordered, Tracks, IsTrackedRun, IsRun, R.Reachable;
    var run := R.RunTo(THREE, c);
    var ss := AsProtocol(THREE, run, |run| - 1);
    ClocksAlwaysOk(THREE, run, |run| - 1);
    assert TrackOk(THREE, c, 0);
    NoEmptyChild(THREE, c.sys, 0);
    var l, p := LeaderOn(c.sys, 0).value, c.tracks[0].log;
    IdOrderIsTotal();
    SmallOneMajority(THREE, p, l.progress);
    TracksShape(THREE, p, l.progress);
    SmallNeverSkips(IdOrder(), p, target, Entry(), None);
    ReportOk(THREE, l, p, target, Entry());
  }

  lemma OnlyEntry(progress: map<NodeId, Option<LogId>>, g: Option<LogId>)
    requires QuorumAccepted(THREE, progress, g)
    requires forall q :: q in progress ==> progress[q] == None || progress[q] == Entry()
    ensures g == None || g == Entry()
    ensures {0, 1} <= progress.Keys && progress[0] == Entry() && progress[1] == Entry() ==> g == Entry()
  {
    if {0, 1} <= progress.Keys && progress[0] == Entry() && progress[1] == Entry() {
      assert {0, 1} <= Reached(progress, progress[0]);
      TwoDecide(Reached(progress, progress[0]));
    }
  }

  /** Node 1 takes the entry; once node 0 has flushed it, the report of node 1 commits it. */
  lemma Committed() returns (c: Tracked)
    ensures R.Reachable(THREE, c) && c.sys.now == 21 && c.sys.nodes.Keys == {0, 1, 2} && 0 in c.tracks
    ensures c.sys.nodes[0].leader.Some? && c.sys.nodes[0].leader.value.id == FIRST && c.sys.nodes[0].log == BOTH
    ensures c.sys.nodes[0].leader.value.clock.Keys == {0, 1, 2}
    ensures c.sys.nodes[0].committed == Entry() && c.sys.nodes[1].log == BOTH
    ensures R.Matching(1, FIRST, BOTH, 21) in c.sys.net
  {
    hide R.Reachable, NewTrack, Winning, Following, Standing, Update, Skips, IdOrder, QuorumAccepted, R.TookAll;
    var c0 := Elected();
    LeadsAtFirst();
    FollowsFresh();
    assert BOTH[..2] == BOTH;
    var c1 := R.AppendTo(THREE, c0, 0, 1, 2);
    var c2 := R.FlushOwn(THREE, c1, 0, LogId(FIRST, 1));
    ReportIsRight(c1, NOTHING, 0);
    OnlyEntry(NOTHING[0 := Entry()], Update(IdOrder(), c1.tracks[0].log, 0, Entry()).accepted);
    ReportIsRight(c2, NOTHING[0 := Entry()], 1);
    OnlyEntry(NOTHING[0 := Entry()][1 := Entry()], Update(IdOrder(), c2.tracks[0].log, 1, Entry()).accepted);
    TookLog(Following(THREE, Started(1, []), Vote(FIRST, false), 21));
    c := R.TakeReport(THREE, c2, 0, R.Matching(1, FIRST, BOTH, 21));
  }

  lemma TookLog(n: Node)
    ensures R.TookAll(THREE, n, FIRST, BOTH, 21).log == BOTH
  {
  }

  /** There is a run of the code that elects node 0, replicates its entry to node 1, commits it and accepts a lease
      read. */
  lemma RunsCommitAndRead()
    ensures exists c: Tracked ::
              && R.Reachable(THREE, c) && c.sys.nodes.Keys == {0, 1, 2} && c.sys.nodes[0].leader.Some?
              && c.sys.nodes[0].log == BOTH && c.sys.nodes[1].log == BOTH
              && c.sys.nodes[0].committed == Entry() && LeaseRead(THREE, c, 0)
  {
    hide IsTrackedRun, HearsAt, LeaseRead, IsQuorum, R.Reachable;
    var c0 := Committed();
    var c := R.HearReply(THREE, c0, 0, R.Matching(1, FIRST, BOTH, 21));
    var run := R.RunTo(THREE, c);
    SmallRunClean(THREE, run, |run| - 1);
    assert {0, 1} <= ClockReached(Clocks(c.sys, 0), 21);
    TwoDecide(ClockReached(Clocks(c.sys, 0), 21));
    LeaseReadIsExact(THREE, run, |run| - 1, 0);
  }
}
