/** Replication reports, flushes, heartbeats and time keep the cluster invariant; with the other
    steps this makes it an invariant of every run. */
module ClusterProgress {
  import opened Ids
  import opened Quorum
  import opened EngineSpec
  import opened Ballots
  import opened BallotSteps
  import opened Cluster
  import opened ClusterFrames
  import opened ClusterVotes
  import opened ClusterLog

  // ----- Commit on the leader -----------------------------------------------------

  ghost predicate AllMatched(h: History, u: LeaderId, progress: map<NodeId, Option<LogId>>) {
    forall t :: t in progress && progress[t].Some? ==> Matched(h, t, u, progress[t].value)
  }

  /** What a joint quorum has matched under leader `u`, and `u` proposed itself, is chosen. */
  lemma GrantedIsChosen(h: History, cfg: Config, u: LeaderId, progress: map<NodeId, Option<LogId>>, g: LogId)
    requires u in h.elect && LogOk(h, h.elect[u].log) && AllMatched(h, u, progress)
    requires QuorumAccepted(cfg, progress, Some(g)) && g.leader == u
    ensures CoveredBy(h, cfg, u, g.index, g)
  {
    var log, ids := h.elect[u].log, Reached(progress, Some(g));
    assert InLog(h, u, g) by {
      var q :| q in progress && progress[q] == Some(g);
      assert Matched(h, q, u, g);
    }
    forall q | q in ids ensures Acked(h, q, u, g.index) {
      var p := progress[q].value;
      assert Matched(h, q, u, p);
      LogIdOrder(log, g, p);
      AckedBelow(h, q, u, p.index, g.index);
    }
    assert IsQuorum(cfg.joint, ids) && AllAcked(h, ids, u, g.index);
  }

  lemma AckedBelow(h: History, q: NodeId, u: LeaderId, i: nat, k: nat)
    requires Acked(h, q, u, i) && k <= i
    ensures Acked(h, q, u, k)
  {
    var a :| a in h.acks && a.node == q && a.leader == u && i <= a.index;
    assert k <= a.index;
  }

  /** The leader commits what a quorum has matched. */
  lemma TryCommitKeeps(h: History, net: set<Msg>, now: nat, cfg: Config, q: NodeId, n: Node, granted: Option<LogId>)
    requires cfg.Valid() && Inv(h, cfg.joint) && NodeInv(h, net, now, cfg, q, n) && n.leader.Some?
    requires QuorumAccepted(cfg, n.leader.value.progress, granted)
    ensures NodeInv(h, net, now, cfg, q, TryCommit(n, granted))
  {
    hide Inv, CommittedInv, QuorumAccepted, CommitOk;
    var u, n' := n.vote.leader, TryCommit(n, granted);
    if granted.Some? && granted.value.leader != u {
    } else {
      var n1 := Announce(n, Announced(u, granted));
      CommitKept(h, cfg, n, n1);
      GrantedIsCommitted(h, cfg, n, granted);
      CommitKept(h, cfg, if n'.committed == n.committed then n else n.(committed := granted), n');
    }
  }

  lemma GrantedIsCommitted(h: History, cfg: Config, n: Node, granted: Option<LogId>)
    requires cfg.Valid() && Inv(h, cfg.joint) && n.leader.Some? && n.leader.value.id == n.vote.leader
    requires n.vote.leader in h.elect && n.log == h.elect[n.vote.leader].log
    requires AllMatched(h, n.vote.leader, n.leader.value.progress)
    requires QuorumAccepted(cfg, n.leader.value.progress, granted)
    requires granted.Some? ==> granted.value.leader == n.vote.leader
    ensures CommitOk(h, cfg, n.vote.leader, granted) && CommittedInv(h, cfg, n.(committed := granted))
  {
    hide Inv, Chosen, QuorumAccepted, AllMatched;
    var u := n.vote.leader;
    if granted.Some? {
      LeaderLogOk(h, cfg.joint, u);
      GrantedIsChosen(h, cfg, u, n.leader.value.progress, granted.value);
      assert CommittedUnder(h, cfg, n.(committed := granted), u, granted.value.index);
    }
  }

  lemma MatchedOneMore(h: History, u: LeaderId, progress: map<NodeId, Option<LogId>>, t: NodeId, m: Option<LogId>)
    requires AllMatched(h, u, progress) && (m.Some? ==> Matched(h, t, u, m.value))
    ensures AllMatched(h, u, progress[t := m])
  {
  }

  /** A report of progress: recorded, and possibly committing. */
  lemma ProgressInv(h: History, net: set<Msg>, now: nat, cfg: Config, q: NodeId, n: Node,
                    u: LeaderId, t: NodeId, m: Option<LogId>, granted: Option<LogId>)
    requires cfg.Valid() && Inv(h, cfg.joint) && NodeInv(h, net, now, cfg, q, n)
    requires n.leader.Some? && n.leader.value.id == u && t in n.leader.value.progress ==>
               m.Some? ==> Matched(h, t, u, m.value)
    requires GrantedRight(cfg, n, u, t, m, granted)
    ensures NodeInv(h, net, now, cfg, q, HandleProgress(n, u, t, m, granted))
  {
    hide Inv, TryCommit, QuorumAccepted, CommittedInv, Matched;
    if TakesReport(n, u, t, m) {
      var l := n.leader.value;
      MatchedOneMore(h, u, l.progress, t, m);
      var n1 := n.(leader := Some(l.(progress := l.progress[t := m])));
      CommitKept(h, cfg, n, n1);
      assert NodeInv(h, net, now, cfg, q, n1);
      TryCommitKeeps(h, net, now, cfg, q, n1, granted);
    }
  }

  lemma ProgressKeeps(cfg: Config, s: Sys, q: NodeId, m: Msg, granted: Option<LogId>)
    requires SysInv(cfg, s) && Enabled(cfg, s, RecvProgress(q, m, granted))
    ensures Kept(cfg, s, ProgressStep(cfg, s, q, m, granted))
  {
    hide SysInv, Inv, HandleProgress;
    NodeOf(cfg, s, q);
    MsgOf(cfg, s, m);
    SameHistory(s.hist, q);
    ProgressInv(s.hist, s.net, s.now, cfg, q, s.nodes[q], m.leader, m.from, m.matching, granted);
    StepKept(cfg, s, ProgressStep(cfg, s, q, m, granted), q);
  }

  lemma FlushHistory(h: History, joint: seq<set<NodeId>>, q: NodeId, u: LeaderId, i: nat)
    requires Inv(h, joint) && q in h.votes && q in h.logs && u in h.elect && u.node == q
    requires h.votes[q] == u && h.logs[q] == h.elect[u].log && i < |h.logs[q]|
    ensures var h' := AddAck(h, q, u, i);
            && Inv(h', joint) && Advances(h, h', q) && h'.votes == h.votes && h'.logs == h.logs
            && h'.elect == h.elect && h'.camp == h.camp && Acked(h', q, u, i)
  {
    AddAckKeeps(h, joint, q, u, i);
    assert Ack(q, u, i) in AddAck(h, q, u, i).acks;
  }

  /** Only the acknowledgements grew. */
  lemma AcksGrow(h: History, h': History, net: set<Msg>, now: nat, cfg: Config, q: NodeId, n: Node)
    requires Advances(h, h', q) && NodeInv(h, net, now, cfg, q, n)
    requires h'.votes == h.votes && h'.logs == h.logs && h'.elect == h.elect && h'.camp == h.camp
    ensures NodeInv(h', net, now, cfg, q, n)
  {
    VoteRaised(h, h', cfg, q, n, n);
    if n.leader.Some? {
      ProgressAdvances(h, h', net, net, q, cfg, q, n);
    }
    if n.candidate.Some? {
      forall g | g in n.candidate.value.granters ensures HasGrant(h', g, n.candidate.value.vote.leader) {
        HasGrantStays(h, h', g, n.candidate.value.vote.leader);
      }
    }
  }

  lemma FlushKeeps(cfg: Config, s: Sys, q: NodeId, upto: LogId, granted: Option<LogId>)
    requires SysInv(cfg, s) && Enabled(cfg, s, Flush(q, upto, granted))
    ensures Kept(cfg, s, FlushStep(cfg, s, q, upto, granted))
  {
    hide SysInv, Inv, HandleProgress, AddAck;
    var n, s' := s.nodes[q], FlushStep(cfg, s, q, upto, granted);
    NodeOf(cfg, s, q);
    var u := n.vote.leader;
    FlushHistory(s.hist, cfg.joint, q, u, upto.index);
    AcksGrow(s.hist, s'.hist, s.net, s.now, cfg, q, n);
    ProgressInv(s'.hist, s.net, s.now, cfg, q, n, u, q, Some(upto), granted);
    StepKept(cfg, s, s', q);
  }

  // ----- Heartbeats ---------------------------------------------------------------

  /** A vote above a leader's own is never a vote of the leader itself. */
  lemma HigherVoteIsNotOwn(h: History, joint: seq<set<NodeId>>, q: NodeId, v: Vote)
    requires Inv(h, joint) && q in h.votes && h.votes[q].node == q && Lt(h.votes[q], v.leader) && KnownVote(h, v)
    ensures v.leader.node != q
  {
    assert v.leader in h.camp ==> CampOk(h, v.leader);
  }

  lemma HeartbeatInv(h: History, net: set<Msg>, now: nat, cfg: Config, q: NodeId, n: Node,
                     u: LeaderId, t: NodeId, sentAt: nat)
    requires NodeInv(h, net, now, cfg, q, n)
    requires ClockAcked(net, t, u, sentAt)
    ensures NodeInv(h, net, now, cfg, q, HandleHeartbeat(n, u, t, sentAt))
  {
    hide CommittedInv;
    CommitKept(h, cfg, n, HandleHeartbeat(n, u, t, sentAt));
  }

  lemma HeartbeatKeeps(cfg: Config, s: Sys, q: NodeId, m: Msg)
    requires SysInv(cfg, s) && Enabled(cfg, s, RecvHeartbeat(q, m))
    ensures Kept(cfg, s, HeartbeatStep(cfg, s, q, m))
  {
    hide SysInv, Inv;
    var n, s' := s.nodes[q], HeartbeatStep(cfg, s, q, m);
    NodeOf(cfg, s, q);
    MsgOf(cfg, s, m);
    UnchangedVote(s.hist, q, n.vote.leader);
    if !m.outcome.HigherVote? {
      assert ClockAcked(s.net, m.from, m.leader, m.sentAt);
      HeartbeatInv(s.hist, s.net, s.now, cfg, q, n, m.leader, m.from, m.sentAt);
    } else if n.leader.Some? && n.leader.value.id == m.leader {
      var higher := m.outcome.vote;
      HigherVoteIsNotOwn(s.hist, cfg.joint, q, higher);
      FollowsOther(cfg, q, n, higher, s.now);
      RaiseHistory(s.hist, cfg.joint, q, higher.leader);
      FollowingInv(s.hist, s'.hist, s.net, s.net, s.now, cfg, q, n, higher);
    } else {
      assert s'.nodes[q] == n;
    }
    StepKept(cfg, s, s', q);
  }

  // ----- Time ---------------------------------------------------------------------

  lemma AdvanceKeeps(cfg: Config, s: Sys, d: nat)
    requires SysInv(cfg, s)
    ensures Kept(cfg, s, s.(now := s.now + d))
  {
    hide NodeInv, MsgInv, Inv, Advances;
    var s' := s.(now := s.now + d);
    forall p | p in s'.nodes ensures NodeInv(s.hist, s.net, s'.now, cfg, p, s'.nodes[p]) {
      SameHistory(s.hist, p + 1);
      NodeAdvances(s.hist, s.hist, s.net, s.net, s.now, s'.now, cfg, p + 1, p, s.nodes[p]);
    }
    forall m | m in s'.net ensures MsgInv(s.hist, s'.now, cfg, m) {
      SameHistory(s.hist, 0);
      MsgAdvances(s.hist, s.hist, s.now, s'.now, cfg, 0, m);
    }
  }

  // ----- Every run ----------------------------------------------------------------

  lemma NextKeeps(cfg: Config, s: Sys, st: Step)
    requires SysInv(cfg, s) && Enabled(cfg, s, st)
    ensures Kept(cfg, s, Apply(cfg, s, st))
  {
    hide SysInv, TickStep, VoteReqStep, VoteRespStep, WriteStep, SendStep, AppendStep, ProgressStep, HeartbeatStep, FlushStep;
    match st {
      case Tick(q) => TickKeeps(cfg, s, q);
      case RecvVoteReq(q, m) => VoteReqKeeps(cfg, s, q, m);
      case RecvVoteResp(q, m) => VoteRespKeeps(cfg, s, q, m);
      case Write(q, count) => WriteKeeps(cfg, s, q, count);
      case Send(q, start, count) => SendKeeps(cfg, s, q, start, count);
      case RecvAppend(q, m) => AppendKeeps(cfg, s, q, m);
      case RecvProgress(q, m, granted) => ProgressKeeps(cfg, s, q, m, granted);
      case RecvHeartbeat(q, m) => HeartbeatKeeps(cfg, s, q, m);
      case Flush(q, upto, granted) => FlushKeeps(cfg, s, q, upto, granted);
      case Advance(d) => AdvanceKeeps(cfg, s, d);
    }
  }

  lemma InitHistory(cfg: Config, s: Sys)
    requires cfg.Valid() && Init(cfg, s)
    ensures Inv(s.hist, cfg.joint)
  {
    var h := s.hist;
    assert WinOk(h, cfg.joint, GENESIS);
    forall q | q in h.votes ensures NodeOk(h, q) {
      assert InitNode(q, s.nodes[q], s.now);
      forall p: nat | p < |h.logs[q]| ensures FromLeader(h, h.logs[q], p) {
      }
    }
  }

  lemma InitKeeps(cfg: Config, s: Sys)
    requires cfg.Valid() && Init(cfg, s)
    ensures SysInv(cfg, s)
  {
    InitHistory(cfg, s);
    hide Inv;
    forall q | q in s.nodes ensures NodeInv(s.hist, s.net, s.now, cfg, q, s.nodes[q]) {
      assert InitNode(q, s.nodes[q], s.now);
    }
  }

  /** The invariant holds in every state of every run. */
  lemma {:induction false} RunInv(cfg: Config, run: seq<Sys>, i: nat)
    requires IsRun(cfg, run) && i < |run|
    ensures SysInv(cfg, run[i])
    decreases i
  {
    hide SysInv, Possible, CommitRight, Apply, Init;
    if i == 0 {
      InitKeeps(cfg, run[0]);
    } else {
      RunInv(cfg, run, i - 1);
      assert Next(cfg, run[i - 1], run[i - 1 + 1]);
      var st :| Enabled(cfg, run[i - 1], st) && run[i] == Apply(cfg, run[i - 1], st);
      NextKeeps(cfg, run[i - 1], st);
    }
  }
}
