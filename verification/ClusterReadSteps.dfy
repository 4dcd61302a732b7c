/** Every step keeps commits below the read log id of the latest leader, and the theorem about reads
    under a lease. */
module ClusterReadSteps {
  import opened Ids
  import opened Quorum
  import opened EngineSpec
  import opened Ballots
  import opened BallotSteps
  import opened Cluster
  import opened ClusterFrames
  import opened ClusterVotes
  import opened ClusterLog
  import opened ClusterProgress
  import opened ClusterSafety
  import opened Elections
  import opened ClusterLease
  import opened ClusterLeaseSteps
  import opened ClusterReads

  ghost predicate SameCommit(n: Node, n': Node) {
    n'.committed == n.committed && n'.announced == n.announced
  }

  lemma BecomeLeaderCommit(cfg: Config, n: Node)
    ensures SameCommit(n, BecomeLeader(cfg, n))
  {
    hide LastRunStart, IoLt, NewLeading;
  }

  lemma UpdateVoteCommit(cfg: Config, me: NodeId, n: Node, vote: Vote, now: nat)
    ensures var r := UpdateVote(cfg, me, n, vote, now); r.Some? ==> SameCommit(n, r.value)
  {
    hide BecomeLeader, IoLt;
    var n1 := n.(vote := vote, utime := Some(now), lease := if vote.committed then cfg.leaderLease else 0);
    BecomeLeaderCommit(cfg, n1);
    BecomeLeaderCommit(cfg, AcceptLogIo(n1, NewIo(vote)));
  }

  lemma EstablishCommit(cfg: Config, me: NodeId, n: Node, now: nat)
    requires n.candidate.Some?
    ensures SameCommit(n, Establish(cfg, me, n, now))
  {
    hide UpdateVote;
    var c := n.candidate.value;
    var l := NewLeading(cfg, c.vote.leader, c.lastLogId, c.lastLogId);
    UpdateVoteCommit(cfg, me, n.(candidate := None, leader := Some(l)), Vote(l.id, true), now);
  }

  lemma RespCommit(cfg: Config, me: NodeId, n: Node, m: Msg, now: nat)
    requires m.VoteResp?
    ensures SameCommit(n, HandleVoteResp(cfg, me, n, m.from, m.candidate, m.reply, now))
  {
    hide UpdateVote, Establish;
    if n.candidate.Some? {
      var c := n.candidate.value;
      EstablishCommit(cfg, me, n.(candidate := Some(c.(granters := c.granters + {m.from}))), now);
      UpdateVoteCommit(cfg, me, n, Vote(m.reply.vote.leader, false), now);
      UpdateVoteCommit(cfg, me, n.(seenGreater := true), Vote(m.reply.vote.leader, false), now);
    }
  }

  /** Taking an announced commit moves the local commit at most up to it. */
  lemma UpdateCommittedMoves(n: Node, a: Announced)
    ensures var n' := UpdateCommitted(n, a);
            && n'.leader == n.leader
            && (n'.announced == n.announced || n'.announced == Some(a))
            && (n'.committed == n.committed || (n'.announced.Some? && OptLe(n'.committed, n'.announced.value.logId)))
  {
  }

  /** A step of `q` that leaves its commit alone. */
  lemma SameCommitStep(cfg: Config, s: Sys, st: Step)
    requires SysInv(cfg, s) && Enabled(cfg, s, st) && !st.Advance?
    requires OnlyNode(s, Apply(cfg, s, st), st.q)
    requires SameCommit(s.nodes[st.q], Apply(cfg, s, st).nodes[st.q])
    requires LeadMoves(s.hist, s.nodes[st.q], Apply(cfg, s, st).nodes[st.q])
    requires SendsCommit(s, Apply(cfg, s, st), st.q)
    ensures ReadStep(cfg, s, Apply(cfg, s, st), st.q)
  {
    hide SysInv, Apply, Forward, Kept;
    NextKeeps(cfg, s, st);
    StepForward(cfg, s, st, st.q);
  }

  lemma TickReads(cfg: Config, s: Sys, q: NodeId)
    requires SysInv(cfg, s) && Enabled(cfg, s, Tick(q))
    ensures ReadStep(cfg, s, TickStep(cfg, s, q), q)
  {
    hide SysInv, Inv, TickElects;
    NodeOf(cfg, s, q);
    if TickElects(cfg, q, s.nodes[q], s.now) {
      ElectResult(cfg, q, s.nodes[q], s.now);
    }
    SameCommitStep(cfg, s, Tick(q));
  }

  lemma VoteReqReads(cfg: Config, s: Sys, q: NodeId, m: Msg)
    requires SysInv(cfg, s) && Enabled(cfg, s, RecvVoteReq(q, m))
    ensures ReadStep(cfg, s, VoteReqStep(cfg, s, q, m), q)
  {
    hide SysInv, Inv, UpdateVote;
    NodeOf(cfg, s, q);
    if GrantsVote(cfg, q, s.nodes[q], Vote(m.vote, false), m.last, s.now) {
      FollowsOther(cfg, q, s.nodes[q], Vote(m.vote, false), s.now);
    }
    SameCommitStep(cfg, s, RecvVoteReq(q, m));
  }

  lemma VoteRespReads(cfg: Config, s: Sys, q: NodeId, m: Msg)
    requires SysInv(cfg, s) && Enabled(cfg, s, RecvVoteResp(q, m))
    ensures ReadStep(cfg, s, VoteRespStep(cfg, s, q, m), q)
  {
    hide SysInv, Inv, HandleVoteResp, Won, Raise;
    var n := s.nodes[q];
    NodeOf(cfg, s, q);
    RespCommit(cfg, q, n, m, s.now);
    if n.candidate.None? {
      NoCandidate(cfg, q, n, m, s.now);
    } else if VoteRespStep(cfg, s, q, m).nodes[q].leader.Some? {
      assert ElectionInv(cfg, s) by { SysElects(cfg, s); }
      WonBy(cfg, s, q, m);
    }
    SameCommitStep(cfg, s, RecvVoteResp(q, m));
  }

  lemma WriteReads(cfg: Config, s: Sys, q: NodeId, count: nat)
    requires SysInv(cfg, s) && Enabled(cfg, s, Write(q, count))
    ensures ReadStep(cfg, s, WriteStep(cfg, s, q, count), q)
  {
    hide SysInv, Inv, IoLt, Propose;
    SameCommitStep(cfg, s, Write(q, count));
  }

  lemma SendReads(cfg: Config, s: Sys, q: NodeId, start: nat, count: nat)
    requires SysInv(cfg, s) && Enabled(cfg, s, Send(q, start, count))
    ensures ReadStep(cfg, s, SendStep(cfg, s, q, start, count), q)
  {
    hide SysInv, Inv;
    SameCommitStep(cfg, s, Send(q, start, count));
  }

  lemma HeartbeatReads(cfg: Config, s: Sys, q: NodeId, m: Msg)
    requires SysInv(cfg, s) && Enabled(cfg, s, RecvHeartbeat(q, m))
    ensures ReadStep(cfg, s, HeartbeatStep(cfg, s, q, m), q)
  {
    hide SysInv, Inv, UpdateVote;
    var n := s.nodes[q];
    NodeOf(cfg, s, q);
    MsgOf(cfg, s, m);
    if m.outcome.HigherVote? && n.leader.Some? && n.leader.value.id == m.leader {
      HigherVoteIsNotOwn(s.hist, cfg.joint, q, m.outcome.vote);
      FollowsOther(cfg, q, n, m.outcome.vote, s.now);
    }
    SameCommitStep(cfg, s, RecvHeartbeat(q, m));
  }

  lemma AppendEntriesLeads(cfg: Config, me: NodeId, n: Node, u: LeaderId, prev: Option<LogId>, entries: Log, now: nat)
    requires u.node != me && n.accepted.Some? && IoVote(n.accepted.value) == n.vote
    ensures var r := AppendEntries(cfg, me, n, u, prev, entries, now).0;
            SameCommit(n, r) && (r.leader == n.leader || r.leader.None?)
  {
    hide UpdateVote, TakeEntries;
    UpdateVoteCommit(cfg, me, n, Vote(u, true), now);
    if VoteLe(n.vote, Vote(u, true)) {
      FollowsOther(cfg, me, n, Vote(u, true), now);
    } else {
      Refuses(cfg, me, n, Vote(u, true), now);
    }
  }

  lemma AppendReads(cfg: Config, s: Sys, q: NodeId, m: Msg)
    requires SysInv(cfg, s) && Enabled(cfg, s, RecvAppend(q, m))
    ensures ReadStep(cfg, s, AppendStep(cfg, s, q, m), q)
  {
    hide SysInv, Inv, AppendEntries, UpdateCommitted, Followed, Forward;
    var n, s', a := s.nodes[q], AppendStep(cfg, s, q, m), Announced(m.leader, m.commit);
    NodeOf(cfg, s, q);
    AppendKeeps(cfg, s, q, m);
    AppendForward(cfg, q, n, m.leader, m.prev, m.entries, m.commit, s.now);
    AppendEntriesLeads(cfg, q, n, m.leader, m.prev, m.entries, s.now);
    UpdateCommittedMoves(AppendEntries(cfg, q, n, m.leader, m.prev, m.entries, s.now).0, a);
    assert AnnounceMoves(s, n, s'.nodes[q]);
    assert LeadMoves(s.hist, n, s'.nodes[q]);
    assert SendsCommit(s, s', q);
  }

  lemma ProgressMoves(n: Node, u: LeaderId, t: NodeId, m: Option<LogId>, granted: Option<LogId>)
    requires n.leader.Some? ==> n.leader.value.id == n.vote.leader
    ensures var n' := HandleProgress(n, u, t, m, granted);
            && CommitMoves(n, n')
            && (n'.announced == n.announced || (n'.announced.Some? && OwnCommit(n', n'.announced.value.logId)))
            && (n'.leader.Some? ==> n.leader.Some?)
            && (n'.leader.Some? ==> n'.leader.value.id == n.leader.value.id && n'.leader.value.noop == n.leader.value.noop)
  {
  }

  lemma ProgressReads(cfg: Config, s: Sys, st: Step)
    requires SysInv(cfg, s) && Enabled(cfg, s, st) && (st.RecvProgress? || st.Flush?)
    ensures ReadStep(cfg, s, Apply(cfg, s, st), st.q)
  {
    hide SysInv, Inv, HandleProgress, AddAck, CommitMoves, Forward, QuorumAccepted;
    var n, s' := s.nodes[st.q], Apply(cfg, s, st);
    NodeOf(cfg, s, st.q);
    NextKeeps(cfg, s, st);
    StepForward(cfg, s, st, st.q);
    match st {
      case RecvProgress(_, m, granted) => ProgressMoves(n, m.leader, m.from, m.matching, granted);
      case Flush(_, upto, granted) => ProgressMoves(n, n.leader.value.id, st.q, Some(upto), granted);
    }
    assert SendsCommit(s, s', st.q);
    assert OnlyNode(s, s', st.q);
  }

  lemma NextKeepsReads(cfg: Config, s: Sys, st: Step)
    requires SysInv(cfg, s) && ReadsInv(s) && Enabled(cfg, s, st)
    ensures ReadsInv(Apply(cfg, s, st))
  {
    hide SysInv, ReadStep, TickStep, VoteReqStep, VoteRespStep, WriteStep, SendStep, AppendStep, ProgressStep,
         HeartbeatStep, FlushStep, QuorumAccepted;
    match st {
      case Tick(q) => TickReads(cfg, s, q);
      case RecvVoteReq(q, m) => VoteReqReads(cfg, s, q, m);
      case RecvVoteResp(q, m) => VoteRespReads(cfg, s, q, m);
      case Write(q, count) => WriteReads(cfg, s, q, count);
      case Send(q, start, count) => SendReads(cfg, s, q, start, count);
      case RecvAppend(q, m) => AppendReads(cfg, s, q, m);
      case RecvHeartbeat(q, m) => HeartbeatReads(cfg, s, q, m);
      case Advance(d) => AdvanceReads(s, d);
      case _ => ProgressReads(cfg, s, st);
    }
    if !st.Advance? {
      ReadStepKeeps(cfg, s, Apply(cfg, s, st), st.q);
    }
  }

  lemma AdvanceReads(s: Sys, d: nat)
    requires ReadsInv(s)
    ensures ReadsInv(s.(now := s.now + d))
  {
    var s' := s.(now := s.now + d);
    assert forall m :: Bounded(s, m) ==> Bounded(s', m);
  }

  lemma {:induction false} RunReadsInv(cfg: Config, run: seq<Sys>, i: nat)
    requires IsRun(cfg, run) && i < |run|
    ensures SysInv(cfg, run[i]) && ReadsInv(run[i])
    decreases i
  {
    hide SysInv, Possible, CommitRight, Apply;
    RunInv(cfg, run, i);
    if i > 0 {
      hide ReadsInv;
      RunReadsInv(cfg, run, i - 1);
      assert Next(cfg, run[i - 1], run[i - 1 + 1]);
      var st :| Enabled(cfg, run[i - 1], st) && run[i] == Apply(cfg, run[i - 1], st);
      NextKeepsReads(cfg, run[i - 1], st);
    }
  }

  // ----- Reads under a lease ------------------------------------------------------

  /** When a leader accepts a read under its lease, every other leader has an earlier vote, whatever is committed. */
  lemma LeaseReadIsExclusive(cfg: Config, run: seq<Sys>, i: nat, q: NodeId, p: NodeId)
    requires IsAnyRun(cfg, run) && i < |run| && LeaseReadAccepted(cfg, run[i], q)
    requires p in run[i].nodes && p != q && run[i].nodes[p].leader.Some?
    ensures Lt(run[i].nodes[p].leader.value.id, run[i].nodes[q].leader.value.id)
  {
    hide ElectionInv, BallotsOk, LeaseInv, Clocks, ClockReached;
    var s := run[i];
    RunLeaseInv(cfg, run, i);
    VoterOf(cfg, s, p);
    VoterOf(cfg, s, q);
    var t: nat :| IsQuorum(cfg.joint, ClockReached(Clocks(s, q), t)) && s.now < t + cfg.leaderLease;
    NoneAbove(cfg, s, q, t, s.nodes[p].vote.leader);
  }

  /** A read accepted under the lease waits for a log id at or above everything any node has
      committed by then, and the leader's log holds all of it. */
  lemma LeaseReadSeesAllCommits(cfg: Config, run: seq<Sys>, j: nat, i: nat, q: NodeId, p: NodeId)
    requires IsRun(cfg, run) && j <= i < |run| && LeaseReadAccepted(cfg, run[i], q) && p in run[j].nodes
    ensures var c := run[j].nodes[p].committed;
            && OptLe(c, Some(ReadLogId(run[i].nodes[q])))
            && NextIndex(c) <= ReadLogId(run[i].nodes[q]).index + 1
            && Agree(run[j].nodes[p].log, run[i].nodes[q].log, NextIndex(c))
  {
    hide SysInv, Inv, ElectionInv, LeaseInv, Clocks, ClockReached, ReadsInv, Bounded;
    var s := run[i];
    RunIsAnyRun(cfg, run);
    RunLeaseInv(cfg, run, i);
    RunReadsInv(cfg, run, i);
    NeverBack(cfg, run, j, i, p);
    NodeOf(cfg, s, q);
    var t: nat :| IsQuorum(cfg.joint, ClockReached(Clocks(s, q), t)) && s.now < t + cfg.leaderLease;
    assert !HasLater(s.hist, s.nodes[q].vote.leader) by {
      forall w | w in s.hist.elect ensures Le(w, s.nodes[q].vote.leader) {
        NoneAbove(cfg, s, q, t, w);
      }
    }
    CommitIsBounded(s, q, p);
    if run[j].nodes[p].committed.Some? {
      var x, c := CommittedLater(cfg, run, j, i, p);
      ReadPosition(cfg, run, j, i, q, p, x, c);
    }
  }

  lemma CommitIsBounded(s: Sys, q: NodeId, p: NodeId)
    requires ReadsInv(s) && q in s.nodes && p in s.nodes
    ensures BoundedBy(s.hist, s.nodes[q], s.nodes[p].committed)
  {
    assert NodeBounded(s, s.nodes[p]);
  }

  lemma ReadPosition(cfg: Config, run: seq<Sys>, j: nat, i: nat, q: NodeId, p: NodeId, x: LeaderId, c: nat)
    requires IsRun(cfg, run) && j <= i < |run| && p in run[j].nodes && q in run[i].nodes
    requires SysInv(cfg, run[i]) && run[i].nodes[q].leader.Some? && run[j].nodes[p].committed.Some?
    requires CommittedUnder(run[i].hist, cfg, run[j].nodes[p], x, c)
    requires !HasLater(run[i].hist, run[i].nodes[q].vote.leader)
    requires OptLe(run[j].nodes[p].committed, Some(ReadLogId(run[i].nodes[q])))
    ensures NextIndex(run[j].nodes[p].committed) <= ReadLogId(run[i].nodes[q]).index + 1
    ensures Agree(run[j].nodes[p].log, run[i].nodes[q].log, NextIndex(run[j].nodes[p].committed))
  {
    hide SysInv, Inv, Chosen;
    var s, h := run[i], run[i].hist;
    var n := s.nodes[q];
    var u := n.vote.leader;
    NodeOf(cfg, s, q);
    assert x in h.elect && Le(x, u);
    LeadersHoldChosen(h, cfg, x, c, u);
    LeaderLogOk(h, cfg.joint, u);
    ReadIsInLog(cfg, s, q);
    LogIdOrder(n.log, run[j].nodes[p].committed.value, ReadLogId(n));
  }

  /** The read log id of a leader is the id of an entry of its log. */
  lemma ReadIsInLog(cfg: Config, s: Sys, q: NodeId)
    requires SysInv(cfg, s) && q in s.nodes && s.nodes[q].leader.Some?
    ensures var r, log := ReadLogId(s.nodes[q]), s.nodes[q].log; r.index < |log| && log[r.index] == r.leader
  {
    hide SysInv, Inv;
    var h, n := s.hist, s.nodes[q];
    NodeOf(cfg, s, q);
    NoopInLog(cfg, s, q);
    if n.committed.Some? {
      CommittedMatches(h, cfg, n, n.vote.leader);
      var x, c :| Le(x, n.vote.leader) && CommittedUnder(h, cfg, n, x, c);
    }
  }

  lemma NoopInLog(cfg: Config, s: Sys, q: NodeId)
    requires SysInv(cfg, s) && q in s.nodes && s.nodes[q].leader.Some?
    ensures var r, log := s.nodes[q].leader.value.noop, s.nodes[q].log; r.index < |log| && log[r.index] == r.leader
  {
    InvOf(cfg, s);
    assert WinOk(s.hist, cfg.joint, s.nodes[q].vote.leader);
  }
}
