/** Every step respects leases, and what follows for reads served under a lease. */
module ClusterLeaseSteps {
  import opened Ids
  import opened Quorum
  import opened EngineSpec
  import opened Ballots
  import opened BallotSteps
  import opened Cluster
  import opened ClusterFrames
  import opened ClusterVotes
  import opened ClusterLog
  import opened ClusterProgress
  import opened ClusterSafety
  import opened Elections
  import opened ClusterLease

  /** Nobody stood, granted, won or answered a leader in this step. */
  ghost predicate Quiet(s: Sys, s': Sys) {
    && s'.hist.grants == s.hist.grants
    && s'.hist.elect.Keys == s.hist.elect.Keys
    && s'.hist.camp == s.hist.camp
    && forall m :: m in s'.net && m !in s.net ==> !(m.AppendResp? && !m.outcome.HigherVote?)
  }

  ghost predicate OnlyNode(s: Sys, s': Sys, q: NodeId) {
    && s.now <= s'.now && s.net <= s'.net && q in s.nodes
    && s'.nodes.Keys == s.nodes.Keys
    && forall p :: p in s.nodes && p != q ==> s'.nodes[p] == s.nodes[p]
  }

  lemma QuietStep(cfg: Config, s: Sys, s': Sys, q: NodeId)
    requires ElectionInv(cfg, s) && Elects(cfg, s, s') && OnlyNode(s, s', q) && Quiet(s, s')
    requires VoteMoves(q, s.nodes[q], s'.nodes[q], s.now, s'.hist)
    ensures LeaseStep(cfg, s, s', q)
  {
    hide ElectionInv, Later, VoteMoves;
  }

  lemma UpdateVoteTouches(cfg: Config, me: NodeId, n: Node, vote: Vote, now: nat)
    ensures var r := UpdateVote(cfg, me, n, vote, now);
            r.Some? ==> r.value.vote == vote && r.value.utime == Some(now) && VoteLe(n.vote, vote)
  {
    hide IoLt, LastRunStart, NewLeading;
  }

  // ----- Elections ----------------------------------------------------------------

  /** A node whose tick starts an election is bound by no lease. */
  lemma TickIsFree(cfg: Config, s: Sys, q: NodeId)
    requires ElectionInv(cfg, s) && VotersStand(cfg, s.hist) && q in s.nodes
    requires TickElects(cfg, q, s.nodes[q], s.now)
    ensures Free(q, s.nodes[q], s.now)
  {
    hide ElectionInv, BallotsOk;
    VoterOf(cfg, s, q);
    var n := s.nodes[q];
    if n.vote.committed {
      var u := n.vote.leader;
      ElectedKnown(s.hist, cfg.joint, u);
      assert cfg.IsVoter(u.node);
      VoterIsMember(cfg, u.node);
    }
  }

  lemma VoterIsMember(cfg: Config, q: NodeId)
    requires cfg.Valid() && cfg.IsVoter(q)
    ensures q in cfg.members
  {
  }

  lemma TickLease(cfg: Config, s: Sys, q: NodeId)
    requires ElectionInv(cfg, s) && VotersStand(cfg, s.hist) && Possible(cfg, s, Tick(q))
    ensures LeaseStep(cfg, s, TickStep(cfg, s, q), q)
  {
    hide ElectionInv, BallotsOk, Later, TickElects;
    var n, s' := s.nodes[q], TickStep(cfg, s, q);
    VoterOf(cfg, s, q);
    TickElectsOk(cfg, s, q);
    if TickElects(cfg, q, n, s.now) {
      TickIsFree(cfg, s, q);
      ElectResult(cfg, q, n, s.now);
      TickVoter(cfg, q, n, s.now);
      assert NewAcks(s, s', q);
      assert NewGrants(s, s', q);
    } else {
      QuietStep(cfg, s, s', q);
    }
  }

  lemma TickVoter(cfg: Config, me: NodeId, n: Node, now: nat)
    requires TickElects(cfg, me, n, now)
    ensures cfg.IsVoter(me)
  {
  }

  lemma VoteReqLease(cfg: Config, s: Sys, q: NodeId, m: Msg)
    requires ElectionInv(cfg, s) && Possible(cfg, s, RecvVoteReq(q, m))
    ensures LeaseStep(cfg, s, VoteReqStep(cfg, s, q, m), q)
  {
    hide ElectionInv, BallotsOk, Later, UpdateVote;
    var n, s' := s.nodes[q], VoteReqStep(cfg, s, q, m);
    VoterOf(cfg, s, q);
    VoteReqElectsOk(cfg, s, q, m);
    if GrantsVote(cfg, q, n, Vote(m.vote, false), m.last, s.now) {
      FollowsOther(cfg, q, n, Vote(m.vote, false), s.now);
      assert Free(q, n, s.now);
      assert NewGrants(s, s', q);
      assert NewAcks(s, s', q);
    } else {
      QuietStep(cfg, s, s', q);
    }
  }

  lemma VoteRespLease(cfg: Config, s: Sys, q: NodeId, m: Msg)
    requires ElectionInv(cfg, s) && Possible(cfg, s, RecvVoteResp(q, m))
    ensures LeaseStep(cfg, s, VoteRespStep(cfg, s, q, m), q)
  {
    hide ElectionInv, BallotsOk, Later, HandleVoteResp, Won, Raise;
    var n, s' := s.nodes[q], VoteRespStep(cfg, s, q, m);
    VoterOf(cfg, s, q);
    SentOf(cfg, s, m);
    VoteRespElectsOk(cfg, s, q, m);
    RespForward(cfg, q, n, m, s.now);
    if n.candidate.Some? {
      if s'.hist == Raise(s.hist, q, s'.nodes[q].vote.leader) {
        RaiseIsQuiet(s.hist, q, s'.nodes[q].vote.leader);
        QuietStep(cfg, s, s', q);
      } else {
        var v, granters := s'.nodes[q].leader.value.id, n.candidate.value.granters + {m.from};
        WonBy(cfg, s, q, m);
        WonChanges(s.hist, q, v, granters);
        assert NewWins(s.hist, s'.hist);
        assert NewAcks(s, s', q) && NewGrants(s, s', q);
      }
    } else {
      NoCandidate(cfg, q, n, m, s.now);
      RaiseIsQuiet(s.hist, q, s'.nodes[q].vote.leader);
      QuietStep(cfg, s, s', q);
    }
  }

  lemma NoCandidate(cfg: Config, q: NodeId, n: Node, m: Msg, now: nat)
    requires m.VoteResp? && n.candidate.None?
    ensures HandleVoteResp(cfg, q, n, m.from, m.candidate, m.reply, now) == n
  {
  }

  lemma RaiseIsQuiet(h: History, q: NodeId, v: LeaderId)
    ensures Raise(h, q, v).grants == h.grants && Raise(h, q, v).elect == h.elect && Raise(h, q, v).camp == h.camp
  {
  }

  lemma WonChanges(h: History, q: NodeId, v: LeaderId, granters: set<NodeId>)
    requires v in h.camp
    ensures var h' := Won(h, q, v, granters);
            && h'.grants == h.grants && h'.camp == h.camp && h'.elect.Keys == h.elect.Keys + {v}
            && h'.elect[v].granters == granters
  {
  }

  /** A candidacy that turns into leadership does so with granted votes only. */
  lemma WonBy(cfg: Config, s: Sys, q: NodeId, m: Msg)
    requires ElectionInv(cfg, s) && Possible(cfg, s, RecvVoteResp(q, m)) && s.nodes[q].candidate.Some?
    requires s.nodes[q].leader.None?
    requires HandleVoteResp(cfg, q, s.nodes[q], m.from, m.candidate, m.reply, s.now).leader.Some?
    ensures HandleVoteResp(cfg, q, s.nodes[q], m.from, m.candidate, m.reply, s.now).leader.value.id == s.nodes[q].vote.leader
    ensures s.nodes[q].vote.leader in s.hist.camp
    ensures forall t :: t in s.nodes[q].candidate.value.granters + {m.from} ==> HasGrant(s.hist, t, s.nodes[q].vote.leader)
  {
    hide ElectionInv, BallotsOk, Establish, UpdateVote;
    var n := s.nodes[q];
    VoterOf(cfg, s, q);
    SentOf(cfg, s, m);
    var c := n.candidate.value;
    if c.vote == Vote(m.candidate, false) {
      if m.reply.granted && m.reply.vote == c.vote {
        if IsQuorum(cfg.joint, c.granters + {m.from}) {
          EstablishVotes(cfg, q, n.(candidate := Some(c.(granters := c.granters + {m.from}))), s.now);
        }
      } else {
        NeverLeads(cfg, q, n, Vote(m.reply.vote.leader, false), s.now);
        NeverLeads(cfg, q, n.(seenGreater := true), Vote(m.reply.vote.leader, false), s.now);
      }
    }
  }

  lemma NeverLeads(cfg: Config, me: NodeId, n: Node, vote: Vote, now: nat)
    requires !vote.committed && n.leader.None?
    ensures var r := UpdateVote(cfg, me, n, vote, now); r.Some? ==> r.value.leader.None?
  {
    hide IoLt, BecomeLeader;
  }

  // ----- Logs and progress --------------------------------------------------------

  lemma AppendLease(cfg: Config, s: Sys, q: NodeId, m: Msg)
    requires ElectionInv(cfg, s) && Possible(cfg, s, RecvAppend(q, m))
    ensures LeaseStep(cfg, s, AppendStep(cfg, s, q, m), q)
  {
    hide ElectionInv, BallotsOk, Later, UpdateVote, TakeEntries, UpdateCommitted;
    var n, s' := s.nodes[q], AppendStep(cfg, s, q, m);
    VoterOf(cfg, s, q);
    SentOf(cfg, s, m);
    AppendElectsOk(cfg, s, q, m);
    var vote := Vote(m.leader, true);
    UpdateVoteTouches(cfg, q, n, vote, s.now);
    AppendVote(cfg, q, n, m.leader, m.prev, m.entries, m.commit, s.now);
    FollowedIsQuiet(s.hist, q, m.leader, s'.nodes[q].log,
                    if HandleAppend(cfg, q, n, m.leader, m.prev, m.entries, m.commit, s.now).1.Success?
                    then EntriesLast(m.prev, m.entries) else None);
    var r := UpdateVote(cfg, q, n, vote, s.now);
    if r.None? {
      QuietStep(cfg, s, s', q);
    } else {
      assert VoteMoves(q, n, s'.nodes[q], s.now, s'.hist);
    }
  }

  lemma FollowedIsQuiet(h: History, q: NodeId, u: LeaderId, log: Log, matching: Option<LogId>)
    ensures var h' := Followed(h, q, u, log, matching); h'.grants == h.grants && h'.elect == h.elect && h'.camp == h.camp
  {
  }

  lemma AppendVote(cfg: Config, me: NodeId, n: Node, u: LeaderId, prev: Option<LogId>, entries: Log,
                   commit: Option<LogId>, now: nat)
    ensures var r, a := UpdateVote(cfg, me, n, Vote(u, true), now), HandleAppend(cfg, me, n, u, prev, entries, commit, now);
            && (r.None? ==> a.0.vote == n.vote && a.0.utime == n.utime && a.1.HigherVote?)
            && (r.Some? ==> a.0.vote == r.value.vote && a.0.utime == r.value.utime && !a.1.HigherVote?)
  {
    hide UpdateVote, TakeEntries;
  }

  lemma ProgressVote(n: Node, u: LeaderId, t: NodeId, m: Option<LogId>, granted: Option<LogId>)
    ensures HandleProgress(n, u, t, m, granted).vote == n.vote && HandleProgress(n, u, t, m, granted).utime == n.utime
  {
  }

  lemma HeartbeatLease(cfg: Config, s: Sys, q: NodeId, m: Msg)
    requires ElectionInv(cfg, s) && Possible(cfg, s, RecvHeartbeat(q, m))
    ensures LeaseStep(cfg, s, HeartbeatStep(cfg, s, q, m), q)
  {
    hide ElectionInv, BallotsOk, Later, UpdateVote;
    var n, s' := s.nodes[q], HeartbeatStep(cfg, s, q, m);
    VoterOf(cfg, s, q);
    HeartbeatElectsOk(cfg, s, q, m);
    HeartbeatForward(cfg, q, n, m, s.now);
    assert VoteMoves(q, n, s'.nodes[q], s.now, s'.hist);
    QuietStep(cfg, s, s', q);
  }

  lemma ReportLease(cfg: Config, s: Sys, st: Step)
    requires ElectionInv(cfg, s) && Possible(cfg, s, st) && (st.Write? || st.Send? || st.RecvProgress? || st.Flush?)
    ensures LeaseStep(cfg, s, Apply(cfg, s, st), st.q)
  {
    hide ElectionInv, BallotsOk, Later, HandleProgress;
    var q, s' := st.q, Apply(cfg, s, st);
    VoterOf(cfg, s, q);
    StepElects(cfg, s, st);
    match st {
      case Write(_, count) =>
      case Send(_, start, count) =>
      case RecvProgress(_, m, granted) => ProgressVote(s.nodes[q], m.leader, m.from, m.matching, granted);
      case Flush(_, upto, granted) => ProgressVote(s.nodes[q], s.nodes[q].leader.value.id, q, Some(upto), granted);
    }
    QuietStep(cfg, s, s', q);
  }

  // ----- Every run ----------------------------------------------------------------

  lemma NextKeepsLease(cfg: Config, s: Sys, st: Step)
    requires ElectionInv(cfg, s) && LeaseInv(cfg, s) && Possible(cfg, s, st)
    ensures LeaseInv(cfg, Apply(cfg, s, st))
  {
    hide ElectionInv, NodesLeased, GrantsLeased, WinsLeased, LeaseStep, TickStep, VoteReqStep, VoteRespStep, WriteStep,
         SendStep, AppendStep, ProgressStep, HeartbeatStep, FlushStep;
    match st {
      case Tick(q) =>
        TickLease(cfg, s, q);
        LeaseStepKeeps(cfg, s, TickStep(cfg, s, q), q);
      case RecvVoteReq(q, m) =>
        VoteReqLease(cfg, s, q, m);
        LeaseStepKeeps(cfg, s, VoteReqStep(cfg, s, q, m), q);
      case RecvVoteResp(q, m) =>
        VoteRespLease(cfg, s, q, m);
        LeaseStepKeeps(cfg, s, VoteRespStep(cfg, s, q, m), q);
      case RecvAppend(q, m) =>
        AppendLease(cfg, s, q, m);
        LeaseStepKeeps(cfg, s, AppendStep(cfg, s, q, m), q);
      case RecvHeartbeat(q, m) =>
        HeartbeatLease(cfg, s, q, m);
        LeaseStepKeeps(cfg, s, HeartbeatStep(cfg, s, q, m), q);
      case Advance(d) =>
        TimePasses(cfg, s, d);
      case _ =>
        ReportLease(cfg, s, st);
        LeaseStepKeeps(cfg, s, Apply(cfg, s, st), st.q);
    }
  }

  /** As time passes leases only run out. */
  lemma TimePasses(cfg: Config, s: Sys, d: nat)
    requires LeaseInv(cfg, s)
    ensures LeaseInv(cfg, s.(now := s.now + d))
  {
    var s' := s.(now := s.now + d);
    assert forall t, u, a :: Holding(cfg, s', t, u, a) ==> Holding(cfg, s, t, u, a);
  }

  lemma {:induction false} RunLeaseInv(cfg: Config, run: seq<Sys>, i: nat)
    requires IsAnyRun(cfg, run) && i < |run|
    ensures ElectionInv(cfg, run[i]) && LeaseInv(cfg, run[i])
    decreases i
  {
    hide ElectionInv, Possible, Apply;
    AnyRunElects(cfg, run, i);
    if i > 0 {
      hide LeaseInv;
      RunLeaseInv(cfg, run, i - 1);
      assert Goes(cfg, run[i - 1], run[i - 1 + 1]);
      var st :| Possible(cfg, run[i - 1], st) && run[i] == Apply(cfg, run[i - 1], st);
      NextKeepsLease(cfg, run[i - 1], st);
    }
  }
}
