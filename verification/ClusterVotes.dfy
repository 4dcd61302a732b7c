/** The election steps keep the cluster invariant. */
module ClusterVotes {
  import opened Ids
  import opened Quorum
  import opened EngineSpec
  import opened Ballots
  import opened BallotSteps
  import opened Cluster
  import opened ClusterFrames

  lemma NodeOf(cfg: Config, s: Sys, q: NodeId)
    requires SysInv(cfg, s) && q in s.nodes
    ensures NodeInv(s.hist, s.net, s.now, cfg, q, s.nodes[q])
    ensures Inv(s.hist, cfg.joint) && cfg.Valid() && q in cfg.members
  {
  }

  lemma MsgOf(cfg: Config, s: Sys, m: Msg)
    requires SysInv(cfg, s) && m in s.net
    ensures MsgInv(s.hist, s.now, cfg, m)
  {
  }

  lemma SameHistory(h: History, q: NodeId)
    ensures Advances(h, h, q)
  {
  }

  /** A higher vote with the same log and the same commit keeps what is said about the commit. */
  lemma VoteRaised(h: History, h': History, cfg: Config, q: NodeId, n: Node, n': Node)
    requires Advances(h, h', q) && AnnouncedInv(h, cfg, n) && CommittedInv(h, cfg, n)
    requires Agree(n.log, n'.log, |n.log|) && n'.committed == n.committed && n'.announced == n.announced
    requires Le(n.vote.leader, n'.vote.leader)
    ensures AnnouncedInv(h', cfg, n') && CommittedInv(h', cfg, n')
  {
    AnnouncedAdvances(h, h', q, cfg, n);
    CommittedAdvances(h, h', q, cfg, n);
    if n.committed.Some? {
      var x, c :| Le(x, n.vote.leader) && CommittedUnder(h', cfg, n, x, c);
      assert CommittedUnder(h', cfg, n', x, c);
    }
  }

  /** The state of a node that takes a vote of another node. */
  function Following(cfg: Config, n: Node, vote: Vote, now: nat): Node {
    n.(vote := vote, utime := Some(now), lease := if vote.committed then cfg.leaderLease else 0,
       accepted := if n.vote == vote then n.accepted else Some(NewIo(vote)),
       leader := None, candidate := None)
  }

  lemma FollowsOther(cfg: Config, me: NodeId, n: Node, vote: Vote, now: nat)
    requires VoteLe(n.vote, vote) && vote.leader.node != me
    requires n.accepted.Some? && IoVote(n.accepted.value) == n.vote
    ensures UpdateVote(cfg, me, n, vote, now) == Some(Following(cfg, n, vote, now))
  {
  }

  lemma FollowingInv(h: History, h': History, net: set<Msg>, net': set<Msg>, now: nat, cfg: Config, q: NodeId,
                     n: Node, vote: Vote)
    requires Advances(h, h', q) && NodeInv(h, net, now, cfg, q, n) && VoteLe(n.vote, vote) && KnownVote(h', vote)
    requires q in h'.votes && h'.votes[q] == vote.leader && q in h'.logs && h'.logs[q] == n.log
    ensures NodeInv(h', net', now, cfg, q, Following(cfg, n, vote, now))
  {
    var n' := Following(cfg, n, vote, now);
    VoteRaised(h, h', cfg, q, n, n');
    if n.vote == vote {
      AcceptedAdvances(h, h', q, n);
    }
  }

  // ----- Tick ---------------------------------------------------------------------

  function Standing(n: Node, v: LeaderId, now: nat): Node {
    n.(vote := Vote(v, false), utime := Some(now), lease := 0, accepted := Some(VoteIo(v)),
       candidate := Some(Candidate(Vote(v, false), LastId(n.log), {})), seenGreater := false)
  }

  lemma ElectResult(cfg: Config, me: NodeId, n: Node, now: nat)
    requires me in cfg.members && n.accepted.Some? && IoVote(n.accepted.value) == n.vote
    requires TickElects(cfg, me, n, now)
    ensures TickElection(cfg, me, n, now) == Standing(n, LeaderId(n.vote.leader.term + 1, me), now)
  {
  }

  lemma TickHistory(h: History, joint: seq<set<NodeId>>, q: NodeId, v: LeaderId)
    requires Inv(h, joint) && q in h.votes && q in h.logs && v.node == q && Lt(h.votes[q], v)
    ensures var h' := GrantVote(Campaign(h, q, v), q, v);
            && Inv(h', joint) && Advances(h, h', q) && v !in h.camp && v !in h.elect
            && HasGrant(h', q, v) && h'.camp == h.camp[v := h.logs[q]] && h'.elect == h.elect
            && h'.votes == h.votes[q := v] && h'.logs == h.logs
  {
    hide Inv;
    CampaignKeeps(h, joint, q, v);
    var h1 := Campaign(h, q, v);
    GrantVoteKeeps(h1, joint, q, v);
    assert Grant(q, v, h1.logs[q]) in GrantVote(h1, q, v).grants;
  }

  lemma StandingInv(h: History, h': History, net: set<Msg>, net': set<Msg>, now: nat, cfg: Config, q: NodeId,
                    n: Node, v: LeaderId)
    requires Advances(h, h', q) && NodeInv(h, net, now, cfg, q, n) && v == LeaderId(n.vote.leader.term + 1, q)
    requires v in h'.camp && h'.camp[v] == n.log && v !in h'.elect && n.leader.None?
    requires q in h'.votes && h'.votes[q] == v && q in h'.logs && h'.logs[q] == n.log
    ensures NodeInv(h', net', now, cfg, q, Standing(n, v, now))
  {
    VoteRaised(h, h', cfg, q, n, Standing(n, v, now));
  }

  lemma TickKeeps(cfg: Config, s: Sys, q: NodeId)
    requires SysInv(cfg, s) && q in s.nodes
    ensures Kept(cfg, s, TickStep(cfg, s, q))
  {
    hide SysInv, Inv, GrantVote, Campaign;
    var n, s' := s.nodes[q], TickStep(cfg, s, q);
    if TickElects(cfg, q, n, s.now) {
      var v := LeaderId(n.vote.leader.term + 1, q);
      NodeOf(cfg, s, q);
      TickHistory(s.hist, cfg.joint, q, v);
      ElectResult(cfg, q, n, s.now);
      StandingInv(s.hist, s'.hist, s.net, s'.net, s.now, cfg, q, n, v);
      StepKept(cfg, s, s', q);
    }
  }

  // ----- Vote request -------------------------------------------------------------

  lemma GrantHistory(h: History, joint: seq<set<NodeId>>, q: NodeId, v: LeaderId)
    requires Inv(h, joint) && q in h.votes && q in h.logs && Le(h.votes[q], v)
    requires v in h.camp && OptLe(LastId(h.logs[q]), LastId(h.camp[v]))
    ensures var h' := GrantVote(h, q, v);
            && Inv(h', joint) && Advances(h, h', q) && HasGrant(h', q, v)
            && h'.votes == h.votes[q := v] && h'.logs == h.logs && h'.camp == h.camp
  {
    GrantVoteKeeps(h, joint, q, v);
    assert Grant(q, v, h.logs[q]) in GrantVote(h, q, v).grants;
  }

  lemma VoteReqKeeps(cfg: Config, s: Sys, q: NodeId, m: Msg)
    requires SysInv(cfg, s) && Enabled(cfg, s, RecvVoteReq(q, m))
    ensures Kept(cfg, s, VoteReqStep(cfg, s, q, m))
  {
    hide SysInv, Inv, GrantVote;
    var n, s' := s.nodes[q], VoteReqStep(cfg, s, q, m);
    NodeOf(cfg, s, q);
    MsgOf(cfg, s, m);
    var vote := Vote(m.vote, false);
    if GrantsVote(cfg, q, n, vote, m.last, s.now) {
      GrantHistory(s.hist, cfg.joint, q, m.vote);
      FollowsOther(cfg, q, n, vote, s.now);
      FollowingInv(s.hist, s'.hist, s.net, s'.net, s.now, cfg, q, n, vote);
    } else {
      SameHistory(s.hist, q);
      NetGrows(s.hist, s.net, s'.net, s.now, cfg, q, n);
    }
    StepKept(cfg, s, s', q);
  }

  /** More messages do not disturb a node. */
  lemma NetGrows(h: History, net: set<Msg>, net': set<Msg>, now: nat, cfg: Config, q: NodeId, n: Node)
    requires net <= net' && NodeInv(h, net, now, cfg, q, n)
    ensures NodeInv(h, net', now, cfg, q, n)
  {
    SameHistory(h, q);
    if n.leader.Some? {
      ProgressAdvances(h, h, net, net', q, cfg, q, n);
    }
  }

  // ----- Vote response ------------------------------------------------------------

  function Winning(cfg: Config, n: Node, v: LeaderId, now: nat): Node {
    var last := Some(LogId(v, |n.log|));
    n.(vote := Vote(v, true), utime := Some(now), lease := cfg.leaderLease, candidate := None,
       log := n.log + [v], accepted := Some(LogIo(v, last)),
       leader := Some(NewLeading(cfg, v, LastId(n.log), LastId(n.log)).(lastLogId := last)))
  }

  lemma OneMore(log: Log, v: LeaderId)
    ensures NextIndex(LastId(log)) == |log| && Repeat(v, 1) == [v]
  {
  }

  /** What `establish_leader` leaves behind when no older leader is in the way. */
  lemma EstablishResult(cfg: Config, me: NodeId, n: Node, now: nat)
    requires me in cfg.members && n.candidate.Some? && n.leader.None?
    requires n.candidate.value.vote == n.vote && !n.vote.committed && n.vote.leader.node == me
    requires n.accepted.Some? && IoVote(n.accepted.value) == n.vote && n.candidate.value.lastLogId == LastId(n.log)
    requires |n.log| > 0 ==> Le(n.log[|n.log| - 1], n.vote.leader)
    ensures Establish(cfg, me, n, now) == Winning(cfg, n, n.vote.leader, now)
  {
    var v := n.vote.leader;
    OneMore(n.log, v);
    var l := NewLeading(cfg, v, LastId(n.log), LastId(n.log));
    var n1 := n.(candidate := None, leader := Some(l));
    var n2 := n1.(vote := Vote(v, true), utime := Some(now), lease := cfg.leaderLease, accepted := Some(LogIo(v, None)));
    assert UpdateServerState(cfg, me, n2) == n2;
    assert UpdateVote(cfg, me, n1, Vote(v, true), now) == Some(n2);
    var n3 := AcceptLogIo(n2, LogIo(v, l.lastLogId));
    assert n3 == n2.(accepted := Some(LogIo(v, l.lastLogId)));
    var last := Some(LogId(v, |n.log|));
    assert LeaderAppend(n3, 1) == n3.(leader := Some(l.(lastLogId := last)), log := n.log + [v], accepted := Some(LogIo(v, last)));
    assert Establish(cfg, me, n, now) == LeaderAppend(n3, 1);
  }

  lemma WinHistory(h: History, joint: seq<set<NodeId>>, q: NodeId, v: LeaderId, granters: set<NodeId>)
    requires Inv(h, joint) && q in h.votes && q in h.logs && v.node == q && h.votes[q] == v && v.term > 0
    requires v in h.camp && h.camp[v] == h.logs[q] && v !in h.elect && IsQuorum(joint, granters)
    requires forall g :: g in granters ==> HasGrant(h, g, v)
    ensures var h' := Won(h, q, v, granters);
            && Inv(h', joint) && Advances(h, h', q)
            && h'.votes == h.votes && h'.logs == h.logs[q := h.logs[q] + [v]] && h'.camp == h.camp
            && h'.elect == h.elect[v := Election(granters, h.logs[q] + [v])]
  {
    hide Inv;
    WinKeepsAll(h, joint, v, granters);
    var h1 := Win(h, v, granters);
    ProposeKeeps(h1, joint, q, v, 1);
    OneMore(h.logs[q], v);
    assert h1.votes == h.votes && h1.logs == h.logs;
    forall u | u in h.elect ensures ElectGrows(h, Propose(h1, q, v, 1), u) {
      assert ElectGrows(h1, Propose(h1, q, v, 1), u);
    }
  }

  lemma LogBelowVote(h: History, joint: seq<set<NodeId>>, q: NodeId)
    requires Inv(h, joint) && q in h.votes
    ensures q in h.logs && forall p :: 0 <= p < |h.logs[q]| ==> Le(h.logs[q][p], h.votes[q])
  {
    assert NodeOk(h, q);
  }

  lemma CampBelowVote(h: History, joint: seq<set<NodeId>>, v: LeaderId)
    requires Inv(h, joint) && v in h.camp
    ensures forall p :: 0 <= p < |h.camp[v]| ==> Lt(h.camp[v][p], v)
  {
    assert CampOk(h, v);
  }

  lemma WinningInv(h: History, h': History, net: set<Msg>, now: nat, cfg: Config, q: NodeId, n: Node, v: LeaderId)
    requires Advances(h, h', q) && NodeInv(h, net, now, cfg, q, n) && v == n.vote.leader && v.node == q && v.term > 0
    requires v in h'.camp && h'.camp[v] == n.log && v in h'.elect && h'.elect[v].log == n.log + [v]
    requires |n.log| > 0 ==> n.log[|n.log| - 1] != v
    requires q in h'.votes && h'.votes[q] == v && q in h'.logs && h'.logs[q] == n.log + [v]
    ensures NodeInv(h', net, now, cfg, q, Winning(cfg, n, v, now))
  {
    VoteRaised(h, h', cfg, q, n, Winning(cfg, n, v, now));
  }

  lemma WinningRespKeeps(cfg: Config, s: Sys, q: NodeId, m: Msg)
    requires SysInv(cfg, s) && Enabled(cfg, s, RecvVoteResp(q, m))
    requires var n := s.nodes[q];
             && n.candidate.Some? && n.candidate.value.vote == Vote(m.candidate, false)
             && m.reply.granted && m.reply.vote == n.candidate.value.vote
             && IsQuorum(cfg.joint, n.candidate.value.granters + {m.from})
    ensures Kept(cfg, s, VoteRespStep(cfg, s, q, m))
  {
    hide SysInv, Inv;
    var n, s' := s.nodes[q], VoteRespStep(cfg, s, q, m);
    var v, granters := n.vote.leader, n.candidate.value.granters + {m.from};
    NodeOf(cfg, s, q);
    MsgOf(cfg, s, m);
    WinHistory(s.hist, cfg.joint, q, v, granters);
    LogBelowVote(s.hist, cfg.joint, q);
    CampBelowVote(s.hist, cfg.joint, v);
    EstablishResult(cfg, q, n.(candidate := Some(n.candidate.value.(granters := granters))), s.now);
    assert s'.nodes[q] == Winning(cfg, n, v, s.now);
    assert s'.hist == Won(s.hist, q, v, granters);
    WinningInv(s.hist, s'.hist, s.net, s.now, cfg, q, n, v);
    StepKept(cfg, s, s', q);
  }

  /** A rejection never carries a later vote of the candidate itself. */
  lemma RejectionIsNotOwn(h: History, joint: seq<set<NodeId>>, q: NodeId, y: LeaderId)
    requires Inv(h, joint) && (y in h.camp || y.term == 0) && y.node == q
    requires q in h.votes && Le(LeaderId(0, q), h.votes[q]) && Le(h.votes[q], y)
    ensures y == h.votes[q]
  {
    assert y in h.camp ==> CampOk(h, y);
  }

  lemma RaiseHistory(h: History, joint: seq<set<NodeId>>, q: NodeId, y: LeaderId)
    requires Inv(h, joint) && q in h.votes && Le(h.votes[q], y)
    ensures Inv(Raise(h, q, y), joint) && Advances(h, Raise(h, q, y), q)
  {
    RaiseKeeps(h, joint, q, y);
  }

  /** A node whose vote is only touched, or whose view of greater logs changes. */
  lemma TouchedInv(h: History, net: set<Msg>, now: nat, cfg: Config, q: NodeId, n: Node, n': Node)
    requires NodeInv(h, net, now, cfg, q, n) && !n.vote.committed
    requires n' == n.(seenGreater := n'.seenGreater)
          || n' == n.(seenGreater := n'.seenGreater, utime := Some(now), lease := 0)
    ensures NodeInv(h, net, now, cfg, q, n')
  {
    SameHistory(h, q);
    VoteRaised(h, h, cfg, q, n, n');
  }

  lemma RejectedRespKeeps(cfg: Config, s: Sys, q: NodeId, m: Msg)
    requires SysInv(cfg, s) && Enabled(cfg, s, RecvVoteResp(q, m))
    requires var n := s.nodes[q];
             && n.candidate.Some? && n.candidate.value.vote == Vote(m.candidate, false)
             && !(m.reply.granted && m.reply.vote == n.candidate.value.vote)
    ensures Kept(cfg, s, VoteRespStep(cfg, s, q, m))
  {
    hide SysInv, Inv;
    var n, s' := s.nodes[q], VoteRespStep(cfg, s, q, m);
    NodeOf(cfg, s, q);
    MsgOf(cfg, s, m);
    var y, n' := m.reply.vote.leader, s'.nodes[q];
    var n1 := if OptLe(m.reply.lastLogId, LastId(n.log)) then n else n.(seenGreater := true);
    TouchedInv(s.hist, s.net, s.now, cfg, q, n, n1);
    if VoteLe(n.vote, Vote(y, false)) {
      if y.node == q {
        RejectionIsNotOwn(s.hist, cfg.joint, q, y);
        assert n' == n1.(utime := Some(s.now), lease := 0);
        TouchedInv(s.hist, s.net, s.now, cfg, q, n, n');
      } else {
        FollowsOther(cfg, q, n1, Vote(y, false), s.now);
        RaiseHistory(s.hist, cfg.joint, q, y);
        FollowingInv(s.hist, s'.hist, s.net, s.net, s.now, cfg, q, n1, Vote(y, false));
      }
    } else {
      assert n' == n1;
    }
    UnchangedVote(s.hist, q, n'.vote.leader);
    StepKept(cfg, s, s', q);
  }

  lemma UnchangedVote(h: History, q: NodeId, v: LeaderId)
    ensures q in h.votes && h.votes[q] == v ==> Raise(h, q, v) == h && Advances(h, h, q)
  {
  }

  lemma GranterAdded(h: History, net: set<Msg>, now: nat, cfg: Config, q: NodeId, n: Node, t: NodeId)
    requires NodeInv(h, net, now, cfg, q, n) && n.candidate.Some? && HasGrant(h, t, n.vote.leader)
    ensures var c := n.candidate.value;
            NodeInv(h, net, now, cfg, q, n.(candidate := Some(c.(granters := c.granters + {t}))))
  {
    SameHistory(h, q);
    var c := n.candidate.value;
    VoteRaised(h, h, cfg, q, n, n.(candidate := Some(c.(granters := c.granters + {t}))));
  }

  lemma VoteRespKeeps(cfg: Config, s: Sys, q: NodeId, m: Msg)
    requires SysInv(cfg, s) && Enabled(cfg, s, RecvVoteResp(q, m))
    ensures Kept(cfg, s, VoteRespStep(cfg, s, q, m))
  {
    hide SysInv, Inv;
    var n, s' := s.nodes[q], VoteRespStep(cfg, s, q, m);
    NodeOf(cfg, s, q);
    MsgOf(cfg, s, m);
    if n.candidate.None? || n.candidate.value.vote != Vote(m.candidate, false) {
      UnchangedVote(s.hist, q, n.vote.leader);
      assert s'.nodes == s.nodes;
      assert s'.hist == s.hist;
      assert s' == s;
    } else if !(m.reply.granted && m.reply.vote == n.candidate.value.vote) {
      RejectedRespKeeps(cfg, s, q, m);
    } else if IsQuorum(cfg.joint, n.candidate.value.granters + {m.from}) {
      WinningRespKeeps(cfg, s, q, m);
    } else {
      assert s'.nodes[q] == n.(candidate := Some(n.candidate.value.(granters := n.candidate.value.granters + {m.from})));
      UnchangedVote(s.hist, q, n.vote.leader);
      GranterAdded(s.hist, s.net, s.now, cfg, q, n, m.from);
      StepKept(cfg, s, s', q);
    }
  }
}
