/** Elections, clocks and leaders in every run of the cluster, whatever value its commit step is handed: the part of
    the protocol that does not look at commits. */
module Elections {
  import opened Ids
  import opened Quorum
  import opened EngineSpec
  import opened Ballots
  import opened BallotSteps
  import opened Cluster
  import opened ClusterFrames
  import opened ClusterVotes
  import opened ClusterLog
  import opened ClusterSafety

  // ----- The invariant ------------------------------------------------------------

  ghost predicate CampDated(h: History, v: LeaderId) {
    v == GENESIS || (v.node in h.votes && Le(v, h.votes[v.node]))
  }

  ghost predicate GrantDated(h: History, g: Grant) {
    g.node in h.votes && g.vote in h.camp && Le(g.vote, h.votes[g.node])
  }

  ghost predicate WonByQuorum(h: History, joint: seq<set<NodeId>>, u: LeaderId)
    requires u in h.elect
  {
    && u in h.camp
    && (u != GENESIS ==> IsQuorum(joint, h.elect[u].granters))
    && forall q :: q in h.elect[u].granters ==> HasGrant(h, q, u)
  }

  /** Candidacies and grants are not above the present votes, and leaders were elected by a quorum of grants. */
  ghost predicate BallotsOk(h: History, joint: seq<set<NodeId>>) {
    && (forall v :: v in h.camp ==> CampDated(h, v))
    && (forall g :: g in h.grants ==> GrantDated(h, g))
    && (forall u :: u in h.elect ==> WonByQuorum(h, joint, u))
  }

  /** A candidate stands with the present vote of the node. */
  ghost predicate StandsOk(h: History, q: NodeId, n: Node) {
    n.candidate.Some? ==>
      var v := n.candidate.value.vote.leader;
      && n.candidate.value.vote == n.vote && !n.vote.committed && v.node == q && v.term > 0
      && v in h.camp && v !in h.elect && n.leader.None?
      && forall g :: g in n.candidate.value.granters ==> HasGrant(h, g, v)
  }

  /** A leader holds its own committed vote, and its clock knows answers that were sent. */
  ghost predicate LeadsOk(h: History, net: set<Msg>, q: NodeId, n: Node) {
    n.leader.Some? ==>
      var l := n.leader.value;
      && n.vote == Vote(l.id, true) && l.id.node == q && l.id in h.elect && l.noop.leader == l.id
      && forall t :: t in l.clock && l.clock[t].Some? ==> ClockAcked(net, t, l.id, l.clock[t].value)
  }

  ghost predicate VotesOk(h: History, net: set<Msg>, now: nat, cfg: Config, q: NodeId, n: Node) {
    && q in h.votes && h.votes[q] == n.vote.leader && q in h.logs
    && VoteInv(h, cfg, q, n, now)
    && n.accepted.Some? && IoVote(n.accepted.value) == n.vote
    && StandsOk(h, q, n)
    && LeadsOk(h, net, q, n)
  }

  ghost predicate MsgOk(h: History, now: nat, cfg: Config, m: Msg) {
    match m
    case VoteReq(v, last) => v in h.camp && v.term > 0
    case VoteResp(from, cand, reply) =>
      && KnownVote(h, reply.vote)
      && (reply.granted ==> reply.vote == Vote(cand, false) && HasGrant(h, from, cand))
    case AppendReq(u, prev, entries, commit, sentAt) => u in h.elect && u.term > 0 && sentAt <= now
    case AppendResp(from, u, outcome, matching, sentAt) =>
      && u in h.elect && from in h.votes && from != u.node && sentAt <= now
      && (outcome.HigherVote? ==> Lt(u, outcome.vote.leader) && KnownVote(h, outcome.vote))
  }

  ghost predicate AllVotesOk(cfg: Config, s: Sys) {
    forall q :: q in s.nodes ==> VotesOk(s.hist, s.net, s.now, cfg, q, s.nodes[q])
  }

  ghost predicate AllMsgsOk(cfg: Config, s: Sys) {
    forall m :: m in s.net ==> MsgOk(s.hist, s.now, cfg, m)
  }

  ghost predicate ElectionInv(cfg: Config, s: Sys) {
    && cfg.Valid()
    && s.nodes.Keys == cfg.members
    && BallotsOk(s.hist, cfg.joint)
    && AllVotesOk(cfg, s)
    && AllMsgsOk(cfg, s)
  }

  lemma VoterOf(cfg: Config, s: Sys, q: NodeId)
    requires ElectionInv(cfg, s) && q in s.nodes
    ensures VotesOk(s.hist, s.net, s.now, cfg, q, s.nodes[q])
    ensures BallotsOk(s.hist, cfg.joint) && cfg.Valid() && q in cfg.members
  {
  }

  lemma SentOf(cfg: Config, s: Sys, m: Msg)
    requires ElectionInv(cfg, s) && m in s.net
    ensures MsgOk(s.hist, s.now, cfg, m)
  {
  }

  // ----- What a step of one node leaves alone -------------------------------------

  lemma OtherVotesStay(h: History, h': History, net: set<Msg>, net': set<Msg>, now: nat, now': nat, cfg: Config,
                       q: NodeId, p: NodeId, n: Node)
    requires Advances(h, h', q) && net <= net' && now <= now' && p != q && VotesOk(h, net, now, cfg, p, n)
    ensures VotesOk(h', net', now', cfg, p, n)
  {
    KnownVoteAdvances(h, h', q, n.vote);
    if n.candidate.Some? {
      forall g | g in n.candidate.value.granters ensures HasGrant(h', g, n.vote.leader) {
        HasGrantStays(h, h', g, n.vote.leader);
      }
    }
    if n.leader.Some? {
      LeadsStays(h, h', net, net', q, p, n);
    }
  }

  lemma LeadsStays(h: History, h': History, net: set<Msg>, net': set<Msg>, q: NodeId, p: NodeId, n: Node)
    requires Later(h, h') && net <= net' && LeadsOk(h, net, p, n) && n.leader.Some?
    ensures LeadsOk(h', net', p, n)
  {
    var l := n.leader.value;
    assert ElectGrows(h, h', l.id);
    forall t | t in l.clock && l.clock[t].Some? ensures ClockAcked(net', t, l.id, l.clock[t].value) {
      ClockAdvances(net, net', t, l.id, l.clock[t].value);
    }
  }

  lemma SentStays(h: History, h': History, now: nat, now': nat, cfg: Config, q: NodeId, m: Msg)
    requires Advances(h, h', q) && now <= now' && MsgOk(h, now, cfg, m)
    ensures MsgOk(h', now', cfg, m)
  {
    match m {
      case VoteReq(v, last) =>
      case VoteResp(from, cand, reply) =>
        KnownVoteAdvances(h, h', q, reply.vote);
        if reply.granted {
          HasGrantStays(h, h', from, cand);
        }
      case AppendReq(u, prev, entries, commit, sentAt) =>
        assert ElectGrows(h, h', u);
      case AppendResp(from, u, outcome, matching, sentAt) =>
        assert ElectGrows(h, h', u);
        if outcome.HigherVote? {
          KnownVoteAdvances(h, h', q, outcome.vote);
        }
    }
  }

  /** What every step keeps. */
  ghost predicate Elects(cfg: Config, s: Sys, s': Sys) {
    ElectionInv(cfg, s') && Later(s.hist, s'.hist)
  }

  lemma VotesKept(cfg: Config, s: Sys, s': Sys, q: NodeId)
    requires ElectionInv(cfg, s) && q in s.nodes
    requires s'.nodes.Keys == s.nodes.Keys && forall p :: p in s.nodes && p != q ==> s'.nodes[p] == s.nodes[p]
    requires s.net <= s'.net && s.now <= s'.now
    requires BallotsOk(s'.hist, cfg.joint) && Advances(s.hist, s'.hist, q)
    requires VotesOk(s'.hist, s'.net, s'.now, cfg, q, s'.nodes[q])
    requires forall m :: m in s'.net && m !in s.net ==> MsgOk(s'.hist, s'.now, cfg, m)
    ensures Elects(cfg, s, s')
  {
    hide VotesOk, MsgOk, BallotsOk, Advances;
    assert Later(s.hist, s'.hist) by { AdvancesLater(s.hist, s'.hist, q); }
    forall p | p in s'.nodes ensures VotesOk(s'.hist, s'.net, s'.now, cfg, p, s'.nodes[p]) {
      if p != q {
        OtherVotesStay(s.hist, s'.hist, s.net, s'.net, s.now, s'.now, cfg, q, p, s.nodes[p]);
      }
    }
    forall m | m in s'.net ensures MsgOk(s'.hist, s'.now, cfg, m) {
      if m in s.net {
        SentStays(s.hist, s'.hist, s.now, s'.now, cfg, q, m);
      }
    }
  }

  lemma AdvancesLater(h: History, h': History, q: NodeId)
    requires Advances(h, h', q)
    ensures Later(h, h')
  {
  }

  // ----- What happens to the history ----------------------------------------------

  /** A vote moves up, and nobody stands, grants or wins. */
  lemma RaiseBallots(h: History, h': History, joint: seq<set<NodeId>>, q: NodeId, v: LeaderId)
    requires BallotsOk(h, joint) && q in h.votes && Le(h.votes[q], v)
    requires h'.votes == h.votes[q := v] && h'.camp == h.camp && h'.elect == h.elect && h'.grants == h.grants
    requires h.acks <= h'.acks && forall p :: p in h.logs ==> p in h'.logs && (p != q ==> h'.logs[p] == h.logs[p])
    ensures BallotsOk(h', joint) && Advances(h, h', q)
  {
    forall u | u in h'.elect ensures WonByQuorum(h', joint, u) {
      assert WonByQuorum(h, joint, u);
      forall t | t in h'.elect[u].granters ensures HasGrant(h', t, u) {
        assert HasGrant(h, t, u);
      }
    }
    forall c | c in h'.camp ensures CampDated(h', c) {
      assert CampDated(h, c);
    }
    forall g | g in h'.grants ensures GrantDated(h', g) {
      assert GrantDated(h, g);
    }
  }

  lemma GrantBallots(h: History, joint: seq<set<NodeId>>, q: NodeId, v: LeaderId)
    requires BallotsOk(h, joint) && q in h.votes && q in h.logs && Le(h.votes[q], v) && v in h.camp
    ensures var h' := GrantVote(h, q, v);
            && BallotsOk(h', joint) && Advances(h, h', q) && HasGrant(h', q, v)
            && h'.votes == h.votes[q := v] && h'.logs == h.logs && h'.camp == h.camp && h'.elect == h.elect
  {
    var h' := GrantVote(h, q, v);
    assert Grant(q, v, h.logs[q]) in h'.grants;
    forall u | u in h'.elect ensures WonByQuorum(h', joint, u) {
      assert WonByQuorum(h, joint, u);
      forall t | t in h'.elect[u].granters ensures HasGrant(h', t, u) {
        HasGrantStays(h, h', t, u);
      }
    }
    forall c | c in h'.camp ensures CampDated(h', c) {
      assert CampDated(h, c);
    }
    forall g | g in h'.grants ensures GrantDated(h', g) {
      assert g in h.grants ==> GrantDated(h, g);
    }
  }

  lemma CampaignBallots(h: History, joint: seq<set<NodeId>>, q: NodeId, v: LeaderId)
    requires BallotsOk(h, joint) && q in h.votes && q in h.logs && Lt(h.votes[q], v) && v.node == q && v.term > 0
    ensures var h' := Campaign(h, q, v);
            && BallotsOk(h', joint) && Advances(h, h', q) && v in h'.camp && v !in h.camp && v !in h.elect
            && h'.votes == h.votes[q := v] && h'.logs == h.logs && h'.elect == h.elect
  {
    var h' := Campaign(h, q, v);
    assert v in h.camp ==> CampDated(h, v);
    assert v in h.elect ==> WonByQuorum(h, joint, v);
    forall u | u in h'.elect ensures WonByQuorum(h', joint, u) {
      assert WonByQuorum(h, joint, u);
      forall t | t in h'.elect[u].granters ensures HasGrant(h', t, u) {
        assert HasGrant(h, t, u);
      }
    }
    forall c | c in h'.camp ensures CampDated(h', c) {
      assert c in h.camp ==> CampDated(h, c);
    }
    forall g | g in h'.grants ensures GrantDated(h', g) {
      assert GrantDated(h, g);
    }
  }

  /** A candidacy wins, or a leader proposes: one election is new or longer. */
  lemma ElectBallots(h: History, h': History, joint: seq<set<NodeId>>, q: NodeId, u: LeaderId)
    requires BallotsOk(h, joint) && u.node == q && u in h'.elect
    requires h'.votes == h.votes && h'.camp == h.camp && h'.grants == h.grants && h'.acks == h.acks
    requires h'.elect.Keys == h.elect.Keys + {u} && forall w :: w in h.elect && w != u ==> h'.elect[w] == h.elect[w]
    requires forall p :: p in h.logs ==> p in h'.logs && (p != q ==> h'.logs[p] == h.logs[p])
    requires if u in h.elect then ElectGrows(h, h', u) else WonByQuorum(h', joint, u)
    ensures BallotsOk(h', joint) && Advances(h, h', q)
  {
    forall w | w in h'.elect ensures WonByQuorum(h', joint, w) {
      if w in h.elect {
        assert WonByQuorum(h, joint, w);
        forall t | t in h'.elect[w].granters ensures HasGrant(h', t, w) {
          assert HasGrant(h, t, w);
        }
      }
    }
    forall c | c in h'.camp ensures CampDated(h', c) {
      assert CampDated(h, c);
    }
    forall g | g in h'.grants ensures GrantDated(h', g) {
      assert GrantDated(h, g);
    }
    forall w | w in h.elect ensures ElectGrows(h, h', w) {
    }
  }

  // ----- Steps --------------------------------------------------------------------

  lemma TickBallots(h: History, joint: seq<set<NodeId>>, q: NodeId, v: LeaderId)
    requires BallotsOk(h, joint) && q in h.votes && q in h.logs && Lt(h.votes[q], v) && v.node == q && v.term > 0
    ensures var h' := GrantVote(Campaign(h, q, v), q, v);
            && BallotsOk(h', joint) && Advances(h, h', q) && HasGrant(h', q, v)
            && v in h'.camp && v !in h'.elect && q in h'.votes && h'.votes[q] == v && q in h'.logs
  {
    hide BallotsOk, Advances, GrantVote, Campaign;
    var h1 := Campaign(h, q, v);
    CampaignBallots(h, joint, q, v);
    GrantBallots(h1, joint, q, v);
    AdvancesChain(h, h1, GrantVote(h1, q, v), q);
  }

  /** What the tick step looks at in the state of the node. */
  lemma VoteOf(h: History, net: set<Msg>, now: nat, cfg: Config, q: NodeId, n: Node)
    requires VotesOk(h, net, now, cfg, q, n)
    ensures q in h.votes && h.votes[q] == n.vote.leader && q in h.logs && Le(LeaderId(0, q), n.vote.leader)
    ensures n.accepted.Some? && IoVote(n.accepted.value) == n.vote
    ensures n.leader.Some? ==> n.vote == Vote(n.leader.value.id, true) && n.leader.value.id.node == q
  {
  }

  lemma TickElectsOk(cfg: Config, s: Sys, q: NodeId)
    requires ElectionInv(cfg, s) && Possible(cfg, s, Tick(q))
    ensures Elects(cfg, s, TickStep(cfg, s, q))
  {
    hide ElectionInv, BallotsOk, TickElects, GrantVote, Campaign, Advances, VotesOk;
    VoterOf(cfg, s, q);
    var n, s' := s.nodes[q], TickStep(cfg, s, q);
    VoteOf(s.hist, s.net, s.now, cfg, q, n);
    if TickElects(cfg, q, n, s.now) {
      var v := LeaderId(n.vote.leader.term + 1, q);
      ElectResult(cfg, q, n, s.now);
      LeaderDoesNotStand(cfg, q, n, s.now);
      TickBallots(s.hist, cfg.joint, q, v);
      StandingOk(s.hist, s'.hist, s.net, s'.net, s.now, cfg, q, n, v);
      VotesKept(cfg, s, s', q);
    } else {
      NothingKept(cfg, s);
    }
  }

  lemma LeaderDoesNotStand(cfg: Config, q: NodeId, n: Node, now: nat)
    requires q in cfg.members && TickElects(cfg, q, n, now)
    requires n.leader.Some? ==> n.vote == Vote(n.leader.value.id, true) && n.leader.value.id.node == q
    ensures n.leader.None?
  {
  }

  lemma StandingOk(h: History, h': History, net: set<Msg>, net': set<Msg>, now: nat, cfg: Config, q: NodeId, n: Node,
                   v: LeaderId)
    requires VotesOk(h, net, now, cfg, q, n) && n.leader.None? && v == LeaderId(n.vote.leader.term + 1, q)
    requires v in h'.camp && v !in h'.elect && q in h'.votes && h'.votes[q] == v && q in h'.logs
    ensures VotesOk(h', net', now, cfg, q, Standing(n, v, now))
  {
  }

  lemma NothingKept(cfg: Config, s: Sys)
    requires ElectionInv(cfg, s)
    ensures Elects(cfg, s, s)
  {
    SameHistory(s.hist, 0);
  }

  lemma AdvancesChain(a: History, b: History, c: History, q: NodeId)
    requires Advances(a, b, q) && Advances(b, c, q)
    ensures Advances(a, c, q)
  {
    forall u | u in a.elect ensures ElectGrows(a, c, u) {
      assert ElectGrows(a, b, u) && ElectGrows(b, c, u);
    }
  }

  lemma FollowingOk(h: History, h': History, net: set<Msg>, net': set<Msg>, now: nat, cfg: Config, q: NodeId,
                    n: Node, vote: Vote)
    requires Advances(h, h', q) && VotesOk(h, net, now, cfg, q, n) && VoteLe(n.vote, vote) && KnownVote(h', vote)
    requires q in h'.votes && h'.votes[q] == vote.leader && q in h'.logs
    ensures VotesOk(h', net', now, cfg, q, Following(cfg, n, vote, now))
  {
  }

  lemma VoteReqElectsOk(cfg: Config, s: Sys, q: NodeId, m: Msg)
    requires ElectionInv(cfg, s) && Possible(cfg, s, RecvVoteReq(q, m))
    ensures Elects(cfg, s, VoteReqStep(cfg, s, q, m))
  {
    hide ElectionInv, BallotsOk, UpdateVote, GrantVote;
    var n, s' := s.nodes[q], VoteReqStep(cfg, s, q, m);
    VoterOf(cfg, s, q);
    SentOf(cfg, s, m);
    if GrantsVote(cfg, q, n, Vote(m.vote, false), m.last, s.now) {
      GrantBallots(s.hist, cfg.joint, q, m.vote);
      FollowsOther(cfg, q, n, Vote(m.vote, false), s.now);
      FollowingOk(s.hist, s'.hist, s.net, s'.net, s.now, cfg, q, n, Vote(m.vote, false));
    } else {
      SameHistory(s.hist, q);
      NetVotes(s.hist, s.net, s'.net, s.now, cfg, q, n);
    }
    VotesKept(cfg, s, s', q);
  }

  lemma NetVotes(h: History, net: set<Msg>, net': set<Msg>, now: nat, cfg: Config, q: NodeId, n: Node)
    requires net <= net' && VotesOk(h, net, now, cfg, q, n)
    ensures VotesOk(h, net', now, cfg, q, n)
  {
    SameHistory(h, q);
    if n.leader.Some? {
      LeadsStays(h, h, net, net', q, q, n);
    }
  }

  /** What `establish_leader` leaves of the vote, whatever the log is. */
  lemma EstablishVotes(cfg: Config, me: NodeId, n: Node, now: nat)
    requires me in cfg.members && n.candidate.Some? && n.leader.None?
    requires n.candidate.value.vote == n.vote && !n.vote.committed && n.vote.leader.node == me
    requires n.accepted.Some? && IoVote(n.accepted.value) == n.vote
    ensures var n', v := Establish(cfg, me, n, now), n.vote.leader;
            && n'.vote == Vote(v, true) && n'.utime == Some(now) && n'.lease == cfg.leaderLease && n'.candidate.None?
            && n'.accepted.Some? && IoVote(n'.accepted.value) == n'.vote
            && n'.leader.Some? && n'.leader.value.id == v && n'.leader.value.noop.leader == v && n'.log == n.log + [v]
            && n'.leader.value.progress == (map q | q in cfg.members :: None)
            && n'.leader.value.clock == (map q | q in cfg.members :: None)
  {
    hide NewLeading;
    var v, last := n.vote.leader, n.candidate.value.lastLogId;
    var l := NewLeading(cfg, v, last, last);
    NewLeads(cfg, v, last);
    var n1 := n.(candidate := None, leader := Some(l));
    var n2 := n1.(vote := Vote(v, true), utime := Some(now), lease := cfg.leaderLease, accepted := Some(LogIo(v, None)));
    assert UpdateServerState(cfg, me, n2) == n2;
    assert UpdateVote(cfg, me, n1, Vote(v, true), now) == Some(n2);
    var n3 := AcceptLogIo(n2, LogIo(v, last));
    assert Repeat(v, 1) == [v];
    assert Establish(cfg, me, n, now) == LeaderAppend(n3, 1);
  }

  lemma NewLeads(cfg: Config, v: LeaderId, last: Option<LogId>)
    ensures var l := NewLeading(cfg, v, last, last);
            && l.id == v && l.lastLogId == last && l.noop.leader == v
            && l.progress == (map q | q in cfg.members :: None) && l.clock == (map q | q in cfg.members :: None)
  {
  }

  lemma WonBallots(h: History, joint: seq<set<NodeId>>, q: NodeId, v: LeaderId, granters: set<NodeId>)
    requires BallotsOk(h, joint) && q in h.votes && v.node == q && v in h.camp && v !in h.elect
    requires IsQuorum(joint, granters) && forall g :: g in granters ==> HasGrant(h, g, v)
    ensures var h' := Won(h, q, v, granters);
            && BallotsOk(h', joint) && Advances(h, h', q) && h'.votes == h.votes && v in h'.elect && v in h'.camp
            && (q in h.logs ==> q in h'.logs)
  {
    var h' := Won(h, q, v, granters);
    assert WonByQuorum(h', joint, v) by {
      forall g | g in granters ensures HasGrant(h', g, v) {
        assert HasGrant(h, g, v);
      }
    }
    ElectBallots(h, h', joint, q, v);
  }

  lemma WinnerOk(h: History, h': History, net: set<Msg>, now: nat, cfg: Config, q: NodeId, n: Node, n': Node, v: LeaderId)
    requires VotesOk(h, net, now, cfg, q, n) && v == n.vote.leader && v.node == q && v.term > 0
    requires n'.vote == Vote(v, true) && n'.utime == Some(now) && n'.lease == cfg.leaderLease && n'.candidate.None?
    requires n'.accepted.Some? && IoVote(n'.accepted.value) == n'.vote
    requires n'.leader.Some? && n'.leader.value.id == v && n'.leader.value.noop.leader == v
    requires n'.leader.value.clock == (map p | p in cfg.members :: None)
    requires v in h'.camp && v in h'.elect && q in h'.votes && h'.votes[q] == v && q in h'.logs
    ensures VotesOk(h', net, now, cfg, q, n')
  {
  }

  /** A rejection never carries a later vote of the candidate itself. */
  lemma NotItsLaterVote(h: History, joint: seq<set<NodeId>>, q: NodeId, y: LeaderId)
    requires BallotsOk(h, joint) && (y in h.camp || y.term == 0) && y.node == q
    requires q in h.votes && Le(LeaderId(0, q), h.votes[q]) && Le(h.votes[q], y)
    ensures y == h.votes[q]
  {
    assert y in h.camp ==> CampDated(h, y);
  }

  lemma WinElectsOk(cfg: Config, s: Sys, q: NodeId, m: Msg)
    requires ElectionInv(cfg, s) && Possible(cfg, s, RecvVoteResp(q, m))
    requires var n := s.nodes[q];
             && n.candidate.Some? && n.candidate.value.vote == Vote(m.candidate, false)
             && m.reply.granted && m.reply.vote == n.candidate.value.vote
             && IsQuorum(cfg.joint, n.candidate.value.granters + {m.from})
    ensures Elects(cfg, s, VoteRespStep(cfg, s, q, m))
  {
    hide ElectionInv, BallotsOk, Establish, IsQuorum, Won;
    var n, s' := s.nodes[q], VoteRespStep(cfg, s, q, m);
    VoterOf(cfg, s, q);
    SentOf(cfg, s, m);
    var v, granters := n.vote.leader, n.candidate.value.granters + {m.from};
    EstablishVotes(cfg, q, n.(candidate := Some(n.candidate.value.(granters := granters))), s.now);
    WonBallots(s.hist, cfg.joint, q, v, granters);
    WinnerOk(s.hist, s'.hist, s.net, s.now, cfg, q, n, s'.nodes[q], v);
    VotesKept(cfg, s, s', q);
  }

  lemma RejectElectsOk(cfg: Config, s: Sys, q: NodeId, m: Msg)
    requires ElectionInv(cfg, s) && Possible(cfg, s, RecvVoteResp(q, m))
    requires var n := s.nodes[q];
             && n.candidate.Some? && n.candidate.value.vote == Vote(m.candidate, false)
             && !(m.reply.granted && m.reply.vote == n.candidate.value.vote)
    ensures Elects(cfg, s, VoteRespStep(cfg, s, q, m))
  {
    hide ElectionInv, BallotsOk;
    var n, s' := s.nodes[q], VoteRespStep(cfg, s, q, m);
    VoterOf(cfg, s, q);
    SentOf(cfg, s, m);
    var y, n' := m.reply.vote.leader, s'.nodes[q];
    var n1 := if OptLe(m.reply.lastLogId, LastId(n.log)) then n else n.(seenGreater := true);
    if VoteLe(n.vote, Vote(y, false)) && y.node != q {
      FollowsOther(cfg, q, n1, Vote(y, false), s.now);
      RaiseBallots(s.hist, s'.hist, cfg.joint, q, y);
      FollowingOk(s.hist, s'.hist, s.net, s.net, s.now, cfg, q, n1, Vote(y, false));
    } else {
      if VoteLe(n.vote, Vote(y, false)) {
        NotItsLaterVote(s.hist, cfg.joint, q, y);
      }
      TouchedOk(cfg, q, n1, Vote(y, false), s.now);
      UnchangedVote(s.hist, q, n'.vote.leader);
    }
    VotesKept(cfg, s, s', q);
  }

  /** A vote that is refused, or the present one, moves nothing but the time of a candidate. */
  lemma TouchedOk(cfg: Config, q: NodeId, n: Node, vote: Vote, now: nat)
    requires !VoteLe(n.vote, vote) || vote == n.vote
    requires !n.vote.committed && n.vote.leader.node == q && q in cfg.members
    ensures var r := UpdateVote(cfg, q, n, vote, now);
            r.Some? ==> r.value == n.(utime := Some(now), lease := 0)
  {
  }

  lemma VoteRespElectsOk(cfg: Config, s: Sys, q: NodeId, m: Msg)
    requires ElectionInv(cfg, s) && Possible(cfg, s, RecvVoteResp(q, m))
    ensures Elects(cfg, s, VoteRespStep(cfg, s, q, m))
  {
    hide ElectionInv, BallotsOk, Establish, UpdateVote, IsQuorum;
    var n, s' := s.nodes[q], VoteRespStep(cfg, s, q, m);
    VoterOf(cfg, s, q);
    if n.candidate.None? || n.candidate.value.vote != Vote(m.candidate, false) {
      UnchangedVote(s.hist, q, n.vote.leader);
      assert s'.nodes == s.nodes;
      NothingKept(cfg, s);
    } else if !(m.reply.granted && m.reply.vote == n.candidate.value.vote) {
      RejectElectsOk(cfg, s, q, m);
    } else if IsQuorum(cfg.joint, n.candidate.value.granters + {m.from}) {
      WinElectsOk(cfg, s, q, m);
    } else {
      SentOf(cfg, s, m);
      UnchangedVote(s.hist, q, n.vote.leader);
      VotesKept(cfg, s, s', q);
    }
  }

  lemma WriteElectsOk(cfg: Config, s: Sys, q: NodeId, count: nat)
    requires ElectionInv(cfg, s) && Possible(cfg, s, Write(q, count))
    ensures Elects(cfg, s, WriteStep(cfg, s, q, count))
  {
    hide ElectionInv, BallotsOk, IoLt;
    var n, s' := s.nodes[q], WriteStep(cfg, s, q, count);
    VoterOf(cfg, s, q);
    ProposedBallots(s.hist, cfg.joint, q, n.vote.leader, count);
    WroteOk(s.hist, s'.hist, s.net, s.now, cfg, q, n, count);
    VotesKept(cfg, s, s', q);
  }

  lemma ProposedBallots(h: History, joint: seq<set<NodeId>>, q: NodeId, u: LeaderId, count: nat)
    requires BallotsOk(h, joint) && u in h.elect && u.node == q
    ensures var h' := Propose(h, q, u, count);
            && BallotsOk(h', joint) && Advances(h, h', q) && h'.votes == h.votes && q in h'.logs && u in h'.elect
            && h'.camp == h.camp
  {
    ElectBallots(h, Propose(h, q, u, count), joint, q, u);
  }

  lemma WroteOk(h: History, h': History, net: set<Msg>, now: nat, cfg: Config, q: NodeId, n: Node, count: nat)
    requires VotesOk(h, net, now, cfg, q, n) && n.leader.Some? && Advances(h, h', q)
    requires h'.votes == h.votes && q in h'.logs && n.vote.leader in h'.elect
    ensures VotesOk(h', net, now, cfg, q, LeaderAppend(n, count))
  {
    KnownVoteAdvances(h, h', q, n.vote);
    LeadsStays(h, h', net, net, q, q, n);
  }

  lemma SendElectsOk(cfg: Config, s: Sys, q: NodeId, start: nat, count: nat)
    requires ElectionInv(cfg, s) && Possible(cfg, s, Send(q, start, count))
    ensures Elects(cfg, s, SendStep(cfg, s, q, start, count))
  {
    hide ElectionInv, BallotsOk;
    var s' := SendStep(cfg, s, q, start, count);
    VoterOf(cfg, s, q);
    SameHistory(s.hist, q);
    NetVotes(s.hist, s.net, s'.net, s.now, cfg, q, s.nodes[q]);
    VotesKept(cfg, s, s', q);
  }

  // ----- Logs and progress --------------------------------------------------------

  /** What an append request leaves of the vote: a later one is followed, a smaller one changes nothing. */
  lemma AppendVotes(cfg: Config, me: NodeId, n: Node, u: LeaderId, prev: Option<LogId>, entries: Log,
                    commit: Option<LogId>, now: nat)
    requires u.node != me && n.accepted.Some? && IoVote(n.accepted.value) == n.vote
    ensures var (n', r) := HandleAppend(cfg, me, n, u, prev, entries, commit, now);
            if VoteLe(n.vote, Vote(u, true)) then
              && !r.HigherVote? && n'.vote == Vote(u, true) && n'.utime == Some(now) && n'.lease == cfg.leaderLease
              && n'.leader.None? && n'.candidate.None? && n'.accepted.Some? && IoVote(n'.accepted.value) == n'.vote
            else
              && r == HigherVote(n.vote) && n'.vote == n.vote && n'.utime == n.utime && n'.lease == n.lease
              && n'.leader == n.leader && n'.candidate == n.candidate && n'.accepted == n.accepted && n'.log == n.log
  {
    hide AppendEntries, UpdateCommitted;
    EntriesVotes(cfg, me, n, u, prev, entries, now);
    CommitVotes(AppendEntries(cfg, me, n, u, prev, entries, now).0, Announced(u, commit));
  }

  /** The same of the request without its commit. */
  lemma EntriesVotes(cfg: Config, me: NodeId, n: Node, u: LeaderId, prev: Option<LogId>, entries: Log, now: nat)
    requires u.node != me && n.accepted.Some? && IoVote(n.accepted.value) == n.vote
    ensures var (n', r) := AppendEntries(cfg, me, n, u, prev, entries, now);
            if VoteLe(n.vote, Vote(u, true)) then
              && !r.HigherVote? && n'.vote == Vote(u, true) && n'.utime == Some(now) && n'.lease == cfg.leaderLease
              && n'.leader.None? && n'.candidate.None? && n'.accepted.Some? && IoVote(n'.accepted.value) == n'.vote
            else r == HigherVote(n.vote) && n' == n
  {
    hide UpdateVote, FollowerAppend;
    if VoteLe(n.vote, Vote(u, true)) {
      FollowsOther(cfg, me, n, Vote(u, true), now);
      FollowerVotes(Following(cfg, n, Vote(u, true), now), prev, entries);
    } else {
      Refuses(cfg, me, n, Vote(u, true), now);
    }
  }

  /** Taking entries under a vote leaves the vote, and what is accepted stays under it. */
  lemma FollowerVotes(n: Node, prev: Option<LogId>, entries: Log)
    requires n.vote.committed && n.accepted.Some? && IoVote(n.accepted.value) == n.vote
    ensures var n' := FollowerAppend(n, prev, entries);
            && n'.vote == n.vote && n'.utime == n.utime && n'.lease == n.lease
            && n'.leader == n.leader && n'.candidate == n.candidate
            && n'.accepted.Some? && IoVote(n'.accepted.value) == n.vote
  {
    hide TakeEntries, EntriesLast;
  }

  /** Taking a commit changes nothing else. */
  lemma CommitVotes(n: Node, a: Announced)
    ensures var n' := UpdateCommitted(n, a);
            && n'.vote == n.vote && n'.utime == n.utime && n'.lease == n.lease && n'.log == n.log
            && n'.leader == n.leader && n'.candidate == n.candidate && n'.accepted == n.accepted
  {
    hide LocalCommitted;
  }

  lemma Refuses(cfg: Config, me: NodeId, n: Node, vote: Vote, now: nat)
    requires !VoteLe(n.vote, vote)
    ensures UpdateVote(cfg, me, n, vote, now).None?
  {
  }

  lemma AppendElectsOk(cfg: Config, s: Sys, q: NodeId, m: Msg)
    requires ElectionInv(cfg, s) && Possible(cfg, s, RecvAppend(q, m))
    ensures Elects(cfg, s, AppendStep(cfg, s, q, m))
  {
    hide ElectionInv, BallotsOk, HandleAppend;
    var n, s', u := s.nodes[q], AppendStep(cfg, s, q, m), m.leader;
    VoterOf(cfg, s, q);
    SentOf(cfg, s, m);
    AppendVotes(cfg, q, n, u, m.prev, m.entries, m.commit, s.now);
    if VoteLe(n.vote, Vote(u, true)) {
      RaiseBallots(s.hist, s'.hist, cfg.joint, q, u);
      ElectedKnown(s.hist, cfg.joint, u);
    } else {
      HigherVoteIs(n, u);
      SameHistory(s.hist, q);
      SameVotesOk(s.hist, s.net, s'.net, s.now, cfg, q, n, s'.nodes[q]);
    }
    VotesKept(cfg, s, s', q);
  }

  lemma ElectedKnown(h: History, joint: seq<set<NodeId>>, u: LeaderId)
    requires BallotsOk(h, joint) && u in h.elect && u.term > 0
    ensures KnownVote(h, Vote(u, true))
  {
    assert WonByQuorum(h, joint, u);
  }

  lemma SameVotesOk(h: History, net: set<Msg>, net': set<Msg>, now: nat, cfg: Config, q: NodeId, n: Node, n': Node)
    requires VotesOk(h, net, now, cfg, q, n) && net <= net'
    requires n'.vote == n.vote && n'.utime == n.utime && n'.lease == n.lease && n'.leader == n.leader
    requires n'.candidate == n.candidate && n'.accepted == n.accepted
    ensures VotesOk(h, net', now, cfg, q, n')
  {
    NetVotes(h, net, net', now, cfg, q, n);
  }

  /** A report changes nothing but the progress and the commit of a leader. */
  lemma ReportVotes(n: Node, id: LeaderId, target: NodeId, matching: Option<LogId>, granted: Option<LogId>)
    ensures var n' := HandleProgress(n, id, target, matching, granted);
            && n'.vote == n.vote && n'.utime == n.utime && n'.lease == n.lease && n'.candidate == n.candidate
            && n'.accepted == n.accepted && n'.log == n.log && n'.leader.Some? == n.leader.Some?
            && (n.leader.Some? ==> n'.leader.value.id == n.leader.value.id && n'.leader.value.noop == n.leader.value.noop
                                   && n'.leader.value.clock == n.leader.value.clock)
  {
  }

  lemma ReportElectsOk(cfg: Config, s: Sys, st: Step)
    requires ElectionInv(cfg, s) && Possible(cfg, s, st) && (st.RecvProgress? || st.Flush?)
    ensures Elects(cfg, s, Apply(cfg, s, st))
  {
    hide ElectionInv, BallotsOk, HandleProgress;
    var q, n, s' := st.q, s.nodes[st.q], Apply(cfg, s, st);
    VoterOf(cfg, s, q);
    match st {
      case RecvProgress(_, m, granted) =>
        ReportVotes(n, m.leader, m.from, m.matching, granted);
        SameHistory(s.hist, q);
      case Flush(_, upto, granted) =>
        ReportVotes(n, n.leader.value.id, q, Some(upto), granted);
        RaiseBallots(s.hist, s'.hist, cfg.joint, q, n.vote.leader);
    }
    ReportedOk(s.hist, s'.hist, s.net, s.now, cfg, q, n, s'.nodes[q]);
    VotesKept(cfg, s, s', q);
  }

  lemma ReportedOk(h: History, h': History, net: set<Msg>, now: nat, cfg: Config, q: NodeId, n: Node, n': Node)
    requires VotesOk(h, net, now, cfg, q, n) && Advances(h, h', q) && h'.votes == h.votes && h'.elect == h.elect
    requires n'.vote == n.vote && n'.utime == n.utime && n'.lease == n.lease && n'.candidate == n.candidate
    requires n'.accepted == n.accepted && n'.leader.Some? == n.leader.Some?
    requires n.leader.Some? ==>
               n'.leader.value.id == n.leader.value.id && n'.leader.value.noop == n.leader.value.noop
               && n'.leader.value.clock == n.leader.value.clock
    ensures VotesOk(h', net, now, cfg, q, n')
  {
    KnownVoteAdvances(h, h', q, n.vote);
    if n.candidate.Some? {
      forall g | g in n.candidate.value.granters ensures HasGrant(h', g, n.vote.leader) {
        HasGrantStays(h, h', g, n.vote.leader);
      }
    }
  }

  // ----- Heartbeats and time ------------------------------------------------------

  lemma HigherIsNotOwn(h: History, joint: seq<set<NodeId>>, q: NodeId, v: Vote)
    requires BallotsOk(h, joint) && q in h.votes && h.votes[q].node == q && Lt(h.votes[q], v.leader) && KnownVote(h, v)
    ensures v.leader.node != q
  {
    assert v.leader in h.camp ==> CampDated(h, v.leader);
  }

  lemma HeardOk(h: History, net: set<Msg>, now: nat, cfg: Config, q: NodeId, n: Node, u: LeaderId, t: NodeId, sentAt: nat)
    requires VotesOk(h, net, now, cfg, q, n) && ClockAcked(net, t, u, sentAt)
    ensures VotesOk(h, net, now, cfg, q, HandleHeartbeat(n, u, t, sentAt))
  {
  }

  lemma HeartbeatElectsOk(cfg: Config, s: Sys, q: NodeId, m: Msg)
    requires ElectionInv(cfg, s) && Possible(cfg, s, RecvHeartbeat(q, m))
    ensures Elects(cfg, s, HeartbeatStep(cfg, s, q, m))
  {
    hide ElectionInv, BallotsOk, UpdateVote;
    var n, s' := s.nodes[q], HeartbeatStep(cfg, s, q, m);
    VoterOf(cfg, s, q);
    SentOf(cfg, s, m);
    UnchangedVote(s.hist, q, n.vote.leader);
    if !m.outcome.HigherVote? {
      assert ClockAcked(s.net, m.from, m.leader, m.sentAt);
      HeardOk(s.hist, s.net, s.now, cfg, q, n, m.leader, m.from, m.sentAt);
    } else if n.leader.Some? && n.leader.value.id == m.leader {
      var higher := m.outcome.vote;
      HigherIsNotOwn(s.hist, cfg.joint, q, higher);
      FollowsOther(cfg, q, n, higher, s.now);
      RaiseBallots(s.hist, s'.hist, cfg.joint, q, higher.leader);
      FollowingOk(s.hist, s'.hist, s.net, s.net, s.now, cfg, q, n, higher);
    } else {
      assert s'.nodes[q] == n;
    }
    VotesKept(cfg, s, s', q);
  }

  lemma AdvanceElectsOk(cfg: Config, s: Sys, d: nat)
    requires ElectionInv(cfg, s)
    ensures Elects(cfg, s, s.(now := s.now + d))
  {
    SameHistory(s.hist, 0);
  }

  lemma StepElects(cfg: Config, s: Sys, st: Step)
    requires ElectionInv(cfg, s) && Possible(cfg, s, st)
    ensures Elects(cfg, s, Apply(cfg, s, st))
  {
    hide ElectionInv, Elects, TickStep, VoteReqStep, VoteRespStep, WriteStep, SendStep, AppendStep, ProgressStep,
         HeartbeatStep, FlushStep;
    match st {
      case Tick(q) => TickElectsOk(cfg, s, q);
      case RecvVoteReq(q, m) => VoteReqElectsOk(cfg, s, q, m);
      case RecvVoteResp(q, m) => VoteRespElectsOk(cfg, s, q, m);
      case Write(q, count) => WriteElectsOk(cfg, s, q, count);
      case Send(q, start, count) => SendElectsOk(cfg, s, q, start, count);
      case RecvAppend(q, m) => AppendElectsOk(cfg, s, q, m);
      case RecvHeartbeat(q, m) => HeartbeatElectsOk(cfg, s, q, m);
      case Advance(d) => AdvanceElectsOk(cfg, s, d);
      case _ => ReportElectsOk(cfg, s, st);
    }
  }

  // ----- Every run ----------------------------------------------------------------

  lemma InitElects(cfg: Config, s: Sys)
    requires cfg.Valid() && Init(cfg, s)
    ensures ElectionInv(cfg, s)
  {
    forall q | q in s.nodes ensures VotesOk(s.hist, s.net, s.now, cfg, q, s.nodes[q]) {
      assert InitNode(q, s.nodes[q], s.now);
    }
  }

  /** Whatever is committed, the invariant holds in every state, and what the history knows stays known. */
  lemma {:induction false} AnyRunElects(cfg: Config, run: seq<Sys>, i: nat)
    requires IsAnyRun(cfg, run) && i < |run|
    ensures ElectionInv(cfg, run[i])
    decreases i
  {
    hide ElectionInv, Possible, Apply, Init;
    if i == 0 {
      InitElects(cfg, run[0]);
    } else {
      AnyRunElects(cfg, run, i - 1);
      assert Goes(cfg, run[i - 1], run[i - 1 + 1]);
      var st :| Possible(cfg, run[i - 1], st) && run[i] == Apply(cfg, run[i - 1], st);
      StepElects(cfg, run[i - 1], st);
    }
  }

  // ----- Leaders only append ------------------------------------------------------

  /** A leader whose vote stays goes on leading, and only appends to its log. */
  ghost predicate LeadsOn(n: Node, n': Node) {
    n.leader.Some? && n'.vote == n.vote ==>
      n'.leader.Some? && n'.leader.value.id == n.leader.value.id && n.log <= n'.log
  }

  lemma LeaderLeadsOn(cfg: Config, s: Sys, st: Step)
    requires ElectionInv(cfg, s) && Possible(cfg, s, st) && !st.Advance?
    ensures LeadsOn(s.nodes[st.q], Apply(cfg, s, st).nodes[st.q])
  {
    hide ElectionInv, BallotsOk, UpdateVote, HandleAppend, HandleProgress, IoLt;
    var q, n := st.q, s.nodes[st.q];
    VoterOf(cfg, s, q);
    match st {
      case RecvVoteReq(_, m) =>
        if GrantsVote(cfg, q, n, Vote(m.vote, false), m.last, s.now) {
          FollowsOther(cfg, q, n, Vote(m.vote, false), s.now);
        }
      case RecvAppend(_, m) =>
        AppendVotes(cfg, q, n, m.leader, m.prev, m.entries, m.commit, s.now);
      case RecvProgress(_, m, granted) => ReportVotes(n, m.leader, m.from, m.matching, granted);
      case Flush(_, upto, granted) => ReportVotes(n, n.leader.value.id, q, Some(upto), granted);
      case RecvHeartbeat(_, m) =>
        SentOf(cfg, s, m);
        if m.outcome.HigherVote? && n.leader.Some? && n.leader.value.id == m.leader {
          HigherIsNotOwn(s.hist, cfg.joint, q, m.outcome.vote);
          FollowsOther(cfg, q, n, m.outcome.vote, s.now);
        }
      case _ =>
    }
  }

  lemma OthersUnchanged(cfg: Config, s: Sys, st: Step, p: NodeId)
    requires Possible(cfg, s, st) && p in s.nodes && (st.Advance? || p != st.q)
    ensures p in Apply(cfg, s, st).nodes && Apply(cfg, s, st).nodes[p] == s.nodes[p]
  {
    hide HandleVoteReq, HandleVoteResp, HandleAppend, HandleProgress, HandleHeartbeat, TickElection, LeaderAppend;
  }

  /** A node whose vote is the same at two times has led all the while in between if it did at first. */
  lemma {:induction false} LeadsAlong(cfg: Config, run: seq<Sys>, i: nat, j: nat, q: NodeId)
    requires IsAnyRun(cfg, run) && i <= j < |run| && q in run[i].nodes && q in run[j].nodes
    requires run[j].nodes[q].vote == run[i].nodes[q].vote
    ensures LeadsOn(run[i].nodes[q], run[j].nodes[q])
    decreases j
  {
    hide ElectionInv, Possible, Apply, Init;
    if i < j {
      NeverBack(cfg, run, i, j - 1, q);
      NeverBack(cfg, run, j - 1, j, q);
      LeadsAlong(cfg, run, i, j - 1, q);
      assert Goes(cfg, run[j - 1], run[j - 1 + 1]);
      var st :| Possible(cfg, run[j - 1], st) && run[j] == Apply(cfg, run[j - 1], st);
      AnyRunElects(cfg, run, j - 1);
      if st.Advance? || q != st.q {
        OthersUnchanged(cfg, run[j - 1], st, q);
      } else {
        LeaderLeadsOn(cfg, run[j - 1], st);
      }
    }
  }

  /** In every run, whatever is committed: at most one node ever leads with a given vote, and its log is only
      appended to. */
  lemma AnyElectionSafety(cfg: Config, run: seq<Sys>, i: nat, j: nat, p: NodeId, q: NodeId)
    requires IsAnyRun(cfg, run) && i <= j < |run| && p in run[i].nodes && q in run[j].nodes
    requires run[i].nodes[p].leader.Some? && run[j].nodes[q].leader.Some?
    requires run[i].nodes[p].leader.value.id == run[j].nodes[q].leader.value.id
    ensures p == q && run[i].nodes[p].log <= run[j].nodes[q].log
  {
    hide ElectionInv, BallotsOk;
    AnyRunElects(cfg, run, i);
    AnyRunElects(cfg, run, j);
    VoterOf(cfg, run[i], p);
    VoterOf(cfg, run[j], q);
    LeadsAlong(cfg, run, i, j, q);
  }

  /** The invariant of the protocol has all of this in it. */
  lemma SysElects(cfg: Config, s: Sys)
    requires SysInv(cfg, s)
    ensures ElectionInv(cfg, s)
  {
    hide NodeInv, MsgInv;
    BallotsOf(s.hist, cfg.joint);
    forall q | q in s.nodes ensures VotesOk(s.hist, s.net, s.now, cfg, q, s.nodes[q]) {
      VotesOf(s.hist, s.net, s.now, cfg, q, s.nodes[q]);
    }
    forall m | m in s.net ensures MsgOk(s.hist, s.now, cfg, m) {
      SentIn(s.hist, s.now, cfg, m);
    }
  }

  lemma BallotsOf(h: History, joint: seq<set<NodeId>>)
    requires Inv(h, joint)
    ensures BallotsOk(h, joint)
  {
    forall v | v in h.camp ensures CampDated(h, v) {
      assert CampOk(h, v);
    }
    forall g | g in h.grants ensures GrantDated(h, g) {
      assert GrantOk(h, g);
    }
    forall u | u in h.elect ensures WonByQuorum(h, joint, u) {
      assert WinOk(h, joint, u);
    }
  }

  lemma VotesOf(h: History, net: set<Msg>, now: nat, cfg: Config, q: NodeId, n: Node)
    requires NodeInv(h, net, now, cfg, q, n)
    ensures VotesOk(h, net, now, cfg, q, n)
  {
  }

  lemma SentIn(h: History, now: nat, cfg: Config, m: Msg)
    requires MsgInv(h, now, cfg, m)
    ensures MsgOk(h, now, cfg, m)
  {
  }
}
