/** What the growth of the history keeps of the invariants of nodes and messages. */
module ClusterFrames {
  import opened Ids
  import opened Quorum
  import opened EngineSpec
  import opened Ballots
  import opened BallotSteps
  import opened Cluster

  /** The history never forgets a candidacy, a grant, a win, an entry of a leader or an
      acknowledgement. */
  ghost predicate Later(h: History, h': History) {
    Grows(h, h') && h.acks <= h'.acks && h.grants <= h'.grants
  }

  /** A step of node `q`: the history grows, and only leaders on `q` win or propose. */
  ghost predicate Advances(h: History, h': History, q: NodeId) {
    && Later(h, h')
    && (forall p :: p in h.votes ==> p in h'.votes && (p != q ==> h'.votes[p] == h.votes[p]))
    && (forall p :: p in h.logs ==> p in h'.logs && (p != q ==> h'.logs[p] == h.logs[p]))
    && forall u :: u in h'.elect && u.node != q ==> u in h.elect && h'.elect[u] == h.elect[u]
  }

  lemma KnownVoteAdvances(h: History, h': History, q: NodeId, v: Vote)
    requires Advances(h, h', q) && KnownVote(h, v)
    ensures KnownVote(h', v)
  {
    assert v.committed ==> ElectGrows(h, h', v.leader);
  }

  lemma InLogStays(h: History, h': History, u: LeaderId, m: LogId)
    requires Later(h, h') && InLog(h, u, m)
    ensures InLog(h', u, m)
  {
    assert ElectGrows(h, h', u);
  }

  lemma AckedStays(h: History, h': History, t: NodeId, u: LeaderId, i: nat)
    requires Later(h, h') && Acked(h, t, u, i)
    ensures Acked(h', t, u, i)
  {
    var a :| a in h.acks && a.node == t && a.leader == u && i <= a.index;
    assert a in h'.acks;
  }

  lemma MatchedStays(h: History, h': History, t: NodeId, u: LeaderId, m: LogId)
    requires Later(h, h') && Matched(h, t, u, m)
    ensures Matched(h', t, u, m)
  {
    InLogStays(h, h', u, m);
    AckedStays(h, h', t, u, m.index);
  }

  lemma HasGrantStays(h: History, h': History, t: NodeId, v: LeaderId)
    requires Later(h, h') && HasGrant(h, t, v)
    ensures HasGrant(h', t, v)
  {
    var g :| g in h.grants && g.node == t && g.vote == v;
    assert g in h'.grants;
  }

  lemma ChosenStays(h: History, h': History, cfg: Config, x: LeaderId, c: nat)
    requires Later(h, h') && Chosen(h, cfg, x, c)
    ensures Chosen(h', cfg, x, c)
  {
    assert ElectGrows(h, h', x);
    var ids: set<NodeId> :| IsQuorum(cfg.joint, ids) && AllAcked(h, ids, x, c);
    forall t | t in ids ensures Acked(h', t, x, c) {
      AckedStays(h, h', t, x, c);
    }
    assert AllAcked(h', ids, x, c);
  }

  lemma CoveredStays(h: History, h': History, cfg: Config, x: LeaderId, c: nat, m: LogId)
    requires Later(h, h') && CoveredBy(h, cfg, x, c, m)
    ensures CoveredBy(h', cfg, x, c, m)
  {
    ChosenStays(h, h', cfg, x, c);
    InLogStays(h, h', x, m);
  }

  lemma CommitOkAdvances(h: History, h': History, q: NodeId, cfg: Config, u: LeaderId, m: Option<LogId>)
    requires Advances(h, h', q) && CommitOk(h, cfg, u, m)
    ensures CommitOk(h', cfg, u, m)
  {
    if m.Some? {
      var x, c :| Le(x, u) && CoveredBy(h, cfg, x, c, m.value);
      CoveredStays(h, h', cfg, x, c, m.value);
    }
  }

  lemma CandidateAdvances(h: History, h': History, q: NodeId, cfg: Config, p: NodeId, n: Node)
    requires Advances(h, h', q) && p != q && CandidateInv(h, cfg, p, n)
    ensures CandidateInv(h', cfg, p, n)
  {
    if n.candidate.Some? {
      var c := n.candidate.value;
      forall g | g in c.granters ensures HasGrant(h', g, c.vote.leader) {
        HasGrantStays(h, h', g, c.vote.leader);
      }
    }
  }

  lemma ProgressAdvances(h: History, h': History, net: set<Msg>, net': set<Msg>, q: NodeId, cfg: Config, p: NodeId, n: Node)
    requires Advances(h, h', q) && net <= net' && LeaderInv(h, net, cfg, p, n) && n.leader.Some?
    ensures var l := n.leader.value;
            && (forall t :: t in l.progress && l.progress[t].Some? ==> Matched(h', t, l.id, l.progress[t].value))
            && (forall t :: t in l.clock && l.clock[t].Some? ==> ClockAcked(net', t, l.id, l.clock[t].value))
  {
    var l := n.leader.value;
    forall t | t in l.progress && l.progress[t].Some? ensures Matched(h', t, l.id, l.progress[t].value) {
      MatchedStays(h, h', t, l.id, l.progress[t].value);
    }
    forall t | t in l.clock && l.clock[t].Some? ensures ClockAcked(net', t, l.id, l.clock[t].value) {
      ClockAdvances(net, net', t, l.id, l.clock[t].value);
    }
  }

  lemma ClockAdvances(net: set<Msg>, net': set<Msg>, t: NodeId, u: LeaderId, sentAt: nat)
    requires net <= net' && ClockAcked(net, t, u, sentAt)
    ensures ClockAcked(net', t, u, sentAt)
  {
    var m :| m in net && m.AppendResp? && !m.outcome.HigherVote? && m.from == t && m.leader == u && m.sentAt == sentAt;
    assert m in net';
  }

  lemma LeaderAdvances(h: History, h': History, net: set<Msg>, net': set<Msg>, q: NodeId, cfg: Config, p: NodeId, n: Node)
    requires Advances(h, h', q) && p != q && net <= net' && LeaderInv(h, net, cfg, p, n)
    ensures LeaderInv(h', net', cfg, p, n)
  {
    if n.leader.Some? {
      assert ElectGrows(h, h', n.leader.value.id);
      ProgressAdvances(h, h', net, net', q, cfg, p, n);
    }
  }

  lemma AcceptedAdvances(h: History, h': History, q: NodeId, n: Node)
    requires Advances(h, h', q) && AcceptedInv(h, n)
    ensures AcceptedInv(h', n)
  {
    var last := IoLogId(n.accepted.value);
    if last.Some? {
      InLogStays(h, h', n.vote.leader, last.value);
      assert ElectGrows(h, h', n.vote.leader);
    }
  }

  lemma AnnouncedAdvances(h: History, h': History, q: NodeId, cfg: Config, n: Node)
    requires Advances(h, h', q) && AnnouncedInv(h, cfg, n)
    ensures AnnouncedInv(h', cfg, n)
  {
    if n.announced.Some? {
      CommitOkAdvances(h, h', q, cfg, n.announced.value.leader, n.announced.value.logId);
      assert ElectGrows(h, h', n.announced.value.leader);
    }
  }

  lemma CommittedAdvances(h: History, h': History, q: NodeId, cfg: Config, n: Node)
    requires Advances(h, h', q) && CommittedInv(h, cfg, n)
    ensures CommittedInv(h', cfg, n)
  {
    if n.committed.Some? {
      var x, c :| Le(x, n.vote.leader) && CommittedUnder(h, cfg, n, x, c);
      CoveredStays(h, h', cfg, x, c, n.committed.value);
      assert ElectGrows(h, h', x);
      assert CommittedUnder(h', cfg, n, x, c);
    }
  }

  lemma NodeAdvances(h: History, h': History, net: set<Msg>, net': set<Msg>, now: nat, now': nat, cfg: Config,
                     q: NodeId, p: NodeId, n: Node)
    requires Advances(h, h', q) && p != q && net <= net' && now <= now' && NodeInv(h, net, now, cfg, p, n)
    ensures NodeInv(h', net', now', cfg, p, n)
  {
    KnownVoteAdvances(h, h', q, n.vote);
    CandidateAdvances(h, h', q, cfg, p, n);
    LeaderAdvances(h, h', net, net', q, cfg, p, n);
    AcceptedAdvances(h, h', q, n);
    AnnouncedAdvances(h, h', q, cfg, n);
    CommittedAdvances(h, h', q, cfg, n);
  }

  lemma MsgAdvances(h: History, h': History, now: nat, now': nat, cfg: Config, q: NodeId, m: Msg)
    requires Advances(h, h', q) && now <= now' && MsgInv(h, now, cfg, m)
    ensures MsgInv(h', now', cfg, m)
  {
    match m {
      case VoteReq(v, last) =>
      case VoteResp(from, cand, reply) =>
        KnownVoteAdvances(h, h', q, reply.vote);
        if reply.granted {
          HasGrantStays(h, h', from, cand);
        }
      case AppendReq(u, prev, entries, commit, sentAt) =>
        assert ElectGrows(h, h', u);
        CommitOkAdvances(h, h', q, cfg, u, commit);
        if prev.Some? {
          InLogStays(h, h', u, prev.value);
        }
      case AppendResp(from, u, outcome, matching, sentAt) =>
        assert ElectGrows(h, h', u);
        if matching.Some? {
          MatchedStays(h, h', from, u, matching.value);
        }
        if outcome.HigherVote? {
          KnownVoteAdvances(h, h', q, outcome.vote);
        }
    }
  }

  /** What every step from `s` to `s'` keeps. */
  ghost predicate Kept(cfg: Config, s: Sys, s': Sys) {
    SysInv(cfg, s') && Later(s.hist, s'.hist)
  }

  /** A step of `q` only has to be checked for `q` and for the messages it sends. */
  lemma StepKept(cfg: Config, s: Sys, s': Sys, q: NodeId)
    requires SysInv(cfg, s) && q in s.nodes
    requires s'.nodes.Keys == s.nodes.Keys && forall p :: p in s.nodes && p != q ==> s'.nodes[p] == s.nodes[p]
    requires s.net <= s'.net && s.now <= s'.now
    requires Inv(s'.hist, cfg.joint) && Advances(s.hist, s'.hist, q)
    requires NodeInv(s'.hist, s'.net, s'.now, cfg, q, s'.nodes[q])
    requires forall m :: m in s'.net && m !in s.net ==> MsgInv(s'.hist, s'.now, cfg, m)
    ensures Kept(cfg, s, s')
  {
    var h, h' := s.hist, s'.hist;
    forall p | p in s'.nodes ensures NodeInv(h', s'.net, s'.now, cfg, p, s'.nodes[p]) {
      if p != q {
        NodeAdvances(h, h', s.net, s'.net, s.now, s'.now, cfg, q, p, s.nodes[p]);
      }
    }
    forall m | m in s'.net ensures MsgInv(h', s'.now, cfg, m) {
      if m in s.net {
        MsgAdvances(h, h', s.now, s'.now, cfg, q, m);
      }
    }
  }
}
