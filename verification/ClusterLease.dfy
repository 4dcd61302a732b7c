/** Leases: a node that answered a leader takes no part in electing another one before the lease
    has passed, so a leader whose answers are recent enough is still the only one. */
module ClusterLease {
  import opened Ids
  import opened Quorum
  import opened EngineSpec
  import opened Ballots
  import opened BallotSteps
  import opened Cluster
  import opened ClusterFrames
  import opened ClusterVotes
  import opened ClusterLog
  import opened ClusterProgress
  import opened ClusterSafety
  import opened Elections

  // ----- The invariant ------------------------------------------------------------

  /** A leader between `u` and `v` was elected. */
  ghost predicate Superseded(h: History, u: LeaderId, v: LeaderId) {
    exists w :: w in h.elect && Lt(u, w) && Lt(w, v)
  }

  ghost predicate SupersededUpTo(h: History, u: LeaderId, v: LeaderId) {
    exists w :: w in h.elect && Lt(u, w) && Le(w, v)
  }

  /** The node follows leader `u` and was touched at or after `sentAt`. */
  ghost predicate Leased(cfg: Config, n: Node, u: LeaderId, sentAt: nat) {
    n.vote == Vote(u, true) && n.utime.Some? && sentAt <= n.utime.value && n.lease == cfg.leaderLease
  }

  /** `t` answered leader `u` a request sent at `sentAt`, and a lease from then on has not passed. */
  ghost predicate Holding(cfg: Config, s: Sys, t: NodeId, u: LeaderId, sentAt: nat) {
    ClockAcked(s.net, t, u, sentAt) && s.now <= sentAt + cfg.leaderLease
  }

  ghost predicate NodesLeased(cfg: Config, s: Sys) {
    forall t, u, a :: t in s.nodes && Holding(cfg, s, t, u, a)
      ==> Leased(cfg, s.nodes[t], u, a) || SupersededUpTo(s.hist, u, s.nodes[t].vote.leader)
  }

  ghost predicate GrantsLeased(cfg: Config, s: Sys) {
    forall g, u, a :: g in s.hist.grants && g.vote !in s.hist.elect && Lt(u, g.vote) && Holding(cfg, s, g.node, u, a)
      ==> Superseded(s.hist, u, g.vote)
  }

  ghost predicate WinsLeased(cfg: Config, s: Sys) {
    forall v, t, u, a ::
      v in s.hist.elect && t in s.hist.elect[v].granters && Lt(u, v) && Holding(cfg, s, t, u, a)
      ==> Superseded(s.hist, u, v)
  }

  /** Only voters stand for election. */
  ghost predicate VotersStand(cfg: Config, h: History) {
    forall v :: v in h.camp && v.term > 0 ==> cfg.IsVoter(v.node)
  }

  ghost predicate LeaseInv(cfg: Config, s: Sys) {
    && NodesLeased(cfg, s)
    && GrantsLeased(cfg, s)
    && WinsLeased(cfg, s)
    && VotersStand(cfg, s.hist)
  }

  // ----- What a step may do -------------------------------------------------------

  /** Node `q` is not bound by a lease given to another node. */
  ghost predicate Free(q: NodeId, n: Node, now: nat) {
    !n.vote.committed || n.vote.leader.node == q || IsExpired(n, now, 0)
  }

  ghost predicate Touched(n: Node, n': Node) {
    n'.vote == n.vote && (n.utime.Some? ==> n'.utime.Some? && n.utime.value <= n'.utime.value)
  }

  /** A node moves its vote to a later leader that was elected, or is free, or keeps its vote. */
  ghost predicate VoteMoves(q: NodeId, n: Node, n': Node, now: nat, h': History) {
    && VoteLe(n.vote, n'.vote)
    && (Touched(n, n') || (Lt(n.vote.leader, n'.vote.leader) && n'.vote.leader in h'.elect) || Free(q, n, now))
  }

  ghost predicate NewGrants(s: Sys, s': Sys, q: NodeId)
    requires q in s.nodes && q in s'.nodes
  {
    forall g :: g in s'.hist.grants && g !in s.hist.grants
      ==> g.node == q && g.vote == s'.nodes[q].vote.leader && Free(q, s.nodes[q], s.now)
  }

  ghost predicate NewWins(h: History, h': History) {
    forall v, t :: v in h'.elect && v !in h.elect && t in h'.elect[v].granters ==> HasGrant(h, t, v)
  }

  ghost predicate NewAcks(s: Sys, s': Sys, q: NodeId)
    requires q in s'.nodes
  {
    forall m :: m in s'.net && m !in s.net && m.AppendResp? && !m.outcome.HigherVote?
      ==> m.from == q && s'.nodes[q].vote == Vote(m.leader, true) && s'.nodes[q].utime == Some(s'.now)
  }

  ghost predicate NewCamps(cfg: Config, h: History, h': History) {
    forall v :: v in h'.camp && v !in h.camp ==> cfg.IsVoter(v.node)
  }

  ghost predicate LeaseStep(cfg: Config, s: Sys, s': Sys, q: NodeId) {
    && ElectionInv(cfg, s) && ElectionInv(cfg, s') && Later(s.hist, s'.hist)
    && s.now <= s'.now && s.net <= s'.net && q in s.nodes
    && s'.nodes.Keys == s.nodes.Keys
    && (forall p :: p in s.nodes && p != q ==> s'.nodes[p] == s.nodes[p])
    && VoteMoves(q, s.nodes[q], s'.nodes[q], s.now, s'.hist)
    && NewGrants(s, s', q)
    && NewWins(s.hist, s'.hist)
    && NewAcks(s, s', q)
    && NewCamps(cfg, s.hist, s'.hist)
  }

  // ----- Why that keeps the invariant ---------------------------------------------

  lemma SupersededStays(h: History, h': History, u: LeaderId, v: LeaderId, v': LeaderId)
    requires Later(h, h')
    ensures Superseded(h, u, v) ==> Superseded(h', u, v)
    ensures SupersededUpTo(h, u, v) && Le(v, v') ==> SupersededUpTo(h', u, v')
  {
    if Superseded(h, u, v) {
      var w :| w in h.elect && Lt(u, w) && Lt(w, v);
      assert ElectGrows(h, h', w);
    }
    if SupersededUpTo(h, u, v) && Le(v, v') {
      var w :| w in h.elect && Lt(u, w) && Le(w, v);
      assert ElectGrows(h, h', w);
    }
  }

  /** A holding after the step either held before, or `q` has just answered its present leader. */
  lemma HoldingSplits(cfg: Config, s: Sys, s': Sys, q: NodeId, t: NodeId, u: LeaderId, a: nat)
    requires LeaseStep(cfg, s, s', q) && Holding(cfg, s', t, u, a)
    ensures Holding(cfg, s, t, u, a) || (t == q && s'.nodes[q].vote == Vote(u, true) && Leased(cfg, s'.nodes[q], u, a))
  {
    hide BallotsOk, VoteMoves, NewGrants, NewWins, NewCamps, Later;
    var m :| m in s'.net && m.AppendResp? && !m.outcome.HigherVote? && m.from == t && m.leader == u && m.sentAt == a;
    if m !in s.net {
      SentOf(cfg, s', m);
      VoterOf(cfg, s', q);
    }
  }

  lemma NotItsOwn(cfg: Config, s: Sys, t: NodeId, u: LeaderId, a: nat)
    requires ElectionInv(cfg, s) && ClockAcked(s.net, t, u, a)
    ensures u.node != t && u in s.hist.elect
  {
    hide BallotsOk;
    var m :| m in s.net && m.AppendResp? && !m.outcome.HigherVote? && m.from == t && m.leader == u && m.sentAt == a;
    SentOf(cfg, s, m);
  }

  /** A free node holds nothing, unless its vote has already passed an elected leader. */
  lemma FreeIsSuperseded(cfg: Config, s: Sys, q: NodeId, u: LeaderId, a: nat)
    requires ElectionInv(cfg, s) && NodesLeased(cfg, s) && q in s.nodes && Free(q, s.nodes[q], s.now)
    requires Holding(cfg, s, q, u, a)
    ensures SupersededUpTo(s.hist, u, s.nodes[q].vote.leader)
  {
    hide ElectionInv;
    NotItsOwn(cfg, s, q, u, a);
  }

  lemma NodeKeepsLease(cfg: Config, s: Sys, s': Sys, q: NodeId, t: NodeId, u: LeaderId, a: nat)
    requires LeaseStep(cfg, s, s', q) && NodesLeased(cfg, s) && t in s'.nodes && Holding(cfg, s', t, u, a)
    ensures Leased(cfg, s'.nodes[t], u, a) || SupersededUpTo(s'.hist, u, s'.nodes[t].vote.leader)
  {
    hide ElectionInv, Later, NewGrants, NewWins, NewAcks, NewCamps, Holding;
    HoldingSplits(cfg, s, s', q, t, u, a);
    if Holding(cfg, s, t, u, a) {
      var n, n' := s.nodes[t], s'.nodes[t];
      SupersededStays(s.hist, s'.hist, u, n.vote.leader, n'.vote.leader);
      if t == q && Leased(cfg, n, u, a) {
        if Free(q, n, s.now) {
          FreeIsSuperseded(cfg, s, q, u, a);
        } else if Touched(n, n') {
          CommittedLease(cfg, s', q);
        }
      }
    }
  }

  lemma CommittedLease(cfg: Config, s: Sys, q: NodeId)
    requires ElectionInv(cfg, s) && q in s.nodes && s.nodes[q].vote.committed
    ensures s.nodes[q].lease == cfg.leaderLease
  {
  }

  /** Whoever granted `v` has a vote not below `v`, so a leader it answers now is not below `v`. */
  lemma GrantIsPast(cfg: Config, s: Sys, t: NodeId, v: LeaderId)
    requires ElectionInv(cfg, s) && t in s.nodes && HasGrant(s.hist, t, v)
    ensures Le(v, s.nodes[t].vote.leader)
  {
    VoterOf(cfg, s, t);
    var g :| g in s.hist.grants && g.node == t && g.vote == v;
    assert GrantDated(s.hist, g);
  }

  lemma GrantKeepsLease(cfg: Config, s: Sys, s': Sys, q: NodeId, g: Grant, u: LeaderId, a: nat)
    requires LeaseStep(cfg, s, s', q) && NodesLeased(cfg, s) && GrantsLeased(cfg, s)
    requires g in s'.hist.grants && g.vote !in s'.hist.elect && Lt(u, g.vote) && Holding(cfg, s', g.node, u, a)
    ensures Superseded(s'.hist, u, g.vote)
  {
    hide ElectionInv, VoteMoves, NewWins, NewAcks, NewCamps, Holding, Free;
    HoldingSplits(cfg, s, s', q, g.node, u, a);
    if Holding(cfg, s, g.node, u, a) {
      assert g.vote !in s.hist.elect by {
        assert g.vote in s.hist.elect ==> ElectGrows(s.hist, s'.hist, g.vote);
      }
      if g in s.hist.grants {
        SupersededStays(s.hist, s'.hist, u, g.vote, g.vote);
      } else {
        FreeIsSuperseded(cfg, s, q, u, a);
        var w :| w in s.hist.elect && Lt(u, w) && Le(w, s.nodes[q].vote.leader);
        assert ElectGrows(s.hist, s'.hist, w);
        assert VoteMoves(q, s.nodes[q], s'.nodes[q], s.now, s'.hist);
        VoteMovesUp(q, s.nodes[q], s'.nodes[q], s.now, s'.hist);
      }
    } else {
      GrantIsPast(cfg, s', q, g.vote);
    }
  }

  lemma VoteMovesUp(q: NodeId, n: Node, n': Node, now: nat, h': History)
    requires VoteMoves(q, n, n', now, h')
    ensures Le(n.vote.leader, n'.vote.leader)
  {
  }

  lemma WinKeepsLease(cfg: Config, s: Sys, s': Sys, q: NodeId, v: LeaderId, t: NodeId, u: LeaderId, a: nat)
    requires LeaseStep(cfg, s, s', q) && GrantsLeased(cfg, s) && WinsLeased(cfg, s)
    requires v in s'.hist.elect && t in s'.hist.elect[v].granters && Lt(u, v) && Holding(cfg, s', t, u, a)
    ensures Superseded(s'.hist, u, v)
  {
    hide ElectionInv, VoteMoves, NewGrants, NewAcks, NewCamps, Holding;
    HoldingSplits(cfg, s, s', q, t, u, a);
    SupersededStays(s.hist, s'.hist, u, v, v);
    if Holding(cfg, s, t, u, a) {
      if v in s.hist.elect {
        assert ElectGrows(s.hist, s'.hist, v);
      } else {
        assert HasGrant(s.hist, t, v);
        var g :| g in s.hist.grants && g.node == t && g.vote == v;
        assert Superseded(s.hist, u, g.vote);
      }
    } else {
      WinnerWasGranted(cfg, s', v, t);
      GrantIsPast(cfg, s', q, v);
    }
  }

  lemma WinnerWasGranted(cfg: Config, s: Sys, v: LeaderId, t: NodeId)
    requires ElectionInv(cfg, s) && v in s.hist.elect && t in s.hist.elect[v].granters
    ensures HasGrant(s.hist, t, v)
  {
    assert WonByQuorum(s.hist, cfg.joint, v);
  }

  lemma LeaseStepKeeps(cfg: Config, s: Sys, s': Sys, q: NodeId)
    requires LeaseStep(cfg, s, s', q) && LeaseInv(cfg, s)
    ensures LeaseInv(cfg, s')
  {
    forall t, u, a | t in s'.nodes && Holding(cfg, s', t, u, a)
      ensures Leased(cfg, s'.nodes[t], u, a) || SupersededUpTo(s'.hist, u, s'.nodes[t].vote.leader)
    {
      NodeKeepsLease(cfg, s, s', q, t, u, a);
    }
    forall g, u, a |
      g in s'.hist.grants && g.vote !in s'.hist.elect && Lt(u, g.vote) && Holding(cfg, s', g.node, u, a)
      ensures Superseded(s'.hist, u, g.vote)
    {
      GrantKeepsLease(cfg, s, s', q, g, u, a);
    }
    forall v, t, u, a |
      v in s'.hist.elect && t in s'.hist.elect[v].granters && Lt(u, v) && Holding(cfg, s', t, u, a)
      ensures Superseded(s'.hist, u, v)
    {
      WinKeepsLease(cfg, s, s', q, v, t, u, a);
    }
  }
}
