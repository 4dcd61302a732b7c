/** Reads served by a leader under its lease see everything any node has committed. */
module ClusterReads {
  import opened Ids
  import opened Quorum
  import opened EngineSpec
  import opened Ballots
  import opened BallotSteps
  import opened Cluster
  import opened ClusterFrames
  import opened ClusterVotes
  import opened ClusterLog
  import opened ClusterProgress
  import opened ClusterSafety
  import opened Elections
  import opened ClusterLease
  import opened ClusterLeaseSteps

  // ----- The lease check ----------------------------------------------------------

  /** Members whose clock is at `t` or later. */
  ghost function ClockReached(clock: map<NodeId, Option<nat>>, t: nat): set<NodeId> {
    set p | p in clock && clock[p].Some? && t <= clock[p].value
  }

  /** The clocks `last_quorum_acked_time` looks at: the leader's own is the present time. */
  function Clocks(s: Sys, q: NodeId): map<NodeId, Option<nat>>
    requires q in s.nodes && s.nodes[q].leader.Some?
  {
    var clock := s.nodes[q].leader.value.clock;
    if q in clock then clock[q := Some(s.now)] else clock
  }

  /** The lease check of a read: some time that a quorum acknowledged is less than a lease ago.
      It holds of the greatest such time if it holds of any. */
  ghost predicate LeaseReadAccepted(cfg: Config, s: Sys, q: NodeId) {
    && q in s.nodes && s.nodes[q].leader.Some?
    && exists t: nat :: IsQuorum(cfg.joint, ClockReached(Clocks(s, q), t)) && s.now < t + cfg.leaderLease
  }

  /** No leader above one with a valid lease has been elected: a smallest such leader would share
      a granter with the quorum that acknowledged the lease. */
  lemma {:induction false} NoneAbove(cfg: Config, s: Sys, q: NodeId, t: nat, v: LeaderId)
    requires ElectionInv(cfg, s) && LeaseInv(cfg, s) && q in s.nodes && s.nodes[q].leader.Some?
    requires IsQuorum(cfg.joint, ClockReached(Clocks(s, q), t)) && s.now < t + cfg.leaderLease
    requires v in s.hist.elect
    ensures Le(v, s.nodes[q].vote.leader)
    decreases v.term, v.node
  {
    hide ElectionInv, BallotsOk, NodesLeased, GrantsLeased;
    var u := s.nodes[q].vote.leader;
    VoterOf(cfg, s, q);
    if Lt(u, v) {
      var ids := ClockReached(Clocks(s, q), t);
      ElectedByQuorum(cfg, s, v);
      var p := SharedChildIntersects(cfg.joint, cfg.joint, cfg.joint[0], ids, s.hist.elect[v].granters);
      WinnerWasGranted(cfg, s, v, p);
      if p == q {
        GrantIsPast(cfg, s, q, v);
      } else {
        var a := s.nodes[q].leader.value.clock[p].value;
        assert Holding(cfg, s, p, u, a);
        var w :| w in s.hist.elect && Lt(u, w) && Lt(w, v);
        NoneAbove(cfg, s, q, t, w);
      }
    }
  }

  lemma ElectedByQuorum(cfg: Config, s: Sys, v: LeaderId)
    requires ElectionInv(cfg, s) && v in s.hist.elect && v.term > 0
    ensures IsQuorum(cfg.joint, s.hist.elect[v].granters) && |cfg.joint| > 0
  {
    assert WonByQuorum(s.hist, cfg.joint, v);
  }

  // ----- Commits known anywhere stay below the read log id -------------------------

  /** `get_read_log_id`. */
  function ReadLogId(n: Node): LogId
    requires n.leader.Some?
  {
    if n.committed.Some? && LogIdLt(n.leader.value.noop, n.committed.value) then n.committed.value
    else n.leader.value.noop
  }

  /** A read waits for the blank entry of the leader or for its commit, and for neither less than the other. */
  lemma ReadWaitsFor(n: Node)
    requires n.leader.Some?
    ensures var r, noop := ReadLogId(n), n.leader.value.noop;
            && (r == noop || Some(r) == n.committed) && OptLe(Some(noop), Some(r)) && OptLe(n.committed, Some(r))
  {
  }

  ghost predicate HasLater(h: History, u: LeaderId) {
    exists w :: w in h.elect && Lt(u, w)
  }

  ghost predicate BoundedBy(h: History, n: Node, m: Option<LogId>) {
    n.leader.Some? ==> HasLater(h, n.vote.leader) || OptLe(m, Some(ReadLogId(n)))
  }

  /** No leader that is still the latest would let a read miss `m`. */
  ghost predicate Bounded(s: Sys, m: Option<LogId>) {
    forall q :: q in s.nodes ==> BoundedBy(s.hist, s.nodes[q], m)
  }

  ghost predicate NodeBounded(s: Sys, n: Node) {
    Bounded(s, n.committed) && (n.announced.Some? ==> Bounded(s, n.announced.value.logId))
  }

  ghost predicate ReadsInv(s: Sys) {
    && (forall p :: p in s.nodes ==> NodeBounded(s, s.nodes[p]))
    && (forall m :: m in s.net && m.AppendReq? ==> Bounded(s, m.commit))
  }

  // ----- What a step may do -------------------------------------------------------

  /** The leadership a node has after a step is the one it had, or a new one. */
  ghost predicate LeadMoves(h: History, n: Node, n': Node) {
    n'.leader.Some? ==>
      || (n.leader.Some? && n.leader.value.id == n'.leader.value.id && n.leader.value.noop == n'.leader.value.noop)
      || n'.leader.value.id !in h.elect
  }

  /** `m` is an entry the leader on this node proposed and has committed. */
  ghost predicate OwnCommit(n: Node, m: Option<LogId>) {
    n.leader.Some? && OptLe(m, n.committed) && (m.Some? ==> m.value.leader == n.leader.value.id)
  }

  ghost predicate AnnounceMoves(s: Sys, n: Node, n': Node) {
    || n'.announced == n.announced
    || (exists m :: m in s.net && m.AppendReq? && n'.announced == Some(Announced(m.leader, m.commit)))
    || (n'.announced.Some? && OwnCommit(n', n'.announced.value.logId))
  }

  ghost predicate CommitMoves(n: Node, n': Node) {
    || n'.committed == n.committed
    || (n'.announced.Some? && OptLe(n'.committed, n'.announced.value.logId))
    || OwnCommit(n', n'.committed)
  }

  ghost predicate SendsCommit(s: Sys, s': Sys, q: NodeId)
    requires q in s.nodes
  {
    forall m :: m in s'.net && m !in s.net && m.AppendReq? ==> m.commit == s.nodes[q].committed
  }

  ghost predicate ReadStep(cfg: Config, s: Sys, s': Sys, q: NodeId) {
    && SysInv(cfg, s) && Kept(cfg, s, s') && OnlyNode(s, s', q)
    && Forward(s.nodes[q], s'.nodes[q])
    && LeadMoves(s.hist, s.nodes[q], s'.nodes[q])
    && AnnounceMoves(s, s.nodes[q], s'.nodes[q])
    && CommitMoves(s.nodes[q], s'.nodes[q])
    && SendsCommit(s, s', q)
  }

  // ----- Why that keeps the bound -------------------------------------------------

  lemma NoopOf(cfg: Config, s: Sys, q: NodeId)
    requires SysInv(cfg, s) && q in s.nodes && s.nodes[q].leader.Some?
    ensures s.nodes[q].leader.value.noop.leader == s.nodes[q].leader.value.id == s.nodes[q].vote.leader
    ensures s.nodes[q].vote.leader in s.hist.elect && s.nodes[q].vote.leader.node == q
  {
  }

  /** A commit made under a leader other than the one on `n`. */
  lemma OtherLeaderBounds(h: History, n: Node, m: LogId, x: LeaderId)
    requires n.leader.Some? && n.leader.value.noop.leader == n.vote.leader
    requires x in h.elect && x != n.vote.leader && Le(m.leader, x)
    ensures BoundedBy(h, n, Some(m))
  {
    assert Lt(n.vote.leader, x) || Lt(x, n.vote.leader);
  }

  /** What is committed lies in the log of an elected leader, so its leader id is not above it. */
  lemma CommitHasLeader(cfg: Config, h: History, u: LeaderId, m: LogId) returns (x: LeaderId)
    requires cfg.Valid() && Inv(h, cfg.joint) && CommitOk(h, cfg, u, Some(m))
    ensures x in h.elect && Le(m.leader, x)
  {
    var c;
    x, c :| Le(x, u) && CoveredBy(h, cfg, x, c, m);
    assert WinOk(h, cfg.joint, x);
    assert CampOk(h, x);
  }

  /** A bound that held before the step still holds after it. */
  lemma BoundStays(cfg: Config, s: Sys, s': Sys, q: NodeId, u: LeaderId, m: Option<LogId>)
    requires ReadStep(cfg, s, s', q) && Bounded(s, m) && CommitOk(s.hist, cfg, u, m)
    ensures Bounded(s', m)
  {
    hide SysInv, Inv, CommitOk, AnnounceMoves, CommitMoves, SendsCommit;
    forall p | p in s'.nodes ensures BoundedBy(s'.hist, s'.nodes[p], m) {
      var n, n' := s.nodes[p], s'.nodes[p];
      if n'.leader.Some? && m.Some? {
        NoopOf(cfg, s', p);
        if n.leader.Some? && n.leader.value.id == n'.leader.value.id {
          assert BoundedBy(s.hist, n, m);
          NoopOf(cfg, s, p);
          if OptLe(m, Some(ReadLogId(n))) {
            ReadGrows(s, s', q, p);
          } else {
            LaterStays(s.hist, s'.hist, n.vote.leader);
          }
        } else {
          InvOf(cfg, s);
          var x := CommitHasLeader(cfg, s.hist, u, m.value);
          assert ElectGrows(s.hist, s'.hist, x);
          OtherLeaderBounds(s'.hist, n', m.value, x);
        }
      }
    }
  }

  lemma LaterStays(h: History, h': History, u: LeaderId)
    requires Later(h, h') && HasLater(h, u)
    ensures HasLater(h', u)
  {
    var w :| w in h.elect && Lt(u, w);
    assert ElectGrows(h, h', w);
  }

  lemma ReadGrows(s: Sys, s': Sys, q: NodeId, p: NodeId)
    requires OnlyNode(s, s', q) && Forward(s.nodes[q], s'.nodes[q]) && p in s.nodes
    requires s.nodes[p].leader.Some? && s'.nodes[p].leader.Some?
    requires s.nodes[p].leader.value.noop == s'.nodes[p].leader.value.noop
    ensures LogIdLe(ReadLogId(s.nodes[p]), ReadLogId(s'.nodes[p]))
  {
  }

  lemma OwnCommitBounds(cfg: Config, s: Sys, q: NodeId, m: Option<LogId>)
    requires SysInv(cfg, s) && q in s.nodes && OwnCommit(s.nodes[q], m)
    ensures Bounded(s, m)
  {
    hide SysInv;
    NoopOf(cfg, s, q);
    forall p | p in s.nodes ensures BoundedBy(s.hist, s.nodes[p], m) {
      if p != q && s.nodes[p].leader.Some? && m.Some? {
        NoopOf(cfg, s, p);
        OtherLeaderBounds(s.hist, s.nodes[p], m.value, s.nodes[q].vote.leader);
      }
    }
  }

  lemma BoundedDown(s: Sys, a: Option<LogId>, b: Option<LogId>)
    requires Bounded(s, b) && OptLe(a, b)
    ensures Bounded(s, a)
  {
    forall p | p in s.nodes ensures BoundedBy(s.hist, s.nodes[p], a) {
      assert BoundedBy(s.hist, s.nodes[p], b);
    }
  }

  lemma CommitOkOf(cfg: Config, s: Sys, p: NodeId)
    requires SysInv(cfg, s) && p in s.nodes
    ensures CommitOk(s.hist, cfg, s.nodes[p].vote.leader, s.nodes[p].committed)
    ensures s.nodes[p].announced.Some? ==>
              CommitOk(s.hist, cfg, s.nodes[p].announced.value.leader, s.nodes[p].announced.value.logId)
  {
    NodeOf(cfg, s, p);
    hide Inv, SysInv, CoveredBy;
    var h, n := s.hist, s.nodes[p];
    if n.committed.Some? {
      var x, c :| Le(x, n.vote.leader) && CommittedUnder(h, cfg, n, x, c);
      assert CoveredBy(h, cfg, x, c, n.committed.value);
    }
  }

  lemma SameNodeBounded(cfg: Config, s: Sys, s': Sys, q: NodeId, p: NodeId)
    requires ReadStep(cfg, s, s', q) && p in s.nodes && NodeBounded(s, s.nodes[p])
    ensures Bounded(s', s.nodes[p].committed)
    ensures s.nodes[p].announced.Some? ==> Bounded(s', s.nodes[p].announced.value.logId)
  {
    hide SysInv, CommitOk, Bounded, ReadStep;
    assert SysInv(cfg, s) by { StepStarts(cfg, s, s', q); }
    CommitOkOf(cfg, s, p);
    var n := s.nodes[p];
    BoundStays(cfg, s, s', q, n.vote.leader, n.committed);
    if n.announced.Some? {
      BoundStays(cfg, s, s', q, n.announced.value.leader, n.announced.value.logId);
    }
  }

  lemma StepStarts(cfg: Config, s: Sys, s': Sys, q: NodeId)
    requires ReadStep(cfg, s, s', q)
    ensures SysInv(cfg, s) && SysInv(cfg, s') && OnlyNode(s, s', q)
  {
  }

  lemma MsgBounded(cfg: Config, s: Sys, s': Sys, q: NodeId, m: Msg)
    requires ReadStep(cfg, s, s', q) && m in s.net && m.AppendReq? && Bounded(s, m.commit)
    ensures Bounded(s', m.commit)
  {
    hide CommitOk, Bounded, ReadStep;
    StepStarts(cfg, s, s', q);
    MsgOf(cfg, s, m);
    BoundStays(cfg, s, s', q, m.leader, m.commit);
  }

  lemma StepNodeBounded(cfg: Config, s: Sys, s': Sys, q: NodeId)
    requires ReadStep(cfg, s, s', q) && ReadsInv(s)
    ensures NodeBounded(s', s'.nodes[q])
  {
    hide SysInv, Bounded, LeadMoves, Forward, SendsCommit, Kept;
    StepStarts(cfg, s, s', q);
    var n, n' := s.nodes[q], s'.nodes[q];
    SameNodeBounded(cfg, s, s', q, q);
    if n'.announced.Some? && n'.announced != n.announced {
      if OwnCommit(n', n'.announced.value.logId) {
        OwnCommitBounds(cfg, s', q, n'.announced.value.logId);
      } else {
        var m :| m in s.net && m.AppendReq? && n'.announced == Some(Announced(m.leader, m.commit));
        MsgBounded(cfg, s, s', q, m);
      }
    }
    if n'.committed != n.committed {
      if OwnCommit(n', n'.committed) {
        OwnCommitBounds(cfg, s', q, n'.committed);
      } else {
        BoundedDown(s', n'.committed, n'.announced.value.logId);
      }
    }
  }

  lemma ReadStepKeeps(cfg: Config, s: Sys, s': Sys, q: NodeId)
    requires ReadStep(cfg, s, s', q) && ReadsInv(s)
    ensures ReadsInv(s')
  {
    hide SysInv, Bounded, LeadMoves, Forward, Kept, AnnounceMoves, CommitMoves;
    StepNodeBounded(cfg, s, s', q);
    forall p | p in s'.nodes ensures NodeBounded(s', s'.nodes[p]) {
      SameNodeBounded(cfg, s, s', q, p);
    }
    forall m | m in s'.net && m.AppendReq? ensures Bounded(s', m.commit) {
      if m in s.net {
        MsgBounded(cfg, s, s', q, m);
      } else {
        SameNodeBounded(cfg, s, s', q, q);
      }
    }
  }
}
