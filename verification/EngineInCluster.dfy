/** What the handlers of the engine ask of their callers, and take for granted of their node, holds in every run
    of the cluster. */
module EngineInCluster {
  import opened Ids
  import opened EngineSpec
  import opened FollowerLog
  import B = Ballots
  import E = Engine
  import opened Cluster
  import opened ClusterVotes
  import opened ClusterLog
  import opened ClusterProgress

  // ----- The first steps ----------------------------------------------------------

  /** The node after `initialize()`, which saves the first entry under a committed vote without a lease. */
  function Initialized(n: Node, q: NodeId, now: nat): Node {
    n.(vote := Vote(LeaderId(0, q), true), utime := Some(now), lease := 0, log := [GENESIS])
  }

  /** `handle_initialize` elects right after `initialize()`. What it leaves is what the first tick leaves of a node
      that starts with that entry. */
  lemma InitializeElects(cfg: Config, q: NodeId, n: Node, started: nat, now: nat)
    requires cfg.IsVoter(q) && q in cfg.members && InitNode(q, n, started) && n.log == [GENESIS] && n.utime.None?
    ensures TickElection(cfg, q, n, now) == Elect(cfg, q, Initialized(n.(log := []), q, now), now)
    ensures TickElection(cfg, q, n, now) == Standing(n, LeaderId(1, q), now)
  {
    ElectResult(cfg, q, n, now);
  }

  // ----- The state of a node ------------------------------------------------------

  /** What `Engine.Valid` says of the abstract state. */
  ghost predicate Ready(cfg: Config, me: NodeId, n: Node, now: nat) {
    && Sorted(n.log)
    && (n.log != [] ==> Le(n.log[|n.log| - 1], n.vote.leader))
    && (n.leader.Some? ==>
          && IsLeading(cfg, me, n) && n.vote == Vote(n.leader.value.id, true)
          && n.leader.value.lastLogId == LastId(n.log))
    && (n.candidate.Some? ==>
          && n.leader.None? && IsLeading(cfg, me, n) && n.vote == n.candidate.value.vote && !n.vote.committed
          && n.candidate.value.lastLogId == LastId(n.log))
    && (n.utime.Some? ==> n.utime.value <= now)
    && n.accepted.Some? && IoVote(n.accepted.value) == n.vote
  }

  lemma NodeIsReady(cfg: Config, s: Sys, q: NodeId)
    requires SysInv(cfg, s) && q in s.nodes
    ensures Ready(cfg, q, s.nodes[q], s.now)
  {
    hide SysInv, B.Inv;
    NodeOf(cfg, s, q);
    LogBelowVote(s.hist, cfg.joint, q);
    NodeLogOk(s.hist, cfg.joint, q);
  }

  /** An engine whose parts are valid, and whose state is that of a node of the protocol, is valid. */
  lemma ReadyIsValid(e: E.Engine, now: nat)
    requires e.cfg.Valid() && e.vote.leaseEnabled && e.logIds.Valid() && e.logIds.first == 0
    requires e.candidate != null ==> e.candidate.Valid() && e.candidate.progress.quorumSet == e.cfg.joint
    requires Ready(e.cfg, e.me, e.View(), now)
    ensures e.Valid()
  {
  }

  // ----- The messages -------------------------------------------------------------

  /** A rejection never carries a later vote of the candidate itself. */
  lemma RejectionIsOld(cfg: Config, s: Sys, q: NodeId, m: Msg)
    requires SysInv(cfg, s) && Possible(cfg, s, RecvVoteResp(q, m))
    ensures m.reply.vote.leader.node == q ==> Le(m.reply.vote.leader, s.nodes[q].vote.leader)
  {
    hide SysInv, B.Inv;
    NodeOf(cfg, s, q);
    MsgOf(cfg, s, m);
    var y := m.reply.vote.leader;
    if y.node == q && Le(s.nodes[q].vote.leader, y) {
      RejectionIsNotOwn(s.hist, cfg.joint, q, y);
    }
  }

  lemma BatchInOrder(h: B.History, u: LeaderId, prev: Option<LogId>, entries: Log)
    requires Batch(h, u, prev, entries) && Sorted(h.elect[u].log)
    ensures Sorted(entries) && (prev.Some? && |entries| > 0 ==> Le(prev.value.leader, entries[0]))
  {
    var log, start := h.elect[u].log, NextIndex(prev);
    forall i, j | 0 <= i <= j < |entries| ensures Le(entries[i], entries[j]) {
      assert Le(log[start + i], log[start + j]);
    }
    if prev.Some? && |entries| > 0 {
      assert Le(log[prev.value.index], log[start + 0]);
    }
  }

  /** Entries of a leader never exceed its vote. */
  lemma LeaderLogBelow(h: B.History, cfg: Config, u: LeaderId, k: nat)
    requires B.Inv(h, cfg.joint) && u in h.elect && k < |h.elect[u].log|
    ensures Le(h.elect[u].log[k], u)
  {
    assert B.WinOk(h, cfg.joint, u);
    assert u in h.camp ==> B.CampOk(h, u);
  }

  /** The batch of a leader whose vote is not below that of the node agrees with what the node has committed, and
      continues its log. */
  lemma AppendFits(cfg: Config, s: Sys, q: NodeId, m: Msg)
    requires SysInv(cfg, s) && Possible(cfg, s, RecvAppend(q, m)) && VoteLe(s.nodes[q].vote, Vote(m.leader, true))
    ensures m.leader.node != q && FitsCommitted(s.nodes[q], m.prev, m.entries)
    ensures (m.prev.Some? ==> HasLogId(s.nodes[q], m.prev.value)) ==> Continues(s.nodes[q], m.prev, m.entries)
    ensures |m.entries| > 0 ==> Le(m.entries[|m.entries| - 1], m.leader)
  {
    hide SysInv, B.Inv, CommittedInv, CommitOk;
    var h, n, u := s.hist, s.nodes[q], m.leader;
    NodeOf(cfg, s, q);
    MsgOf(cfg, s, m);
    CommittedMatches(h, cfg, n, u);
    CommittedInLog(h, cfg, n);
    NodeLogOk(h, cfg.joint, q);
    LeaderLogOk(h, cfg.joint, u);
    assert Batch(h, u, m.prev, m.entries);
    BatchInOrder(h, u, m.prev, m.entries);
    assert FitsCommitted(n, m.prev, m.entries);
    if m.prev.Some? ==> HasLogId(n, m.prev.value) {
      FitsContinues(n, m.prev, m.entries);
    }
    if |m.entries| > 0 {
      LeaderLogBelow(h, cfg, u, NextIndex(m.prev) + |m.entries| - 1);
    }
  }

  lemma CommittedInLog(h: B.History, cfg: Config, n: Node)
    requires CommittedInv(h, cfg, n)
    ensures NextIndex(n.committed) <= |n.log|
    ensures n.committed.Some? ==> n.log[n.committed.value.index] == n.committed.value.leader
  {
    if n.committed.Some? {
      var x, c :| Le(x, n.vote.leader) && CommittedUnder(h, cfg, n, x, c);
    }
  }
}
