/** Applying in the cluster: every node submits the log I/O it has accepted and polls for entries to apply, while
    the cluster runs. No index is applied twice, none is left out, and nodes that apply the same index apply the
    same entry. */
module TrackedApply {
  import opened Ids
  import opened EngineSpec
  import B = Ballots
  import opened Cluster
  import opened BallotSteps
  import opened ClusterFrames
  import opened ClusterVotes
  import opened ClusterLog
  import opened Elections
  import S = ClusterSafety
  import opened TrackedCluster
  import opened TrackedSafety
  import opened EngineInCluster
  import A = ApplyProgress
  import Q = Commands

  /** Log I/O under the vote of what the node has accepted, and not after it. */
  ghost predicate MaySubmit(n: Node, io: IoId) {
    && n.accepted.Some? && IoVote(io) == IoVote(n.accepted.value) && !IoLt(n.accepted.value, io)
    && A.InLog(n.log, IoLogId(io))
  }

  ghost predicate AcceptedAt(run: seq<Tracked>, q: NodeId, j: nat, io: IoId)
    requires j < |run| && q in run[j].sys.nodes
  {
    MaySubmit(run[j].sys.nodes[q], io)
  }

  /** While the cluster makes one move, a node may submit log I/O it has accepted, in order, and may poll. */
  ghost predicate Advances(run: seq<Tracked>, q: NodeId, c: A.Cursors, c': A.Cursors, i: nat)
    requires i < |run| && forall j :: 0 <= j <= i ==> q in run[j].sys.nodes
  {
    && (c'.submitted == c.submitted ||
          (&& c'.submitted.Some? && (c.submitted.Some? ==> !IoLt(c'.submitted.value, c.submitted.value))
           && exists j :: 0 <= j <= i && AcceptedAt(run, q, j, c'.submitted.value)))
    && (c'.applying == c.applying || (A.NextCommand(c).Some? && c'.applying == Some(A.NextCommand(c).value.upto)))
  }

  /** The cursors of `q` along a run of the cluster. */
  ghost predicate IsApplyRun(run: seq<Tracked>, q: NodeId, cs: seq<A.Cursors>) {
    && |cs| == |run| > 0
    && (forall i :: 0 <= i < |run| ==> q in run[i].sys.nodes && cs[i].node == run[i].sys.nodes[q])
    && cs[0].submitted == cs[0].node.accepted && cs[0].applying == None
    && forall i :: 0 <= i < |run| - 1 ==> Advances(run, q, cs[i], cs[i + 1], i)
  }

  // ----- What was submitted -------------------------------------------------------

  /** Submitted log I/O ends in the log of its leader, and is not ahead of what is accepted. */
  ghost predicate SubmittedOk(h: B.History, c: A.Cursors) {
    c.submitted.Some? ==>
      && c.node.accepted.Some? && !IoLt(c.node.accepted.value, c.submitted.value)
      && (IoLogId(c.submitted.value).Some? ==> InLog(h, c.submitted.value.leader, IoLogId(c.submitted.value).value))
  }

  lemma AcceptedEnds(cfg: Config, s: Sys, q: NodeId, io: IoId)
    requires SysInv(cfg, s) && q in s.nodes && MaySubmit(s.nodes[q], io)
    ensures IoLogId(io).Some? ==> InLog(s.hist, io.leader, IoLogId(io).value)
  {
    hide SysInv, B.Inv;
    NodeOf(cfg, s, q);
    if IoLogId(io).Some? {
      var n := s.nodes[q];
      var last := IoLogId(n.accepted.value);
      NodeLogOk(s.hist, cfg.joint, q);
      LogIdOrder(n.log, IoLogId(io).value, last.value);
    }
  }

  /** What was submitted under the present vote of the node is in its log. */
  lemma SubmittedInLog(cfg: Config, s: Sys, q: NodeId, c: A.Cursors)
    requires SysInv(cfg, s) && q in s.nodes && c.node == s.nodes[q] && SubmittedOk(s.hist, c)
    ensures c.submitted.Some? && A.SameLeader(c) ==> A.InLog(c.Log(), IoLogId(c.submitted.value))
  {
    hide SysInv, B.Inv;
    NodeOf(cfg, s, q);
    if c.submitted.Some? && A.SameLeader(c) && IoLogId(c.submitted.value).Some? {
      var n, u := c.node, c.node.vote.leader;
      var last := IoLogId(n.accepted.value);
      LeaderLogOk(s.hist, cfg.joint, u);
      LogIdOrder(s.hist.elect[u].log, IoLogId(c.submitted.value).value, last.value);
    }
  }

  // ----- Every step ---------------------------------------------------------------

  ghost predicate CursorsOk(s: Sys, c: A.Cursors) {
    SubmittedOk(s.hist, c) && A.Inv(c)
  }

  lemma StartOk(cfg: Config, run: seq<Tracked>, q: NodeId, c: A.Cursors)
    requires IsTrackedRun(cfg, run) && q in run[0].sys.nodes && c.node == run[0].sys.nodes[q]
    requires c.submitted == c.node.accepted && c.applying == None
    ensures CursorsOk(run[0].sys, c)
  {
    assert InitNode(q, run[0].sys.nodes[q], run[0].sys.now);
  }

  /** What the history knew of a leader's log it still knows. */
  lemma LaterInLog(h: B.History, h': B.History, u: LeaderId, m: LogId)
    requires Later(h, h') && InLog(h, u, m)
    ensures InLog(h', u, m)
  {
    assert ElectGrows(h, h', u);
  }

  lemma StillSubmitted(h: B.History, h': B.History, c: A.Cursors, n: Node)
    requires SubmittedOk(h, c) && Later(h, h') && S.IoForward(c.node.accepted, n.accepted)
    ensures SubmittedOk(h', c.(node := n))
  {
    if c.submitted.Some? && IoLogId(c.submitted.value).Some? {
      LaterInLog(h, h', c.submitted.value.leader, IoLogId(c.submitted.value).value);
    }
  }

  lemma NewlySubmitted(cfg: Config, run: seq<Tracked>, q: NodeId, j: nat, i: nat, io: IoId, c: A.Cursors)
    requires IsTrackedRun(cfg, run) && j <= i < |run| && Unskipped(cfg, run[i])
    requires q in run[j].sys.nodes && q in run[i].sys.nodes && AcceptedAt(run, q, j, io)
    requires c.node == run[i].sys.nodes[q] && c.submitted == Some(io)
    ensures SubmittedOk(run[i].sys.hist, c)
  {
    hide IsTrackedRun, IsRun, SysInv, TracksInv, Later;
    var ss := AsProtocol(cfg, run, i);
    S.RunLater(cfg, ss, j, i);
    NeverBack(cfg, run, j, i, q);
    AcceptedEnds(cfg, ss[j], q, io);
    if IoLogId(io).Some? {
      LaterInLog(ss[j].hist, ss[i].hist, io.leader, IoLogId(io).value);
    }
  }

  /** Applied entries are committed, and stay where they are. */
  lemma AppliedStays(n: Node, n': Node, applying: Option<LogId>)
    requires A.InLog(n.log, applying) && NextIndex(applying) <= NextIndex(n.committed)
    requires NextIndex(n.committed) <= NextIndex(n'.committed) && Agree(n.log, n'.log, NextIndex(n.committed))
    ensures A.InLog(n'.log, applying) && NextIndex(applying) <= NextIndex(n'.committed)
  {
  }

  lemma StepOk(cfg: Config, run: seq<Tracked>, q: NodeId, cs: seq<A.Cursors>, i: nat)
    requires IsTrackedRun(cfg, run) && IsApplyRun(run, q, cs) && i + 1 < |run| && Unskipped(cfg, run[i + 1])
    requires CursorsOk(run[i].sys, cs[i])
    ensures CursorsOk(run[i + 1].sys, cs[i + 1])
    ensures NextIndex(cs[i].applying) <= NextIndex(cs[i + 1].applying) <= NextIndex(cs[i + 1].Committed())
    ensures cs[i + 1].applying != cs[i].applying ==> NextIndex(cs[i + 1].applying) <= NextIndex(cs[i].Committed())
  {
    hide IsTrackedRun, IsRun, SysInv, TracksInv, Later, A.InLog, S.IoForward;
    var c, c', s' := cs[i], cs[i + 1], run[i + 1].sys;
    var ss := AsProtocol(cfg, run, i + 1);
    S.RunLater(cfg, ss, i, i + 1);
    NeverBack(cfg, run, i, i + 1, q);
    CommittedStays(cfg, run, i, i + 1, q);
    assert Advances(run, q, c, c', i);
    if c'.submitted == c.submitted {
      StillSubmitted(run[i].sys.hist, s'.hist, c, c'.node);
    } else {
      var j :| 0 <= j <= i && AcceptedAt(run, q, j, c'.submitted.value);
      NewlySubmitted(cfg, run, q, j, i + 1, c'.submitted.value, c');
    }
    if c'.applying != c.applying {
      A.NextCommandIs(c);
    }
    AppliedStays(c.node, c'.node, c'.applying);
    NodeIsReady(cfg, s', q);
    NodeOf(cfg, s', q);
    CommittedInLog(s'.hist, cfg, c'.node);
    SubmittedInLog(cfg, s', q, c');
    CommittedIn(c'.node);
  }

  lemma CommittedIn(n: Node)
    requires NextIndex(n.committed) <= |n.log|
    requires n.committed.Some? ==> n.log[n.committed.value.index] == n.committed.value.leader
    ensures A.InLog(n.log, n.committed)
  {
  }

  /** What the cursors of a node take for granted holds in every state of every run without a skip. */
  lemma {:induction false} CursorsAlwaysOk(cfg: Config, run: seq<Tracked>, q: NodeId, cs: seq<A.Cursors>, i: nat)
    requires IsTrackedRun(cfg, run) && IsApplyRun(run, q, cs) && i < |run| && Unskipped(cfg, run[i])
    ensures CursorsOk(run[i].sys, cs[i])
    decreases i
  {
    hide IsTrackedRun, CursorsOk;
    if i == 0 {
      StartOk(cfg, run, q, cs[0]);
    } else {
      UnskippedBefore(cfg, run, i - 1, i);
      CursorsAlwaysOk(cfg, run, q, cs, i - 1);
      StepOk(cfg, run, q, cs, i - 1);
    }
  }

  lemma UnskippedBefore(cfg: Config, run: seq<Tracked>, i: nat, j: nat)
    requires IsTrackedRun(cfg, run) && i <= j < |run| && Unskipped(cfg, run[j])
    ensures Unskipped(cfg, run[i])
  {
    if !run[j].skipped {
      NotSkippedBefore(cfg, run, i, j);
    }
  }

  // ----- What is applied ----------------------------------------------------------

  /** At `t` the node sends a range of entries that holds index `k` to its state machine. */
  ghost predicate Applies(cs: seq<A.Cursors>, t: nat, k: nat) {
    && t + 1 < |cs| && cs[t + 1].applying.Some? && cs[t + 1].applying != cs[t].applying
    && A.Holds(A.Range(cs[t].applying, cs[t + 1].applying.value), k)
  }

  /** An index is applied once it is below the cursor, and only once. */
  lemma {:induction false} AppliedOnce(cfg: Config, run: seq<Tracked>, q: NodeId, cs: seq<A.Cursors>, i: nat, k: nat)
    requires IsTrackedRun(cfg, run) && IsApplyRun(run, q, cs) && i < |run| && Unskipped(cfg, run[i])
    ensures k < NextIndex(cs[i].applying) <==> exists t :: 0 <= t < i && Applies(cs, t, k)
    ensures forall t, r :: 0 <= t < i && 0 <= r < i && Applies(cs, t, k) && Applies(cs, r, k) ==> t == r
    decreases i
  {
    hide IsTrackedRun, CursorsOk, Advances;
    if i > 0 {
      UnskippedBefore(cfg, run, i - 1, i);
      CursorsAlwaysOk(cfg, run, q, cs, i - 1);
      StepOk(cfg, run, q, cs, i - 1);
      AppliedOnce(cfg, run, q, cs, i - 1, k);
      assert Applies(cs, i - 1, k) <==> NextIndex(cs[i - 1].applying) <= k < NextIndex(cs[i].applying);
      if k < NextIndex(cs[i - 1].applying) {
        var t :| 0 <= t < i - 1 && Applies(cs, t, k);
      }
    }
  }

  /** When a node polls, everything committed and submitted under the vote of what it has accepted has been applied. */
  lemma PollAppliesAll(cfg: Config, run: seq<Tracked>, q: NodeId, cs: seq<A.Cursors>, i: nat, k: nat)
    requires IsTrackedRun(cfg, run) && IsApplyRun(run, q, cs) && i + 1 < |run| && Unskipped(cfg, run[i])
    requires A.NextCommand(cs[i]).Some? ==> cs[i + 1].applying == Some(A.NextCommand(cs[i]).value.upto)
    requires A.Applicable(cs[i], k)
    ensures k < NextIndex(cs[i + 1].applying)
  {
    hide IsTrackedRun, A.NextCommand, A.Applicable;
    CursorsAlwaysOk(cfg, run, q, cs, i);
    assert Advances(run, q, cs[i], cs[i + 1], i);
    A.NothingLeft(cs[i]);
    if A.NextCommand(cs[i]).Some? {
      A.NextCommandIs(cs[i]);
      A.TakesAll(cs[i], k);
    }
  }

  /** An applied index is committed. */
  lemma AppliedIsCommitted(cfg: Config, run: seq<Tracked>, q: NodeId, cs: seq<A.Cursors>, t: nat, k: nat)
    requires IsTrackedRun(cfg, run) && IsApplyRun(run, q, cs) && Applies(cs, t, k) && Unskipped(cfg, run[t + 1])
    ensures k < NextIndex(run[t].sys.nodes[q].committed)
  {
    hide IsTrackedRun, CursorsOk, Advances;
    UnskippedBefore(cfg, run, t, t + 1);
    CursorsAlwaysOk(cfg, run, q, cs, t);
    StepOk(cfg, run, q, cs, t);
  }

  /** Two nodes that apply an entry at one index apply the same entry. */
  lemma AppliedSame(cfg: Config, run: seq<Tracked>, p: NodeId, cs: seq<A.Cursors>, q: NodeId, ds: seq<A.Cursors>,
                    t: nat, r: nat, k: nat)
    requires IsTrackedRun(cfg, run) && IsApplyRun(run, p, cs) && IsApplyRun(run, q, ds)
    requires Applies(cs, t, k) && Applies(ds, r, k) && t <= r && Unskipped(cfg, run[r + 1])
    ensures k < |run[t].sys.nodes[p].log| && k < |run[r].sys.nodes[q].log|
    ensures run[t].sys.nodes[p].log[k] == run[r].sys.nodes[q].log[k]
  {
    hide IsTrackedRun, Advances;
    UnskippedBefore(cfg, run, t + 1, r + 1);
    UnskippedBefore(cfg, run, r, r + 1);
    AppliedIsCommitted(cfg, run, p, cs, t, k);
    AppliedIsCommitted(cfg, run, q, ds, r, k);
    StateMachineSafety(cfg, run, t, r, p, q, k);
  }

  // ----- Answers ------------------------------------------------------------------

  /** In every run, the states of a node at ascending times are such as the order of its answers is about. */
  lemma NodeInTime(cfg: Config, run: seq<Tracked>, q: NodeId, ts: seq<nat>, ns: seq<Node>)
    requires IsTrackedRun(cfg, run) && |ns| == |ts|
    requires forall i, j :: 0 <= i < j < |ts| ==> ts[i] <= ts[j]
    requires forall i :: 0 <= i < |ts| ==> ts[i] < |run| && q in run[ts[i]].sys.nodes && ns[i] == run[ts[i]].sys.nodes[q]
    ensures Q.InTime(ns)
  {
    hide IsTrackedRun, ElectionInv, ClocksInv;
    forall i | 0 <= i < |ns| ensures ns[i].accepted.Some? && IoVote(ns[i].accepted.value) == ns[i].vote {
      ClocksAlwaysOk(cfg, run, ts[i]);
      VoterOf(cfg, run[ts[i]].sys, q);
    }
    forall i, j | 0 <= i < j < |ns| ensures !IoLt(ns[j].accepted.value, ns[i].accepted.value) {
      NeverBack(cfg, run, ts[i], ts[j], q);
    }
  }
}
