/** What holds in the runs of the code: everything the protocol promises of commits and logs, as long as no update
    of a leader's progress has skipped. With at most three voters none ever does. What the protocol promises of votes
    and leaders holds in every run. */
module TrackedSafety {
  import opened Ids
  import opened EngineSpec
  import opened Cluster
  import opened Elections
  import opened TrackedCluster
  import S = ClusterSafety

  /** No update of any leader's progress has skipped so far. A cluster of three voters is always in this state. */
  ghost predicate Unskipped(cfg: Config, c: Tracked) {
    !c.skipped || Small(cfg)
  }

  /** The systems up to `j`, as a run of the protocol. */
  lemma AsProtocol(cfg: Config, run: seq<Tracked>, j: nat) returns (ss: seq<Sys>)
    requires IsTrackedRun(cfg, run) && j < |run| && Unskipped(cfg, run[j])
    ensures IsRun(cfg, ss) && |ss| == j + 1 && forall i :: 0 <= i <= j ==> ss[i] == run[i].sys
    ensures SysInv(cfg, run[j].sys) && TracksInv(cfg, run[j]) && !run[j].skipped
  {
    hide IsTrackedRun, IsRun, SysInv, TracksInv;
    if Small(cfg) {
      SmallRunNeverSkips(cfg, run, j);
    }
    ss := PrefixRefines(cfg, run, j);
  }

  /** No two nodes, at any two times, commit different entries at one index. */
  lemma StateMachineSafety(cfg: Config, run: seq<Tracked>, i: nat, j: nat, p: NodeId, q: NodeId, k: nat)
    requires IsTrackedRun(cfg, run) && i <= j < |run| && Unskipped(cfg, run[j])
    requires p in run[i].sys.nodes && q in run[j].sys.nodes
    requires k < NextIndex(run[i].sys.nodes[p].committed) && k < NextIndex(run[j].sys.nodes[q].committed)
    ensures k < |run[i].sys.nodes[p].log| && k < |run[j].sys.nodes[q].log|
    ensures run[i].sys.nodes[p].log[k] == run[j].sys.nodes[q].log[k]
  {
    hide IsTrackedRun, IsRun, SysInv, TracksInv;
    var ss := AsProtocol(cfg, run, j);
    S.StateMachineSafety(cfg, ss, i, j, p, q, k);
  }

  /** A leader whose vote is not below that of a node holds everything that node had committed by then. */
  lemma LeaderHasCommitted(cfg: Config, run: seq<Tracked>, i: nat, j: nat, p: NodeId, q: NodeId)
    requires IsTrackedRun(cfg, run) && i <= j < |run| && Unskipped(cfg, run[j])
    requires p in run[i].sys.nodes && q in run[j].sys.nodes && run[j].sys.nodes[q].leader.Some?
    requires Le(run[i].sys.nodes[p].vote.leader, run[j].sys.nodes[q].vote.leader)
    ensures Agree(run[i].sys.nodes[p].log, run[j].sys.nodes[q].log, NextIndex(run[i].sys.nodes[p].committed))
  {
    hide IsTrackedRun, IsRun, SysInv, TracksInv;
    var ss := AsProtocol(cfg, run, j);
    S.LeaderHasCommitted(cfg, ss, i, j, p, q);
  }

  /** An entry that leader `u` proposed and a quorum acknowledged under `u` is, with everything before it, in the
      log of every leader elected with a later vote. */
  lemma QuorumAckedIsKept(cfg: Config, run: seq<Tracked>, i: nat, j: nat, u: LeaderId, c: nat, v: LeaderId)
    requires IsTrackedRun(cfg, run) && i <= j < |run| && Unskipped(cfg, run[j])
    requires Chosen(run[i].sys.hist, cfg, u, c) && v in run[j].sys.hist.elect && Lt(u, v)
    ensures u in run[i].sys.hist.elect && v in run[j].sys.hist.camp
    ensures Agree(run[j].sys.hist.camp[v], run[i].sys.hist.elect[u].log, c + 1)
    ensures Agree(run[j].sys.hist.elect[v].log, run[i].sys.hist.elect[u].log, c + 1)
  {
    hide IsTrackedRun, IsRun, SysInv, TracksInv, Chosen;
    var ss := AsProtocol(cfg, run, j);
    S.QuorumAckedIsKept(cfg, ss, i, j, u, c, v);
  }

  /** What a leader commits has been acknowledged by a quorum. */
  lemma CommittedIsChosen(cfg: Config, run: seq<Tracked>, i: nat, p: NodeId) returns (x: LeaderId, c: nat)
    requires IsTrackedRun(cfg, run) && i < |run| && Unskipped(cfg, run[i])
    requires p in run[i].sys.nodes && run[i].sys.nodes[p].committed.Some?
    ensures Le(x, run[i].sys.nodes[p].vote.leader) && Chosen(run[i].sys.hist, cfg, x, c)
    ensures run[i].sys.nodes[p].committed.value.index <= c
    ensures Agree(run[i].sys.nodes[p].log, run[i].sys.hist.elect[x].log, run[i].sys.nodes[p].committed.value.index + 1)
  {
    hide IsTrackedRun, IsRun, SysInv, TracksInv, Chosen;
    var ss := AsProtocol(cfg, run, i);
    x, c := S.CommittedLater(cfg, ss, i, i, p);
  }

  /** Logs that hold the same leader id at an index are the same up to it. */
  lemma LogMatching(cfg: Config, run: seq<Tracked>, i: nat, j: nat, p: NodeId, q: NodeId, k: nat)
    requires IsTrackedRun(cfg, run) && i <= j < |run| && Unskipped(cfg, run[j])
    requires p in run[i].sys.nodes && q in run[j].sys.nodes
    requires k < |run[i].sys.nodes[p].log| && k < |run[j].sys.nodes[q].log|
    requires run[i].sys.nodes[p].log[k] == run[j].sys.nodes[q].log[k]
    ensures Agree(run[i].sys.nodes[p].log, run[j].sys.nodes[q].log, k + 1)
  {
    hide IsTrackedRun, IsRun, SysInv, TracksInv;
    var ss := AsProtocol(cfg, run, j);
    S.LogMatching(cfg, ss, i, j, p, q, k);
  }

  /** Leader ids never decrease along a log. */
  lemma LogsSorted(cfg: Config, run: seq<Tracked>, i: nat, p: NodeId)
    requires IsTrackedRun(cfg, run) && i < |run| && Unskipped(cfg, run[i]) && p in run[i].sys.nodes
    ensures Sorted(run[i].sys.nodes[p].log)
  {
    hide IsTrackedRun, IsRun, SysInv, TracksInv;
    var ss := AsProtocol(cfg, run, i);
    S.LogsSorted(cfg, ss, i, p);
  }

  /** In every run, with skips or without, at most one node ever leads with a given vote, and its log is only appended
      to. */
  lemma ElectionSafety(cfg: Config, run: seq<Tracked>, i: nat, j: nat, p: NodeId, q: NodeId)
    requires IsTrackedRun(cfg, run) && i <= j < |run|
    requires p in run[i].sys.nodes && q in run[j].sys.nodes
    requires run[i].sys.nodes[p].leader.Some? && run[j].sys.nodes[q].leader.Some?
    requires run[i].sys.nodes[p].leader.value.id == run[j].sys.nodes[q].leader.value.id
    ensures p == q && run[i].sys.nodes[p].log <= run[j].sys.nodes[q].log
  {
    hide IsTrackedRun, IsAnyRun;
    TrackedIsAnyRun(cfg, run);
    AnyElectionSafety(cfg, Systems(run), i, j, p, q);
  }

  /** The committed entries of a node never change. */
  lemma CommittedStays(cfg: Config, run: seq<Tracked>, i: nat, j: nat, q: NodeId)
    requires IsTrackedRun(cfg, run) && i <= j < |run| && Unskipped(cfg, run[j])
    requires q in run[i].sys.nodes && q in run[j].sys.nodes
    ensures NextIndex(run[i].sys.nodes[q].committed) <= NextIndex(run[j].sys.nodes[q].committed)
    ensures Agree(run[i].sys.nodes[q].log, run[j].sys.nodes[q].log, NextIndex(run[i].sys.nodes[q].committed))
  {
    hide IsTrackedRun, IsRun, SysInv, TracksInv;
    var ss := AsProtocol(cfg, run, j);
    S.CommittedStays(cfg, ss, i, j, q);
  }

  /** In every run, with skips or without, the vote and the commit of a node never go back. */
  lemma NeverBack(cfg: Config, run: seq<Tracked>, i: nat, j: nat, q: NodeId)
    requires IsTrackedRun(cfg, run) && i <= j < |run| && q in run[i].sys.nodes
    ensures q in run[j].sys.nodes && S.Forward(run[i].sys.nodes[q], run[j].sys.nodes[q])
  {
    hide IsTrackedRun, IsAnyRun, S.Forward;
    TrackedIsAnyRun(cfg, run);
    S.NeverBack(cfg, Systems(run), i, j, q);
  }
}
