/** The safety theorems of the cluster, over all states of all runs. */
module ClusterSafety {
  import opened Ids
  import opened Quorum
  import opened EngineSpec
  import opened Ballots
  import opened BallotSteps
  import opened Cluster
  import opened ClusterFrames
  import opened ClusterVotes
  import opened ClusterLog
  import opened ClusterProgress

  // ----- From one state of a run to a later one -----------------------------------

  lemma LaterChains(a: History, b: History, c: History)
    requires Later(a, b) && Later(b, c)
    ensures Later(a, c)
  {
    forall u | u in a.elect ensures ElectGrows(a, c, u) {
      assert ElectGrows(a, b, u) && ElectGrows(b, c, u);
    }
  }

  lemma {:induction false} RunLater(cfg: Config, run: seq<Sys>, i: nat, j: nat)
    requires IsRun(cfg, run) && i <= j < |run|
    ensures Later(run[i].hist, run[j].hist) && SysInv(cfg, run[i]) && SysInv(cfg, run[j])
    decreases j
  {
    hide SysInv, Possible, CommitRight, Apply, Init, Later;
    RunInv(cfg, run, i);
    if i == j {
      assert Later(run[i].hist, run[i].hist) by { SameHistory(run[i].hist, 0); }
    } else {
      RunLater(cfg, run, i, j - 1);
      assert Next(cfg, run[j - 1], run[j - 1 + 1]);
      var st :| Enabled(cfg, run[j - 1], st) && run[j] == Apply(cfg, run[j - 1], st);
      NextKeeps(cfg, run[j - 1], st);
      LaterChains(run[i].hist, run[j - 1].hist, run[j].hist);
    }
  }

  /** What a node has committed, seen from a later history. */
  lemma CommittedLater(cfg: Config, run: seq<Sys>, i: nat, j: nat, p: NodeId) returns (x: LeaderId, c: nat)
    requires IsRun(cfg, run) && i <= j < |run| && p in run[i].nodes && run[i].nodes[p].committed.Some?
    ensures Le(x, run[i].nodes[p].vote.leader) && CommittedUnder(run[j].hist, cfg, run[i].nodes[p], x, c)
  {
    hide SysInv, Inv;
    RunLater(cfg, run, i, j);
    NodeOf(cfg, run[i], p);
    var h, h', n := run[i].hist, run[j].hist, run[i].nodes[p];
    x, c :| Le(x, n.vote.leader) && CommittedUnder(h, cfg, n, x, c);
    CoveredStays(h, h', cfg, x, c, n.committed.value);
    assert ElectGrows(h, h', x);
  }

  // ----- State machine safety -----------------------------------------------------

  /** No two nodes ever commit different entries at one index. */
  lemma StateMachineSafety(cfg: Config, run: seq<Sys>, i: nat, j: nat, p: NodeId, q: NodeId, k: nat)
    requires IsRun(cfg, run) && i < |run| && j < |run| && p in run[i].nodes && q in run[j].nodes
    requires k < NextIndex(run[i].nodes[p].committed) && k < NextIndex(run[j].nodes[q].committed)
    ensures k < |run[i].nodes[p].log| && k < |run[j].nodes[q].log|
    ensures run[i].nodes[p].log[k] == run[j].nodes[q].log[k]
  {
    hide SysInv, Inv, Chosen;
    var m := if i <= j then j else i;
    var x, c := CommittedLater(cfg, run, i, m, p);
    var y, d := CommittedLater(cfg, run, j, m, q);
    RunInv(cfg, run, m);
    InvOf(cfg, run[m]);
    if Le(x, y) {
      LeadersHoldChosen(run[m].hist, cfg, x, c, y);
    } else {
      LeadersHoldChosen(run[m].hist, cfg, y, d, x);
    }
  }

  lemma InvOf(cfg: Config, s: Sys)
    requires SysInv(cfg, s)
    ensures cfg.Valid() && Inv(s.hist, cfg.joint)
  {
  }

  // ----- Leader completeness ------------------------------------------------------

  /** A leader whose vote is not below that of a node holds everything that node had committed
      by then. */
  lemma LeaderHasCommitted(cfg: Config, run: seq<Sys>, i: nat, j: nat, p: NodeId, q: NodeId)
    requires IsRun(cfg, run) && i <= j < |run| && p in run[i].nodes && q in run[j].nodes
    requires run[j].nodes[q].leader.Some? && Le(run[i].nodes[p].vote.leader, run[j].nodes[q].vote.leader)
    ensures Agree(run[i].nodes[p].log, run[j].nodes[q].log, NextIndex(run[i].nodes[p].committed))
  {
    hide SysInv, Inv, Chosen;
    if run[i].nodes[p].committed.Some? {
      var x, c := CommittedLater(cfg, run, i, j, p);
      RunInv(cfg, run, j);
      NodeOf(cfg, run[j], q);
      LeadersHoldChosen(run[j].hist, cfg, x, c, run[j].nodes[q].vote.leader);
    }
  }

  /** An entry that leader `u` proposed and a quorum acknowledged under `u` is, with everything before
      it, in the log of every leader elected with a later vote, from its election on. */
  lemma QuorumAckedIsKept(cfg: Config, run: seq<Sys>, i: nat, j: nat, u: LeaderId, c: nat, v: LeaderId)
    requires IsRun(cfg, run) && i <= j < |run| && Chosen(run[i].hist, cfg, u, c)
    requires v in run[j].hist.elect && Lt(u, v)
    ensures u in run[i].hist.elect && v in run[j].hist.camp
    ensures Agree(run[j].hist.camp[v], run[i].hist.elect[u].log, c + 1)
    ensures Agree(run[j].hist.elect[v].log, run[i].hist.elect[u].log, c + 1)
  {
    hide SysInv, Inv, QuorumAcked;
    var h, h' := run[i].hist, run[j].hist;
    RunLater(cfg, run, i, j);
    InvOf(cfg, run[j]);
    ChosenStays(h, h', cfg, u, c);
    LeaderCompleteness(h', cfg.joint, u, c, v);
    assert ElectGrows(h, h', u);
  }

  // ----- Log matching -------------------------------------------------------------

  /** Logs that hold the same leader id at an index are the same up to it. */
  lemma LogMatching(cfg: Config, run: seq<Sys>, i: nat, j: nat, p: NodeId, q: NodeId, k: nat)
    requires IsRun(cfg, run) && i <= j < |run| && p in run[i].nodes && q in run[j].nodes
    requires k < |run[i].nodes[p].log| && k < |run[j].nodes[q].log|
    requires run[i].nodes[p].log[k] == run[j].nodes[q].log[k]
    ensures Agree(run[i].nodes[p].log, run[j].nodes[q].log, k + 1)
  {
    hide SysInv, Inv, LogOk;
    RunLater(cfg, run, i, j);
    NodeOf(cfg, run[i], p);
    NodeOf(cfg, run[j], q);
    NodeLogOk(run[i].hist, cfg.joint, p);
    NodeLogOk(run[j].hist, cfg.joint, q);
    LogOkGrows(run[i].hist, run[j].hist, run[i].nodes[p].log);
    LogsMatch(run[j].hist, run[i].nodes[p].log, run[j].nodes[q].log, k);
  }

  /** Leader ids never decrease along the log of any node. */
  lemma LogsSorted(cfg: Config, run: seq<Sys>, i: nat, p: NodeId)
    requires IsRun(cfg, run) && i < |run| && p in run[i].nodes
    ensures Sorted(run[i].nodes[p].log)
  {
    hide SysInv, Inv;
    RunInv(cfg, run, i);
    NodeOf(cfg, run[i], p);
    NodeLogOk(run[i].hist, cfg.joint, p);
  }

  // ----- Votes and commits never go back ------------------------------------------

  ghost predicate IoForward(a: Option<IoId>, b: Option<IoId>) {
    a.Some? ==> b.Some? && !IoLt(b.value, a.value)
  }

  ghost predicate Forward(n: Node, n': Node) {
    VoteLe(n.vote, n'.vote) && OptLe(n.committed, n'.committed) && IoForward(n.accepted, n'.accepted)
  }

  lemma IoForwardChains(a: Option<IoId>, b: Option<IoId>, c: Option<IoId>)
    requires IoForward(a, b) && IoForward(b, c)
    ensures IoForward(a, c)
  {
  }

  lemma AcceptForward(n: Node, io: IoId)
    ensures IoForward(n.accepted, AcceptLogIo(n, io).accepted) && IoForward(n.accepted, n.accepted)
  {
  }

  lemma LeaderAppendForward(n: Node, count: nat)
    requires n.leader.Some?
    ensures Forward(n, LeaderAppend(n, count)) && LeaderAppend(n, count).vote == n.vote
    ensures LeaderAppend(n, count).committed == n.committed
  {
    hide IoLt;
    var l := n.leader.value;
    AcceptForward(n, VoteIo(l.id));
    if count > 0 {
      AcceptForward(n, LogIo(l.id, Some(LogId(l.id, NextIndex(l.lastLogId) + count - 1))));
    }
  }

  lemma BecomeLeaderForward(cfg: Config, n: Node)
    ensures BecomeLeader(cfg, n).vote == n.vote && BecomeLeader(cfg, n).committed == n.committed
    ensures IoForward(n.accepted, BecomeLeader(cfg, n).accepted)
  {
    hide LastRunStart, IoLt, NewLeading, IoForward, LeaderAppend;
    var last := LastId(n.log);
    var first := if |n.log| == 0 then None else Some(LogId(n.log[LastRunStart(n.log)], LastRunStart(n.log)));
    var l := NewLeading(cfg, n.vote.leader, first, last);
    var n1 := AcceptLogIo(n.(leader := Some(l)), LogIo(l.id, last));
    AcceptForward(n, LogIo(l.id, last));
    if n1.leader.Some? {
      LeaderAppendForward(n1, 1);
      IoForwardChains(n.accepted, n1.accepted, LeaderAppend(n1, 1).accepted);
    }
  }

  lemma UpdateVoteForward(cfg: Config, me: NodeId, n: Node, vote: Vote, now: nat)
    ensures var r := UpdateVote(cfg, me, n, vote, now);
            r.Some? ==> Forward(n, r.value) && r.value.committed == n.committed
  {
    hide BecomeLeader, IoLt, IoForward;
    var lease := if vote.committed then cfg.leaderLease else 0;
    var n1 := n.(vote := vote, utime := Some(now), lease := lease);
    BecomeLeaderForward(cfg, n1);
    BecomeLeaderForward(cfg, AcceptLogIo(n1, NewIo(vote)));
    AcceptForward(n1, NewIo(vote));
    IoForwardChains(n.accepted, AcceptLogIo(n1, NewIo(vote)).accepted,
                    BecomeLeader(cfg, AcceptLogIo(n1, NewIo(vote))).accepted);
  }

  lemma EstablishForward(cfg: Config, me: NodeId, n: Node, now: nat)
    requires n.candidate.Some?
    ensures Forward(n, Establish(cfg, me, n, now))
  {
    hide UpdateVote, IoLt, IoForward, NewLeading, LeaderAppend;
    var c := n.candidate.value;
    var l := NewLeading(cfg, c.vote.leader, c.lastLogId, c.lastLogId);
    var n1 := n.(candidate := None, leader := Some(l));
    var r := UpdateVote(cfg, me, n1, Vote(l.id, true), now);
    UpdateVoteForward(cfg, me, n1, Vote(l.id, true), now);
    AcceptForward(n, VoteIo(l.id));
    var n2 := if r.Some? then r.value else n1;
    var n3 := AcceptLogIo(n2, LogIo(l.id, l.lastLogId));
    AcceptForward(n2, LogIo(l.id, l.lastLogId));
    IoForwardChains(n.accepted, n2.accepted, n3.accepted);
    if n3.leader.Some? {
      LeaderAppendForward(n3, 1);
      IoForwardChains(n.accepted, n3.accepted, LeaderAppend(n3, 1).accepted);
    }
  }

  lemma AppendForward(cfg: Config, me: NodeId, n: Node, u: LeaderId, prev: Option<LogId>, entries: Log,
                      commit: Option<LogId>, now: nat)
    ensures Forward(n, HandleAppend(cfg, me, n, u, prev, entries, commit, now).0)
  {
    hide UpdateVote, IoLt, IoForward, TakeEntries, EntriesLast;
    UpdateVoteForward(cfg, me, n, Vote(u, true), now);
    AcceptForward(n, VoteIo(u));
    var r := UpdateVote(cfg, me, n, Vote(u, true), now);
    if r.Some? {
      var io := LogIo(r.value.vote.leader, EntriesLast(prev, entries));
      AcceptForward(r.value, io);
      IoForwardChains(n.accepted, r.value.accepted, AcceptLogIo(r.value, io).accepted);
    }
  }

  lemma RespForward(cfg: Config, me: NodeId, n: Node, m: Msg, now: nat)
    requires m.VoteResp?
    ensures Forward(n, HandleVoteResp(cfg, me, n, m.from, m.candidate, m.reply, now))
  {
    hide UpdateVote, Establish;
    if n.candidate.Some? {
      var c := n.candidate.value;
      EstablishForward(cfg, me, n.(candidate := Some(c.(granters := c.granters + {m.from}))), now);
      UpdateVoteForward(cfg, me, n, Vote(m.reply.vote.leader, false), now);
      UpdateVoteForward(cfg, me, n.(seenGreater := true), Vote(m.reply.vote.leader, false), now);
    }
  }

  lemma TickForward(cfg: Config, me: NodeId, n: Node, now: nat)
    ensures Forward(n, TickElection(cfg, me, n, now))
  {
    hide UpdateVote, TickElects;
    var vote := Vote(LeaderId(n.vote.leader.term + 1, me), false);
    UpdateVoteForward(cfg, me, n.(seenGreater := false, candidate := Some(Candidate(vote, LastId(n.log), {}))), vote, now);
  }

  lemma ProgressForward(n: Node, u: LeaderId, t: NodeId, m: Option<LogId>, granted: Option<LogId>)
    ensures Forward(n, HandleProgress(n, u, t, m, granted))
  {
  }

  lemma HeartbeatForward(cfg: Config, me: NodeId, n: Node, m: Msg, now: nat)
    requires m.AppendResp?
    ensures Forward(n, HandleHeartbeat(AfterReply(cfg, me, n, m, now), m.leader, m.from, m.sentAt))
  {
    hide UpdateVote;
    if m.outcome.HigherVote? {
      UpdateVoteForward(cfg, me, n, m.outcome.vote, now);
    }
  }

  lemma StepForward(cfg: Config, s: Sys, st: Step, q: NodeId)
    requires Possible(cfg, s, st) && q in s.nodes
    ensures q in Apply(cfg, s, st).nodes && Forward(s.nodes[q], Apply(cfg, s, st).nodes[q])
  {
    hide HandleVoteResp, HandleAppend, TickElection, HandleProgress, HandleHeartbeat, UpdateVote;
    match st {
      case Tick(p) => TickForward(cfg, p, s.nodes[p], s.now);
      case RecvVoteReq(p, m) => UpdateVoteForward(cfg, p, s.nodes[p], Vote(m.vote, false), s.now);
      case RecvVoteResp(p, m) => RespForward(cfg, p, s.nodes[p], m, s.now);
      case Write(p, count) =>
      case Send(p, start, count) =>
      case RecvAppend(p, m) => AppendForward(cfg, p, s.nodes[p], m.leader, m.prev, m.entries, m.commit, s.now);
      case RecvProgress(p, m, granted) => ProgressForward(s.nodes[p], m.leader, m.from, m.matching, granted);
      case RecvHeartbeat(p, m) => HeartbeatForward(cfg, p, s.nodes[p], m, s.now);
      case Flush(p, upto, granted) => ProgressForward(s.nodes[p], s.nodes[p].leader.value.id, p, Some(upto), granted);
      case Advance(d) =>
    }
  }

  /** Whatever is committed, the vote and the commit of a node never go back. */
  lemma {:induction false} NeverBack(cfg: Config, run: seq<Sys>, i: nat, j: nat, q: NodeId)
    requires IsAnyRun(cfg, run) && i <= j < |run| && q in run[i].nodes
    ensures q in run[j].nodes && Forward(run[i].nodes[q], run[j].nodes[q])
    decreases j
  {
    hide Possible, Apply, Init;
    if i < j {
      NeverBack(cfg, run, i, j - 1, q);
      assert Goes(cfg, run[j - 1], run[j - 1 + 1]);
      var st :| Possible(cfg, run[j - 1], st) && run[j] == Apply(cfg, run[j - 1], st);
      StepForward(cfg, run[j - 1], st, q);
    }
  }

  /** The committed entries of a node never change. */
  lemma CommittedStays(cfg: Config, run: seq<Sys>, i: nat, j: nat, q: NodeId)
    requires IsRun(cfg, run) && i <= j < |run| && q in run[i].nodes && q in run[j].nodes
    ensures NextIndex(run[i].nodes[q].committed) <= NextIndex(run[j].nodes[q].committed)
    ensures Agree(run[i].nodes[q].log, run[j].nodes[q].log, NextIndex(run[i].nodes[q].committed))
  {
    hide SysInv, Inv, Chosen;
    if run[i].nodes[q].committed.Some? {
      var h := run[j].hist;
      RunIsAnyRun(cfg, run);
      NeverBack(cfg, run, i, j, q);
      var x, c := CommittedLater(cfg, run, i, j, q);
      var y, d := CommittedLater(cfg, run, j, j, q);
      RunInv(cfg, run, j);
      InvOf(cfg, run[j]);
      var a, b := run[i].nodes[q].committed.value, run[j].nodes[q].committed.value;
      if Le(x, y) {
        LeadersHoldChosen(h, cfg, x, c, y);
        LeaderLogOk(h, cfg.joint, y);
        LogIdOrder(h.elect[y].log, a, b);
      } else {
        LeadersHoldChosen(h, cfg, y, d, x);
        LeaderLogOk(h, cfg.joint, x);
        LogIdOrder(h.elect[x].log, a, b);
      }
    }
  }
}
