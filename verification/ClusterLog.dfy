/** Writing, sending and taking log entries keep the cluster invariant. */
module ClusterLog {
  import opened Ids
  import opened Quorum
  import opened EngineSpec
  import opened Ballots
  import opened BallotSteps
  import opened Cluster
  import opened ClusterFrames
  import opened ClusterVotes

  // ----- Facts about logs ---------------------------------------------------------

  /** Log matching: two logs with the same entry at `k` agree up to `k`. */
  lemma LogsMatch(h: History, a: Log, b: Log, k: nat)
    requires LogOk(h, a) && LogOk(h, b) && k < |a| && k < |b| && a[k] == b[k]
    ensures Agree(a, b, k + 1)
  {
    assert FromLeader(h, a, k) && FromLeader(h, b, k);
  }

  /** A chosen entry, and all before it, are in the log of the same or any later leader. */
  lemma LeadersHoldChosen(h: History, cfg: Config, x: LeaderId, c: nat, u: LeaderId)
    requires cfg.Valid() && Inv(h, cfg.joint) && Chosen(h, cfg, x, c) && Le(x, u) && u in h.elect
    ensures Agree(h.elect[x].log, h.elect[u].log, c + 1)
  {
    if x != u {
      LeaderCompleteness(h, cfg.joint, x, c, u);
    }
  }

  /** The log of every leader at or above a node's vote holds what the node has committed. */
  lemma CommittedMatches(h: History, cfg: Config, n: Node, u: LeaderId)
    requires cfg.Valid() && Inv(h, cfg.joint) && CommittedInv(h, cfg, n) && Le(n.vote.leader, u) && u in h.elect
    ensures n.committed.Some? ==> Agree(n.log, h.elect[u].log, n.committed.value.index + 1)
  {
    hide Inv;
    if n.committed.Some? {
      var x, c :| Le(x, n.vote.leader) && CommittedUnder(h, cfg, n, x, c);
      LeadersHoldChosen(h, cfg, x, c, u);
    }
  }

  lemma LeaderLogOk(h: History, joint: seq<set<NodeId>>, u: LeaderId)
    requires Inv(h, joint) && u in h.elect
    ensures LogOk(h, h.elect[u].log)
  {
    assert WinOk(h, joint, u);
  }

  lemma NodeLogOk(h: History, joint: seq<set<NodeId>>, q: NodeId)
    requires Inv(h, joint) && q in h.votes
    ensures q in h.logs && LogOk(h, h.logs[q])
  {
    assert NodeOk(h, q);
  }

  // ----- Commit -------------------------------------------------------------------

  /** In one log, log id order and index order agree. */
  lemma LogIdOrder(log: Log, a: LogId, b: LogId)
    requires Sorted(log) && a.index < |log| && b.index < |log|
    requires log[a.index] == a.leader && log[b.index] == b.leader && LogIdLe(a, b)
    ensures a.index <= b.index
  {
    assert b.index < a.index ==> Le(log[b.index], log[a.index]);
  }

  /** The smaller of an accepted log id of leader `v` and a log id covered by a commit is covered
      by that commit, and the node's log agrees with the committing leader up to it. */
  lemma SmallerIsCovered(h: History, cfg: Config, n: Node, x: LeaderId, c: nat, v: LeaderId, a: LogId, l: LogId)
    requires CoveredBy(h, cfg, x, c, a) && v in h.elect && LogOk(h, h.elect[v].log)
    requires Agree(h.elect[x].log, h.elect[v].log, c + 1)
    requires InLog(h, v, l) && Agree(n.log, h.elect[v].log, l.index + 1)
    ensures CommittedUnder(h, cfg, n.(committed := Some(if LogIdLe(l, a) then l else a)), x, c)
  {
    hide Chosen;
    var log := h.elect[v].log;
    assert log[a.index] == a.leader;
    if LogIdLe(l, a) {
      LogIdOrder(log, l, a);
    } else {
      LogIdOrder(log, a, l);
    }
  }

  /** Taking an announced commit: what is marked committed locally is what this node's log shares
      with the leader the commit comes from. */
  lemma LocalCommitSound(h: History, cfg: Config, n: Node)
    requires cfg.Valid() && Inv(h, cfg.joint) && AcceptedInv(h, n) && AnnouncedInv(h, cfg, n)
    ensures CommittedInv(h, cfg, n.(committed := LocalCommitted(n)))
  {
    hide Inv, CoveredBy, CommittedUnder;
    var m := LocalCommitted(n);
    if m.Some? {
      var v, a, l := n.vote.leader, n.announced.value.logId.value, n.accepted.value.logId.value;
      var x, c :| Le(x, n.announced.value.leader) && CoveredBy(h, cfg, x, c, a);
      CoveredIsChosen(h, cfg, x, c, a);
      LeadersHoldChosen(h, cfg, x, c, v);
      LeaderLogOk(h, cfg.joint, v);
      SmallerIsCovered(h, cfg, n, x, c, v, a, l);
      assert CommittedUnder(h, cfg, n.(committed := m), x, c);
    }
  }

  lemma CoveredIsChosen(h: History, cfg: Config, x: LeaderId, c: nat, m: LogId)
    requires CoveredBy(h, cfg, x, c, m)
    ensures Chosen(h, cfg, x, c) && x in h.elect
  {
  }

  lemma CommitKept(h: History, cfg: Config, n: Node, n': Node)
    requires CommittedInv(h, cfg, n) && n'.committed == n.committed && n'.vote == n.vote && n'.log == n.log
    ensures CommittedInv(h, cfg, n')
  {
    if n.committed.Some? {
      var x, c :| Le(x, n.vote.leader) && CommittedUnder(h, cfg, n, x, c);
      assert CommittedUnder(h, cfg, n', x, c);
    }
  }

  lemma UpdateCommittedKeeps(h: History, net: set<Msg>, now: nat, cfg: Config, q: NodeId, n: Node, a: Announced)
    requires cfg.Valid() && Inv(h, cfg.joint) && NodeInv(h, net, now, cfg, q, n)
    requires Le(a.leader, n.vote.leader) && a.leader in h.elect && CommitOk(h, cfg, a.leader, a.logId)
    ensures NodeInv(h, net, now, cfg, q, UpdateCommitted(n, a))
  {
    hide Inv, CommittedInv, LocalCommitted, CommitOk;
    var n1 := Announce(n, a);
    var n' := UpdateCommitted(n, a);
    LocalCommitSound(h, cfg, n1);
    CommitKept(h, cfg, n, n1);
    CommitKept(h, cfg, if n'.committed == n.committed then n else n1.(committed := LocalCommitted(n1)), n');
  }

  lemma UpdateCommittedFrame(n: Node, a: Announced)
    ensures UpdateCommitted(n, a).log == n.log && UpdateCommitted(n, a).vote == n.vote
  {
  }

  // ----- Write and send -----------------------------------------------------------

  lemma LeaderAppendResult(n: Node, count: nat)
    requires n.leader.Some? && n.leader.value.lastLogId == LastId(n.log) && |n.log| > 0 && count > 0
    requires n.accepted.Some? && IoVote(n.accepted.value) == Vote(n.leader.value.id, true)
    requires Le(n.log[|n.log| - 1], n.leader.value.id)
    requires n.accepted.value.logId.Some? ==>
               n.accepted.value.logId.value.index < |n.log| && n.log[n.accepted.value.logId.value.index] == n.accepted.value.logId.value.leader
    requires Sorted(n.log)
    ensures var last := Some(LogId(n.leader.value.id, |n.log| + count - 1));
            LeaderAppend(n, count) == n.(log := n.log + Repeat(n.leader.value.id, count),
                                         accepted := Some(LogIo(n.leader.value.id, last)),
                                         leader := Some(n.leader.value.(lastLogId := last)))
  {
    var a := n.accepted.value.logId;
    if a.Some? {
      assert Le(n.log[a.value.index], n.log[|n.log| - 1]);
    }
  }

  lemma ProposeHistory(h: History, joint: seq<set<NodeId>>, q: NodeId, u: LeaderId, count: nat)
    requires Inv(h, joint) && q in h.votes && q in h.logs && u in h.elect && u.node == q
    requires h.votes[q] == u && h.logs[q] == h.elect[u].log
    ensures var h' := Propose(h, q, u, count);
            && Inv(h', joint) && Advances(h, h', q) && h'.votes == h.votes && h'.logs == h.logs[q := h'.elect[u].log]
            && u in h'.elect && h'.elect[u].log == h.logs[q] + Repeat(u, count)
  {
    ProposeKeeps(h, joint, q, u, count);
  }

  lemma WroteInv(h: History, h': History, net: set<Msg>, now: nat, cfg: Config, q: NodeId, n: Node, n': Node)
    requires Advances(h, h', q) && NodeInv(h, net, now, cfg, q, n) && n.leader.Some?
    requires n'.leader.Some? && n'.vote == n.vote && n'.utime == n.utime && n'.lease == n.lease
    requires n'.leader == Some(n.leader.value.(lastLogId := n'.leader.value.lastLogId))
    requires n'.leader.value.lastLogId == LastId(n'.log)
    requires n'.candidate == n.candidate && n'.announced == n.announced && n'.committed == n.committed
    requires n'.accepted == Some(LogIo(n.vote.leader, LastId(n'.log)))
    requires Agree(n.log, n'.log, |n.log|) && n.vote.leader in h'.elect && h'.elect[n.vote.leader].log == n'.log
    requires q in h'.votes && h'.votes[q] == n.vote.leader && q in h'.logs && h'.logs[q] == n'.log
    ensures NodeInv(h', net, now, cfg, q, n')
  {
    VoteRaised(h, h', cfg, q, n, n');
    KnownVoteAdvances(h, h', q, n.vote);
    ProgressAdvances(h, h', net, net, q, cfg, q, n);
  }

  lemma NothingProposed(h: History, q: NodeId, u: LeaderId)
    requires q in h.logs && u in h.elect && h.logs[q] == h.elect[u].log
    ensures Propose(h, q, u, 0) == h
  {
    assert h.logs[q] + Repeat(u, 0) == h.logs[q];
    assert Propose(h, q, u, 0).logs == h.logs && Propose(h, q, u, 0).elect == h.elect;
  }

  lemma WriteKeeps(cfg: Config, s: Sys, q: NodeId, count: nat)
    requires SysInv(cfg, s) && Enabled(cfg, s, Write(q, count))
    ensures Kept(cfg, s, WriteStep(cfg, s, q, count))
  {
    hide SysInv, Inv, Propose, IoLt;
    var n, s' := s.nodes[q], WriteStep(cfg, s, q, count);
    NodeOf(cfg, s, q);
    var u := n.vote.leader;
    if count == 0 {
      assert n.log + Repeat(u, 0) == n.log;
      assert s'.hist == s.hist by {
        NothingProposed(s.hist, q, u);
      }
      assert s'.nodes == s.nodes;
    } else {
      ProposeHistory(s.hist, cfg.joint, q, u, count);
      LogBelowVote(s.hist, cfg.joint, q);
      LeaderLogOk(s.hist, cfg.joint, u);
      LeaderAppendResult(n, count);
      WroteInv(s.hist, s'.hist, s.net, s.now, cfg, q, n, s'.nodes[q]);
      StepKept(cfg, s, s', q);
    }
  }

  lemma SendKeeps(cfg: Config, s: Sys, q: NodeId, start: nat, count: nat)
    requires SysInv(cfg, s) && Enabled(cfg, s, Send(q, start, count))
    ensures Kept(cfg, s, SendStep(cfg, s, q, start, count))
  {
    hide SysInv, Inv;
    var n, s' := s.nodes[q], SendStep(cfg, s, q, start, count);
    NodeOf(cfg, s, q);
    NetGrows(s.hist, s.net, s'.net, s.now, cfg, q, n);
    SameHistory(s.hist, q);
    assert CommitOk(s.hist, cfg, n.vote.leader, n.committed) by {
      if n.committed.Some? {
        var x, c :| Le(x, n.vote.leader) && CommittedUnder(s.hist, cfg, n, x, c);
      }
    }
    StepKept(cfg, s, s', q);
  }

  // ----- Append entries -----------------------------------------------------------

  /** `entries` are the entries of leader `u` after `prev`. */
  ghost predicate Batch(h: History, u: LeaderId, prev: Option<LogId>, entries: Log) {
    && u in h.elect
    && (prev.Some? ==> InLog(h, u, prev.value))
    && NextIndex(prev) + |entries| <= |h.elect[u].log|
    && forall k :: 0 <= k < |entries| ==> entries[k] == h.elect[u].log[NextIndex(prev) + k]
  }

  /** A log id of leader `u` that the node has marks a prefix shared with that leader. */
  lemma HasMatches(h: History, n: Node, u: LeaderId, id: LogId)
    requires LogOk(h, n.log) && u in h.elect && LogOk(h, h.elect[u].log) && InLog(h, u, id)
    requires n.committed.Some? ==> Agree(n.log, h.elect[u].log, n.committed.value.index + 1)
    requires HasLogId(n, id)
    ensures Agree(n.log, h.elect[u].log, id.index + 1)
  {
    if id.index >= NextIndex(n.committed) {
      LogsMatch(h, n.log, h.elect[u].log, id.index);
    }
  }

  lemma LacksMatches(h: History, n: Node, u: LeaderId, id: LogId)
    requires InLog(h, u, id) && !HasLogId(n, id)
    ensures forall m: nat :: Agree(n.log, h.elect[u].log, m) ==> m <= id.index
  {
  }

  /** Dropping everything from a conflicting previous log id on. */
  lemma ConflictFollows(h: History, n: Node, u: LeaderId, prev: LogId)
    requires InLog(h, u, prev) && !HasLogId(n, prev)
    ensures Follows(h, n.log, Truncate(n.log, prev.index), u)
  {
    LacksMatches(h, n, u, prev);
  }

  lemma {:induction false} EntriesMatch(h: History, n: Node, u: LeaderId, prev: Option<LogId>, entries: Log, since: nat)
    requires LogOk(h, n.log) && u in h.elect && LogOk(h, h.elect[u].log) && Batch(h, u, prev, entries)
    requires n.committed.Some? ==> Agree(n.log, h.elect[u].log, n.committed.value.index + 1)
    requires prev.Some? ==> HasLogId(n, prev.value)
    requires since <= |entries|
    requires forall k :: 0 <= k < since ==> HasLogId(n, LogId(entries[k], NextIndex(prev) + k))
    ensures Agree(n.log, h.elect[u].log, NextIndex(prev) + since)
  {
    if since > 0 {
      HasMatches(h, n, u, LogId(entries[since - 1], NextIndex(prev) + since - 1));
    } else if prev.Some? {
      HasMatches(h, n, u, prev.value);
    }
  }

  /** Cutting a log that shares `at` entries with `whole` there, and putting the next entries of
      `whole` in place. */
  lemma SpliceAgrees(log: Log, whole: Log, at: nat, rest: Log)
    requires Agree(log, whole, at) && at + |rest| <= |whole|
    requires forall k :: 0 <= k < |rest| ==> rest[k] == whole[at + k]
    ensures Agree(Truncate(log, at) + rest, whole, at + |rest|) && |Truncate(log, at) + rest| == at + |rest|
  {
    assert |Truncate(log, at)| == at;
  }

  lemma SpliceFollows(h: History, prev: Log, log: Log, u: LeaderId, at: nat)
    requires u in h.elect && Agree(prev, h.elect[u].log, at) && (forall m: nat :: Agree(prev, h.elect[u].log, m) ==> m <= at)
    requires at <= |log| && Agree(log, h.elect[u].log, |log|)
    ensures Follows(h, prev, log, u)
  {
  }

  /** Taking a batch of leader `u`: the new log holds the whole batch and everything the previous log
      shared with `u`. */
  lemma TakeFollows(h: History, n: Node, u: LeaderId, prev: Option<LogId>, entries: Log)
    requires LogOk(h, n.log) && u in h.elect && LogOk(h, h.elect[u].log) && Batch(h, u, prev, entries)
    requires n.committed.Some? ==> Agree(n.log, h.elect[u].log, n.committed.value.index + 1)
    requires prev.Some? ==> HasLogId(n, prev.value)
    ensures var log := TakeEntries(n, NextIndex(prev), entries);
            Follows(h, n.log, log, u) && Agree(log, h.elect[u].log, NextIndex(prev) + |entries|)
  {
    hide LogOk, HasLogId, Follows;
    var start, whole := NextIndex(prev), h.elect[u].log;
    var since := FirstConflicting(n, start, entries);
    EntriesMatch(h, n, u, prev, entries, since);
    if since < |entries| {
      LacksMatches(h, n, u, LogId(entries[since], start + since));
      SpliceAgrees(n.log, whole, start + since, entries[since..]);
      SpliceFollows(h, n.log, TakeEntries(n, start, entries), u, start + since);
    } else {
      SameFollows(h, n.log, u);
    }
  }

  lemma SameFollows(h: History, log: Log, u: LeaderId)
    requires u in h.elect
    ensures Follows(h, log, log, u)
  {
  }

  lemma EntriesLastIs(h: History, u: LeaderId, prev: Option<LogId>, entries: Log)
    requires u in h.elect && LogOk(h, h.elect[u].log) && Batch(h, u, prev, entries)
    ensures NextIndex(EntriesLast(prev, entries)) == NextIndex(prev) + |entries|
    ensures EntriesLast(prev, entries).Some? ==> InLog(h, u, EntriesLast(prev, entries).value)
  {
    if |entries| > 0 && prev.Some? {
      var log := h.elect[u].log;
      assert Le(log[prev.value.index], log[prev.value.index + |entries|]);
    }
  }

  // ----- The append step ----------------------------------------------------------

  lemma FollowedHistory(h: History, joint: seq<set<NodeId>>, q: NodeId, u: LeaderId, log: Log, matching: Option<LogId>)
    requires Inv(h, joint) && q in h.votes && q in h.logs && Le(h.votes[q], u) && u in h.elect && u.node != q
    requires Follows(h, h.logs[q], log, u)
    requires matching.Some? ==> Agree(log, h.elect[u].log, matching.value.index + 1)
    ensures var h' := Followed(h, q, u, log, matching);
            && Inv(h', joint) && Advances(h, h', q) && h'.votes == h.votes[q := u] && h'.logs == h.logs[q := log]
            && h'.elect == h.elect
            && (matching.Some? ==> Acked(h', q, u, matching.value.index))
  {
    hide Inv;
    RaiseKeeps(h, joint, q, u);
    var h1 := Raise(h, q, u);
    OverwriteKeeps(h1, joint, q, log, u);
    if matching.Some? {
      var h2 := Overwrite(h1, q, log);
      AddAckKeeps(h2, joint, q, u, matching.value.index);
      assert Ack(q, u, matching.value.index) in AddAck(h2, q, u, matching.value.index).acks;
    }
  }

  /** What the node has committed is in the log it takes from a later leader. */
  lemma FollowedCommitted(h: History, h': History, cfg: Config, n: Node, n': Node, u: LeaderId)
    requires cfg.Valid() && Inv(h', cfg.joint) && CommittedInv(h', cfg, n) && h'.elect == h.elect
    requires u in h.elect && u.term > 0 && VoteLe(n.vote, Vote(u, true)) && n'.vote == Vote(u, true)
    requires n'.committed == n.committed && Follows(h, n.log, n'.log, u)
    ensures CommittedInv(h', cfg, n')
  {
    hide Inv, Chosen;
    CommittedMatches(h', cfg, n, u);
    if n.committed.Some? {
      var x, c :| Le(x, n.vote.leader) && CommittedUnder(h', cfg, n, x, c);
      LeadersHoldChosen(h', cfg, x, c, u);
      assert Agree(n'.log, h'.elect[u].log, n.committed.value.index + 1);
      assert CommittedUnder(h', cfg, n', x, c);
    }
  }

  /** The node after the log was replaced, and possibly more of it accepted. */
  lemma FollowedInv(h: History, h': History, net: set<Msg>, net': set<Msg>, now: nat, cfg: Config, q: NodeId,
                    n: Node, n': Node, u: LeaderId)
    requires cfg.Valid() && Inv(h', cfg.joint) && Advances(h, h', q) && NodeInv(h, net, now, cfg, q, n)
    requires u in h.elect && u.term > 0 && VoteLe(n.vote, Vote(u, true)) && u.node != q && h'.elect == h.elect
    requires var f := Following(cfg, n, Vote(u, true), now);
             && n' == f.(log := n'.log, accepted := n'.accepted)
             && (n'.accepted == f.accepted ||
                 (n'.accepted.Some? && n'.accepted.value.LogIo? && n'.accepted.value.leader == u
                  && var last := n'.accepted.value.logId;
                     last.Some? ==> InLog(h, u, last.value) && Agree(n'.log, h.elect[u].log, last.value.index + 1)))
    requires Follows(h, n.log, n'.log, u)
    requires q in h'.votes && h'.votes[q] == u && q in h'.logs && h'.logs[q] == n'.log
    ensures NodeInv(h', net', now, cfg, q, n')
  {
    hide Inv;
    AnnouncedAdvances(h, h', q, cfg, n);
    CommittedAdvances(h, h', q, cfg, n);
    FollowedCommitted(h, h', cfg, n, n', u);
    KnownVoteAdvances(h, h', q, n.vote);
    ElectedStood(h', cfg.joint, u);
  }

  lemma ElectedStood(h: History, joint: seq<set<NodeId>>, u: LeaderId)
    requires Inv(h, joint) && u in h.elect && u.term > 0
    ensures KnownVote(h, Vote(u, true))
  {
    assert WinOk(h, joint, u);
  }

  lemma HigherVoteIs(n: Node, u: LeaderId)
    requires !VoteLe(n.vote, Vote(u, true))
    ensures Lt(u, n.vote.leader)
  {
  }

  lemma RefusedAppendKeeps(cfg: Config, s: Sys, q: NodeId, m: Msg)
    requires SysInv(cfg, s) && Enabled(cfg, s, RecvAppend(q, m)) && !VoteLe(s.nodes[q].vote, Vote(m.leader, true))
    ensures Kept(cfg, s, AppendStep(cfg, s, q, m))
  {
    hide SysInv, Inv, UpdateCommitted;
    var n, s' := s.nodes[q], AppendStep(cfg, s, q, m);
    NodeOf(cfg, s, q);
    MsgOf(cfg, s, m);
    HigherVoteIs(n, m.leader);
    SameHistory(s.hist, q);
    NetGrows(s.hist, s.net, s'.net, s.now, cfg, q, n);
    UpdateCommittedKeeps(s.hist, s'.net, s.now, cfg, q, n, Announced(m.leader, m.commit));
    StepKept(cfg, s, s', q);
  }

  /** The step of a follower that took the vote of `m.leader` and then its log as `log`. */
  lemma TakenAppendKeeps(cfg: Config, s: Sys, s': Sys, q: NodeId, m: Msg, n2: Node, outcome: AppendReply,
                         matching: Option<LogId>)
    requires SysInv(cfg, s) && Enabled(cfg, s, RecvAppend(q, m)) && VoteLe(s.nodes[q].vote, Vote(m.leader, true))
    requires m.leader in s.hist.elect && Follows(s.hist, s.nodes[q].log, n2.log, m.leader)
    requires matching.Some? ==> outcome.Success? && InLog(s.hist, m.leader, matching.value)
    requires matching.Some? ==> Agree(n2.log, s.hist.elect[m.leader].log, matching.value.index + 1)
    requires var f := Following(cfg, s.nodes[q], Vote(m.leader, true), s.now);
             && n2 == f.(log := n2.log, accepted := n2.accepted)
             && (n2.accepted == f.accepted || n2.accepted == Some(LogIo(m.leader, matching)))
    requires !outcome.HigherVote?
    requires s' == s.(nodes := s.nodes[q := UpdateCommitted(n2, Announced(m.leader, m.commit))],
                      net := s.net + {AppendResp(q, m.leader, outcome, matching, m.sentAt)},
                      hist := Followed(s.hist, q, m.leader, n2.log, matching))
    ensures Kept(cfg, s, s')
  {
    hide SysInv, Inv, UpdateCommitted, Followed, Follows;
    var n, u := s.nodes[q], m.leader;
    NodeOf(cfg, s, q);
    MsgOf(cfg, s, m);
    FollowedHistory(s.hist, cfg.joint, q, u, n2.log, matching);
    FollowedInv(s.hist, s'.hist, s.net, s'.net, s.now, cfg, q, n, n2, u);
    CommitOkAdvances(s.hist, s'.hist, q, cfg, u, m.commit);
    UpdateCommittedKeeps(s'.hist, s'.net, s.now, cfg, q, n2, Announced(u, m.commit));
    StepKept(cfg, s, s', q);
  }

  lemma ConflictKeeps(cfg: Config, s: Sys, q: NodeId, m: Msg, f: Node)
    requires SysInv(cfg, s) && Enabled(cfg, s, RecvAppend(q, m)) && VoteLe(s.nodes[q].vote, Vote(m.leader, true))
    requires f == Following(cfg, s.nodes[q], Vote(m.leader, true), s.now)
    requires UpdateVote(cfg, q, s.nodes[q], Vote(m.leader, true), s.now) == Some(f)
    requires m.prev.Some? && !HasLogId(f, m.prev.value)
    ensures Kept(cfg, s, AppendStep(cfg, s, q, m))
  {
    hide SysInv, Inv, UpdateCommitted, Followed, UpdateVote, HasLogId, Follows;
    MsgOf(cfg, s, m);
    var n2 := f.(log := Truncate(f.log, m.prev.value.index));
    ConflictFollows(s.hist, f, m.leader, m.prev.value);
    UpdateCommittedFrame(n2, Announced(m.leader, m.commit));
    TakenAppendKeeps(cfg, s, AppendStep(cfg, s, q, m), q, m, n2, Conflict, None);
  }

  /** What a node that takes the entries of a request has then. */
  lemma BatchTaken(cfg: Config, s: Sys, q: NodeId, m: Msg, n1: Node)
    requires SysInv(cfg, s) && Enabled(cfg, s, RecvAppend(q, m)) && VoteLe(s.nodes[q].vote, Vote(m.leader, true))
    requires n1.log == s.nodes[q].log && n1.committed == s.nodes[q].committed
    requires m.prev.Some? ==> HasLogId(n1, m.prev.value)
    ensures var u, last, log := m.leader, EntriesLast(m.prev, m.entries), TakeEntries(n1, NextIndex(m.prev), m.entries);
            && u in s.hist.elect && Follows(s.hist, s.nodes[q].log, log, u)
            && (last.Some? ==> InLog(s.hist, u, last.value) && Agree(log, s.hist.elect[u].log, last.value.index + 1))
  {
    hide SysInv, Inv, Follows, TakeEntries;
    var u := m.leader;
    NodeOf(cfg, s, q);
    MsgOf(cfg, s, m);
    NodeLogOk(s.hist, cfg.joint, q);
    LeaderLogOk(s.hist, cfg.joint, u);
    CommittedMatches(s.hist, cfg, s.nodes[q], u);
    TakeFollows(s.hist, n1, u, m.prev, m.entries);
    EntriesLastIs(s.hist, u, m.prev, m.entries);
  }

  lemma SuccessKeeps(cfg: Config, s: Sys, q: NodeId, m: Msg, f: Node)
    requires SysInv(cfg, s) && Enabled(cfg, s, RecvAppend(q, m)) && VoteLe(s.nodes[q].vote, Vote(m.leader, true))
    requires f == Following(cfg, s.nodes[q], Vote(m.leader, true), s.now)
    requires UpdateVote(cfg, q, s.nodes[q], Vote(m.leader, true), s.now) == Some(f)
    requires m.prev.Some? ==> HasLogId(f, m.prev.value)
    ensures Kept(cfg, s, AppendStep(cfg, s, q, m))
  {
    hide SysInv, Inv, UpdateCommitted, Followed, UpdateVote, Follows, TakeEntries, EntriesLast, InLog;
    var u, last := m.leader, EntriesLast(m.prev, m.entries);
    var n1 := AcceptLogIo(f, LogIo(u, last));
    var n2 := n1.(log := TakeEntries(n1, NextIndex(m.prev), m.entries));
    BatchTaken(cfg, s, q, m, n1);
    UpdateCommittedFrame(n2, Announced(u, m.commit));
    TakenAppendKeeps(cfg, s, AppendStep(cfg, s, q, m), q, m, n2, Success, last);
  }

  lemma AppendKeeps(cfg: Config, s: Sys, q: NodeId, m: Msg)
    requires SysInv(cfg, s) && Enabled(cfg, s, RecvAppend(q, m))
    ensures Kept(cfg, s, AppendStep(cfg, s, q, m))
  {
    hide SysInv, Inv, AppendStep;
    var n, vote := s.nodes[q], Vote(m.leader, true);
    NodeOf(cfg, s, q);
    if !VoteLe(n.vote, vote) {
      RefusedAppendKeeps(cfg, s, q, m);
    } else {
      FollowsOther(cfg, q, n, vote, s.now);
      var f := Following(cfg, n, vote, s.now);
      if m.prev.Some? && !HasLogId(f, m.prev.value) {
        ConflictKeeps(cfg, s, q, m, f);
      } else {
        SuccessKeeps(cfg, s, q, m, f);
      }
    }
  }
}
