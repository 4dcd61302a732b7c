/** What followers commit: everything their leader had committed when it sent what they took. */
module TrackedCommits {
  import opened Ids
  import opened Quorum
  import opened EngineSpec
  import opened EngineLaws
  import opened Ballots
  import opened Cluster
  import opened ClusterVotes
  import opened ClusterLog
  import opened Elections
  import opened TrackedCluster
  import opened TrackedSafety
  import opened EngineInCluster
  import S = ClusterSafety

  // ----- Announcements are not ahead of the vote ----------------------------------

  ghost predicate NotAhead(n: Node) {
    n.announced.Some? ==> Le(n.announced.value.leader, n.vote.leader)
  }

  /** A step leaves what was announced, or what is announced then is not ahead of the vote. */
  lemma StepAnnounces(cfg: Config, s: Sys, st: Step)
    requires ElectionInv(cfg, s) && Possible(cfg, s, st) && !st.Advance?
    ensures var n, n' := s.nodes[st.q], Apply(cfg, s, st).nodes[st.q];
            n'.announced == n.announced || NotAhead(n')
  {
    hide ElectionInv, BallotsOk, UpdateVote, AppendEntries, UpdateCommitted, IoLt, NewLeading;
    var q, n := st.q, s.nodes[st.q];
    VoterOf(cfg, s, q);
    match st {
      case RecvVoteReq(_, m) => VoteAnnounces(cfg, q, n, Vote(m.vote, false), s.now);
      case RecvAppend(_, m) => AppendAnnounces(cfg, q, n, m.leader, m.prev, m.entries, m.commit, s.now);
      case RecvVoteResp(_, m) => RespAnnounces(cfg, q, n, m.from, m.candidate, m.reply, s.now);
      case RecvHeartbeat(_, m) =>
        if m.outcome.HigherVote? {
          VoteAnnounces(cfg, q, n, m.outcome.vote, s.now);
        }
      case Tick(_) => ElectAnnounces(cfg, q, n, s.now);
      case _ =>
    }
  }

  lemma VoteAnnounces(cfg: Config, me: NodeId, n: Node, v: Vote, now: nat)
    ensures var r := UpdateVote(cfg, me, n, v, now); r.Some? ==> r.value.announced == n.announced
  {
    hide IoLt, NewLeading, LastRunStart, LastId, OptLe;
  }

  lemma ElectAnnounces(cfg: Config, me: NodeId, n: Node, now: nat)
    ensures TickElection(cfg, me, n, now).announced == n.announced
  {
  }

  lemma RespAnnounces(cfg: Config, me: NodeId, n: Node, target: NodeId, candidateVote: LeaderId, reply: VoteReply, now: nat)
    ensures HandleVoteResp(cfg, me, n, target, candidateVote, reply, now).announced == n.announced
  {
    hide UpdateVote, NewLeading, LeaderAppend;
    VoteAnnounces(cfg, me, n, Vote(reply.vote.leader, false), now);
    VoteAnnounces(cfg, me, n.(seenGreater := true), Vote(reply.vote.leader, false), now);
    if n.candidate.Some? {
      EstablishAnnounces(cfg, me, n.(candidate := Some(n.candidate.value.(granters := n.candidate.value.granters + {target}))), now);
    }
  }

  lemma EstablishAnnounces(cfg: Config, me: NodeId, n: Node, now: nat)
    requires n.candidate.Some?
    ensures Establish(cfg, me, n, now).announced == n.announced
  {
    hide UpdateVote, NewLeading;
    var c := n.candidate.value;
    var l := NewLeading(cfg, c.vote.leader, c.lastLogId, c.lastLogId);
    VoteAnnounces(cfg, me, n.(candidate := None).(leader := Some(l)), Vote(l.id, true), now);
  }

  lemma AppendAnnounces(cfg: Config, me: NodeId, n: Node, u: LeaderId, prev: Option<LogId>, entries: Log,
                        commit: Option<LogId>, now: nat)
    requires u.node != me && n.accepted.Some? && IoVote(n.accepted.value) == n.vote
    ensures var n' := HandleAppend(cfg, me, n, u, prev, entries, commit, now).0;
            n'.announced == n.announced || NotAhead(n')
  {
    hide AppendEntries, UpdateCommitted;
    AppendAnswered(cfg, me, n, u, prev, entries, now);
    CommitsAll(AppendEntries(cfg, me, n, u, prev, entries, now).0, Announced(u, commit));
  }

  ghost predicate AllNotAhead(s: Sys) {
    forall q :: q in s.nodes ==> NotAhead(s.nodes[q])
  }

  /** In every run, whatever is committed, no announcement is ahead of the vote of its node. */
  lemma {:induction false} NeverAhead(cfg: Config, run: seq<Sys>, i: nat)
    requires IsAnyRun(cfg, run) && i < |run|
    ensures AllNotAhead(run[i])
    decreases i
  {
    hide ElectionInv, Possible, Apply;
    if i == 0 {
      forall q | q in run[0].nodes ensures NotAhead(run[0].nodes[q]) {
        assert InitNode(q, run[0].nodes[q], run[0].now);
      }
    } else {
      NeverAhead(cfg, run, i - 1);
      AnyRunElects(cfg, run, i - 1);
      assert Goes(cfg, run[i - 1], run[i - 1 + 1]);
      var st :| Possible(cfg, run[i - 1], st) && run[i] == Apply(cfg, run[i - 1], st);
      StepNotAhead(cfg, run[i - 1], st);
    }
  }

  lemma StepNotAhead(cfg: Config, s: Sys, st: Step)
    requires ElectionInv(cfg, s) && AllNotAhead(s) && Possible(cfg, s, st)
    ensures AllNotAhead(Apply(cfg, s, st))
  {
    hide ElectionInv, Possible, Apply;
    if st.Advance? {
      AdvanceIs(cfg, s, st);
    } else {
      StepAnnounces(cfg, s, st);
      OthersStay(cfg, s, st);
      S.StepForward(cfg, s, st, st.q);
    }
  }

  // ----- What a follower commits --------------------------------------------------

  /** In every run, with skips or without: a node that takes a request commits all of the commit it carries that the
      request covers. */
  lemma FollowerCommits(cfg: Config, run: seq<Tracked>, i: nat, q: NodeId, m: Msg, x: LogId)
    requires IsTrackedRun(cfg, run) && i < |run| && Possible(cfg, run[i].sys, RecvAppend(q, m))
    requires var n := run[i].sys.nodes[q];
             NotBelow(Vote(m.leader, true), n.vote) && (m.prev.Some? ==> Held(n, m.prev.value))
    requires OptLe(Some(x), m.commit) && (forall last :: IsLast(last, m.prev, m.entries) ==> OptLe(Some(x), last))
    ensures OptLe(Some(x), Apply(cfg, run[i].sys, RecvAppend(q, m)).nodes[q].committed)
  {
    hide IsTrackedRun, IsAnyRun, ElectionInv, BallotsOk, AppendEntries, UpdateCommitted, IoLt;
    var s, u := run[i].sys, m.leader;
    TrackedIsAnyRun(cfg, run);
    AnyRunElects(cfg, Systems(run), i);
    NeverAhead(cfg, Systems(run), i);
    VoterOf(cfg, s, q);
    var n := s.nodes[q];
    AppendAnswered(cfg, q, n, u, m.prev, m.entries, s.now);
    var n1 := AppendEntries(cfg, q, n, u, m.prev, m.entries, s.now).0;
    var last :| IsLast(last, m.prev, m.entries) && n1.accepted.Some? && NoLater(LogIo(u, last), n1.accepted.value);
    EntriesVotes(cfg, q, n, u, m.prev, m.entries, s.now);
    CommitsAll(n1, Announced(u, m.commit));
    CoveredCommits(n1, Announced(u, m.commit), last, x);
  }

  /** The answer to a request that is taken says so, with the last id of the request and the time it was sent. */
  lemma AnswerCovers(cfg: Config, s: Sys, q: NodeId, m: Msg)
    requires Possible(cfg, s, RecvAppend(q, m))
    requires NotBelow(Vote(m.leader, true), s.nodes[q].vote) && (m.prev.Some? ==> Held(s.nodes[q], m.prev.value))
    ensures exists last :: IsLast(last, m.prev, m.entries) &&
              AppendResp(q, m.leader, Success, last, m.sentAt) in Apply(cfg, s, RecvAppend(q, m)).net
  {
    hide AppendEntries, UpdateCommitted, NotBelow, Held;
    AppendAnswered(cfg, q, s.nodes[q], m.leader, m.prev, m.entries, s.now);
    assert IsLast(EntriesLast(m.prev, m.entries), m.prev, m.entries);
  }

  lemma CoveredCommits(n: Node, a: Announced, last: Option<LogId>, x: LogId)
    requires n.vote == Vote(a.leader, true) && NotAhead(n)
    requires n.accepted.Some? && IoVote(n.accepted.value) == n.vote && NoLater(LogIo(a.leader, last), n.accepted.value)
    requires OptLe(Some(x), a.logId) && OptLe(Some(x), last)
    ensures OptLe(Some(x), UpdateCommitted(n, a).committed)
  {
    hide UpdateCommitted, IoLt;
    CommitsAll(n, a);
  }

  /** While nothing has skipped: once a follower takes a request that reaches as far as its leader had committed when it
      sent it, the follower has committed all of that, too. */
  lemma FollowerCatchesUp(cfg: Config, run: seq<Tracked>, i: nat, p: NodeId, start: nat, count: nat, m: Msg, j: nat, q: NodeId)
    requires IsTrackedRun(cfg, run) && i <= j < |run| && Unskipped(cfg, run[i])
    requires Possible(cfg, run[i].sys, Send(p, start, count)) && Possible(cfg, run[j].sys, RecvAppend(q, m))
    requires m in Apply(cfg, run[i].sys, Send(p, start, count)).net && m !in run[i].sys.net
    requires NextIndex(run[i].sys.nodes[p].committed) <= start + count
    requires var n := run[j].sys.nodes[q];
             NotBelow(Vote(m.leader, true), n.vote) && (m.prev.Some? ==> Held(n, m.prev.value))
    ensures OptLe(run[i].sys.nodes[p].committed, Apply(cfg, run[j].sys, RecvAppend(q, m)).nodes[q].committed)
  {
    hide IsTrackedRun, IsRun, SysInv, TracksInv, AppendStep, Held, NotBelow;
    var n := run[i].sys.nodes[p];
    if n.committed.Some? {
      var ss := AsProtocol(cfg, run, i);
      NodeOf(cfg, run[i].sys, p);
      CommittedInLog(run[i].sys.hist, cfg, n);
      LogsSorted(cfg, run, i, p);
      ReachesCommit(n.log, n.committed.value, start, count);
      FollowerCommits(cfg, run, j, q, m, n.committed.value);
    }
  }

  /** A part of a sorted log that ends at or after an entry ends with an id not below its id. */
  lemma ReachesCommit(log: Log, x: LogId, start: nat, count: nat)
    requires Sorted(log) && x.index < start + count <= |log| && log[x.index] == x.leader
    ensures var prev := if start == 0 then None else Some(LogId(log[start - 1], start - 1));
            forall last :: IsLast(last, prev, log[start..start + count]) ==> OptLe(Some(x), last)
  {
    var end := start + count - 1;
    assert Le(log[x.index], log[end]);
    assert count > 0 ==> log[start..start + count][count - 1] == log[end];
  }

  // ----- What a leader commits ----------------------------------------------------

  /** While nothing has skipped: when a leader records a report, it commits every entry of its own that a joint quorum
      has reached then. */
  lemma LeaderCatchesUp(cfg: Config, run: seq<Tracked>, i: nat, st: Step, x: LogId)
    requires IsTrackedRun(cfg, run) && i + 1 < |run| && Unskipped(cfg, run[i + 1])
    requires Can(cfg, run[i], Protocol(st)) && run[i + 1] == Make(cfg, run[i], Protocol(st)) && Report(run[i].sys, st).Some?
    requires var l := run[i + 1].sys.nodes[st.q].leader;
             l.Some? && x.leader == l.value.id && IsQuorum(cfg.joint, Reached(l.value.progress, Some(x)))
    ensures OptLe(Some(x), run[i + 1].sys.nodes[st.q].committed)
  {
    hide IsTrackedRun, IsRun, IsAnyRun, SysInv, TracksInv, ElectionInv, CommitRight, Report, Apply, Possible, Reached;
    hide CommitsReturned, TracksAfter, ReportSkips;
    var ss := AsProtocol(cfg, run, i + 1);
    var _ := AsProtocol(cfg, run, i);
    TrackedIsAnyRun(cfg, run);
    AnyRunElects(cfg, Systems(run), i);
    CommitIsRight(cfg, run[i], st);
    StepCommits(cfg, run[i].sys, st, x);
  }

  lemma StepCommits(cfg: Config, s: Sys, st: Step, x: LogId)
    requires SysInv(cfg, s) && Possible(cfg, s, st) && CommitRight(cfg, s, st) && SysInv(cfg, Apply(cfg, s, st))
    requires Report(s, st).Some?
    requires var l := Apply(cfg, s, st).nodes[st.q].leader;
             l.Some? && x.leader == l.value.id && IsQuorum(cfg.joint, Reached(l.value.progress, Some(x)))
    ensures OptLe(Some(x), Apply(cfg, s, st).nodes[st.q].committed)
  {
    hide SysInv, Inv, NodeInv, QuorumAccepted, Reached, HandleProgress, IsQuorum;
    var n, s' := s.nodes[st.q], Apply(cfg, s, st);
    var n', r := s'.nodes[st.q], Report(s, st).value;
    NodeOf(cfg, s', st.q);
    ReportCommits(n, n.leader.value.id, r.0, r.1, st.granted);
    GrantedCovers(cfg, n'.leader.value.progress, st.granted, x);
    LeaderVotes(s'.hist, s'.net, s'.now, cfg, st.q, n');
    OwnIsGreatest(s'.hist, s'.net, s'.now, cfg, st.q, n', st.granted);
  }

  lemma LeaderVotes(h: History, net: set<Msg>, now: nat, cfg: Config, q: NodeId, n: Node)
    requires NodeInv(h, net, now, cfg, q, n) && n.leader.Some?
    ensures n.vote == Vote(n.leader.value.id, true)
  {
  }

  lemma ReportCommits(n: Node, id: LeaderId, target: NodeId, matching: Option<LogId>, granted: Option<LogId>)
    requires TakesReport(n, id, target, matching)
    ensures var n' := HandleProgress(n, id, target, matching, granted);
            && n'.leader.Some? && n'.leader.value == n.leader.value.(progress := n.leader.value.progress[target := matching])
            && n'.vote == n.vote
            && (granted.None? || granted.value.leader == n.vote.leader ==> OptLe(granted, n'.committed))
  {
  }

  /** What a quorum has reached is not above the greatest value that a quorum has. */
  lemma GrantedCovers(cfg: Config, progress: map<NodeId, Option<LogId>>, granted: Option<LogId>, x: LogId)
    requires cfg.Valid() && QuorumAccepted(cfg, progress, granted) && IsQuorum(cfg.joint, Reached(progress, Some(x)))
    ensures OptLe(Some(x), granted)
  {
    hide IsQuorum;
    var ids := Reached(progress, Some(x));
    SomeInQuorum(cfg, ids);
    var q := Slowest(progress, ids);
    QuorumGrows(cfg.joint, ids, Reached(progress, progress[q]));
  }

  lemma SomeInQuorum(cfg: Config, ids: set<NodeId>)
    requires cfg.Valid() && IsQuorum(cfg.joint, ids)
    ensures ids != {}
  {
    assert Majority(cfg.joint[0], ids);
  }

  lemma {:induction false} Slowest(progress: map<NodeId, Option<LogId>>, ids: set<NodeId>) returns (m: NodeId)
    requires ids != {} && ids <= progress.Keys
    ensures m in ids && forall q :: q in ids ==> OptLe(progress[m], progress[q])
  {
    m :| m in ids;
    if ids != {m} {
      var k := Slowest(progress, ids - {m});
      if OptLe(progress[k], progress[m]) {
        m := k;
      }
    }
  }

  /** What members have reached is of no later leader than the present one. */
  lemma OwnIsGreatest(h: History, net: set<Msg>, now: nat, cfg: Config, q: NodeId, n: Node, granted: Option<LogId>)
    requires Inv(h, cfg.joint) && NodeInv(h, net, now, cfg, q, n) && n.leader.Some?
    requires QuorumAccepted(cfg, n.leader.value.progress, granted) && granted.Some?
    ensures Le(granted.value.leader, n.vote.leader)
  {
    hide IsQuorum;
    var t :| t in n.leader.value.progress && n.leader.value.progress[t] == granted;
    assert Matched(h, t, n.vote.leader, granted.value);
    assert NodeOk(h, q);
  }
}
