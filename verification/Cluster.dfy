/** All nodes of a cluster with fixed membership, the messages between them and a common clock.

    Messages are never removed, so they may be lost, delayed, reordered and delivered again.
    `hist` records the history the proofs speak about; no step of a node reads it. */
module Cluster {
  import opened Ids
  import opened Quorum
  import opened EngineSpec
  import opened Ballots

  datatype Msg =
    | VoteReq(vote: LeaderId, last: Option<LogId>)
    | VoteResp(from: NodeId, candidate: LeaderId, reply: VoteReply)
    | AppendReq(leader: LeaderId, prev: Option<LogId>, entries: Log, commit: Option<LogId>, sentAt: nat)
    | AppendResp(from: NodeId, leader: LeaderId, outcome: AppendReply, matching: Option<LogId>, sentAt: nat)

  datatype Sys = Sys(
    nodes: map<NodeId, Node>,
    net: set<Msg>,
    now: nat,
    hist: History)

  // ----- Initial states -----------------------------------------------------------

  /** A node that has started by now: empty, or holding the entry `initialize()` writes. A node that has not yet
      elected itself in `initialize()` has no time of its vote, so that its next tick elects at once. */
  ghost predicate InitNode(q: NodeId, n: Node, now: nat) {
    && (n.log == [GENESIS] || (n.log == [] && n.utime.Some?))
    && (n.utime.Some? ==> n.utime.value <= now)
    && n == Node(Vote(LeaderId(0, q), false), n.utime, 0, n.log, None, None,
                 Some(VoteIo(LeaderId(0, q))), None, None, false)
  }

  ghost predicate Init(cfg: Config, s: Sys) {
    && s.nodes.Keys == cfg.members
    && (forall q :: q in s.nodes ==> InitNode(q, s.nodes[q], s.now))
    && s.net == {}
    && s.hist == History(
         map q | q in s.nodes :: s.nodes[q].vote.leader,
         map q | q in s.nodes :: s.nodes[q].log,
         map[GENESIS := []], map[GENESIS := Election({}, [GENESIS])], {}, {})
  }

  // ----- Steps --------------------------------------------------------------------

  datatype Step =
    | Tick(q: NodeId)
    | RecvVoteReq(q: NodeId, m: Msg)
    | RecvVoteResp(q: NodeId, m: Msg)
    | Write(q: NodeId, count: nat)
    | Send(q: NodeId, start: nat, count: nat)
    | RecvAppend(q: NodeId, m: Msg)
    | RecvProgress(q: NodeId, m: Msg, granted: Option<LogId>)
    | RecvHeartbeat(q: NodeId, m: Msg)
    | Flush(q: NodeId, upto: LogId, granted: Option<LogId>)
    | Advance(d: nat)

  /** Members whose progress has reached `x`. */
  ghost function Reached(progress: map<NodeId, Option<LogId>>, x: Option<LogId>): set<NodeId> {
    set q | q in progress && OptLe(x, progress[q])
  }

  /** `granted` is the greatest of the values that a joint quorum has reached. */
  ghost predicate QuorumAccepted(cfg: Config, progress: map<NodeId, Option<LogId>>, granted: Option<LogId>) {
    && IsQuorum(cfg.joint, Reached(progress, granted))
    && (granted.Some? ==> exists q :: q in progress && progress[q] == granted)
    && forall q :: q in progress && IsQuorum(cfg.joint, Reached(progress, progress[q])) ==> OptLe(progress[q], granted)
  }

  /** What a step asks for, except of the value it commits. A node with an empty log knows of no voters, so that its
      ticks do nothing. */
  ghost predicate Possible(cfg: Config, s: Sys, st: Step) {
    match st
    case Tick(q) => q in s.nodes && s.nodes[q].log != []
    case RecvVoteReq(q, m) =>
      q in s.nodes && m in s.net && m.VoteReq? && q != m.vote.node && cfg.IsVoter(q)
    case RecvVoteResp(q, m) =>
      q in s.nodes && m in s.net && m.VoteResp? && q == m.candidate.node
    case Write(q, count) => q in s.nodes && s.nodes[q].leader.Some?
    case Send(q, start, count) =>
      q in s.nodes && s.nodes[q].leader.Some? && start + count <= |s.nodes[q].log|
    case RecvAppend(q, m) => q in s.nodes && m in s.net && m.AppendReq? && q != m.leader.node
    case RecvProgress(q, m, granted) =>
      q in s.nodes && m in s.net && m.AppendResp? && m.outcome.Success? && q == m.leader.node
    case RecvHeartbeat(q, m) => q in s.nodes && m in s.net && m.AppendResp? && q == m.leader.node
    case Flush(q, upto, granted) =>
      && q in s.nodes && s.nodes[q].leader.Some?
      && upto.index < |s.nodes[q].log| && upto.leader == s.nodes[q].log[upto.index]
    case Advance(d) => true
  }

  /** A report that is recorded is followed by a commit step with the right value. */
  ghost predicate GrantedRight(cfg: Config, n: Node, id: LeaderId, target: NodeId, matching: Option<LogId>,
                               granted: Option<LogId>) {
    TakesReport(n, id, target, matching) ==> QuorumAccepted(cfg, n.leader.value.progress[target := matching], granted)
  }

  ghost predicate CommitRight(cfg: Config, s: Sys, st: Step)
    requires Possible(cfg, s, st)
  {
    match st
    case RecvProgress(q, m, granted) => GrantedRight(cfg, s.nodes[q], m.leader, m.from, m.matching, granted)
    case Flush(q, upto, granted) =>
      GrantedRight(cfg, s.nodes[q], s.nodes[q].leader.value.id, q, Some(upto), granted)
    case _ => true
  }

  ghost predicate Enabled(cfg: Config, s: Sys, st: Step) {
    Possible(cfg, s, st) && CommitRight(cfg, s, st)
  }

  ghost function TickStep(cfg: Config, s: Sys, q: NodeId): Sys
    requires q in s.nodes
  {
    var n := s.nodes[q];
    var n' := TickElection(cfg, q, n, s.now);
    if !TickElects(cfg, q, n, s.now) then s else
    var v := LeaderId(n.vote.leader.term + 1, q);
    s.(nodes := s.nodes[q := n'],
       net := s.net + {VoteReq(v, LastId(n.log)), VoteResp(q, v, VoteReply(Vote(v, false), None, true))},
       hist := GrantVote(Campaign(s.hist, q, v), q, v))
  }

  ghost function VoteReqStep(cfg: Config, s: Sys, q: NodeId, m: Msg): Sys
    requires q in s.nodes && m.VoteReq?
  {
    var n := s.nodes[q];
    var (n', reply) := HandleVoteReq(cfg, q, n, Vote(m.vote, false), m.last, s.now);
    s.(nodes := s.nodes[q := n'],
       net := s.net + {VoteResp(q, m.vote, reply)},
       hist := if reply.granted then GrantVote(s.hist, q, m.vote) else s.hist)
  }

  /** A new leader proposes a blank entry at once. */
  function Won(h: History, q: NodeId, v: LeaderId, granters: set<NodeId>): History {
    Propose(Win(h, v, granters), q, v, 1)
  }

  ghost function VoteRespStep(cfg: Config, s: Sys, q: NodeId, m: Msg): Sys
    requires q in s.nodes && m.VoteResp?
  {
    var n := s.nodes[q];
    var n' := HandleVoteResp(cfg, q, n, m.from, m.candidate, m.reply, s.now);
    s.(nodes := s.nodes[q := n'],
       hist := if n.candidate.Some? && n.leader.None? && n'.leader.Some?
               then Won(s.hist, q, n'.leader.value.id, n.candidate.value.granters + {m.from})
               else Raise(s.hist, q, n'.vote.leader))
  }

  ghost function WriteStep(cfg: Config, s: Sys, q: NodeId, count: nat): Sys
    requires q in s.nodes && s.nodes[q].leader.Some?
  {
    s.(nodes := s.nodes[q := LeaderAppend(s.nodes[q], count)],
       hist := Propose(s.hist, q, s.nodes[q].leader.value.id, count))
  }

  ghost function SendStep(cfg: Config, s: Sys, q: NodeId, start: nat, count: nat): Sys
    requires q in s.nodes && s.nodes[q].leader.Some? && start + count <= |s.nodes[q].log|
  {
    var n := s.nodes[q];
    var prev := if start == 0 then None else Some(LogId(n.log[start - 1], start - 1));
    s.(net := s.net + {AppendReq(n.leader.value.id, prev, n.log[start..start + count], n.committed, s.now)})
  }

  ghost function AppendStep(cfg: Config, s: Sys, q: NodeId, m: Msg): Sys
    requires q in s.nodes && m.AppendReq?
  {
    var (n', outcome) := HandleAppend(cfg, q, s.nodes[q], m.leader, m.prev, m.entries, m.commit, s.now);
    var matching := if outcome.Success? then EntriesLast(m.prev, m.entries) else None;
    s.(nodes := s.nodes[q := n'],
       net := s.net + {AppendResp(q, m.leader, outcome, matching, m.sentAt)},
       hist := if outcome.HigherVote? then s.hist else Followed(s.hist, q, m.leader, n'.log, matching))
  }

  /** `q` took the vote of leader `u`, changed its log and reports what it matched. */
  function Followed(h: History, q: NodeId, u: LeaderId, log: Log, matching: Option<LogId>): History {
    var h1 := Overwrite(Raise(h, q, u), q, log);
    if matching.Some? then AddAck(h1, q, u, matching.value.index) else h1
  }

  ghost function ProgressStep(cfg: Config, s: Sys, q: NodeId, m: Msg, granted: Option<LogId>): Sys
    requires q in s.nodes && m.AppendResp?
  {
    s.(nodes := s.nodes[q := HandleProgress(s.nodes[q], m.leader, m.from, m.matching, granted)])
  }

  function AfterReply(cfg: Config, q: NodeId, n: Node, m: Msg, now: nat): Node
    requires m.AppendResp?
  {
    if m.outcome.HigherVote? then HandleHigherVote(cfg, q, n, m.leader, m.outcome.vote, now) else n
  }

  /** The heartbeat worker reports a higher vote first and the sending time after it. */
  ghost function HeartbeatStep(cfg: Config, s: Sys, q: NodeId, m: Msg): Sys
    requires q in s.nodes && m.AppendResp?
  {
    var n1 := AfterReply(cfg, q, s.nodes[q], m, s.now);
    s.(nodes := s.nodes[q := HandleHeartbeat(n1, m.leader, m.from, m.sentAt)],
       hist := Raise(s.hist, q, n1.vote.leader))
  }

  ghost function FlushStep(cfg: Config, s: Sys, q: NodeId, upto: LogId, granted: Option<LogId>): Sys
    requires q in s.nodes && s.nodes[q].leader.Some?
  {
    var n := s.nodes[q];
    var u := n.leader.value.id;
    s.(nodes := s.nodes[q := HandleProgress(n, u, q, Some(upto), granted)],
       hist := AddAck(s.hist, q, u, upto.index))
  }

  ghost function Apply(cfg: Config, s: Sys, st: Step): Sys
    requires Possible(cfg, s, st)
  {
    match st
    case Tick(q) => TickStep(cfg, s, q)
    case RecvVoteReq(q, m) => VoteReqStep(cfg, s, q, m)
    case RecvVoteResp(q, m) => VoteRespStep(cfg, s, q, m)
    case Write(q, count) => WriteStep(cfg, s, q, count)
    case Send(q, start, count) => SendStep(cfg, s, q, start, count)
    case RecvAppend(q, m) => AppendStep(cfg, s, q, m)
    case RecvProgress(q, m, granted) => ProgressStep(cfg, s, q, m, granted)
    case RecvHeartbeat(q, m) => HeartbeatStep(cfg, s, q, m)
    case Flush(q, upto, granted) => FlushStep(cfg, s, q, upto, granted)
    case Advance(d) => s.(now := s.now + d)
  }

  ghost predicate Next(cfg: Config, s: Sys, s': Sys) {
    exists st :: Enabled(cfg, s, st) && s' == Apply(cfg, s, st)
  }

  ghost predicate IsRun(cfg: Config, run: seq<Sys>) {
    && cfg.Valid()
    && |run| > 0
    && Init(cfg, run[0])
    && forall i :: 0 <= i < |run| - 1 ==> Next(cfg, run[i], run[i + 1])
  }

  ghost predicate Goes(cfg: Config, s: Sys, s': Sys) {
    exists st :: Possible(cfg, s, st) && s' == Apply(cfg, s, st)
  }

  /** A run of the cluster in which the commit step may be handed any value. */
  ghost predicate IsAnyRun(cfg: Config, run: seq<Sys>) {
    && cfg.Valid()
    && |run| > 0
    && Init(cfg, run[0])
    && forall i :: 0 <= i < |run| - 1 ==> Goes(cfg, run[i], run[i + 1])
  }

  lemma RunIsAnyRun(cfg: Config, run: seq<Sys>)
    requires IsRun(cfg, run)
    ensures IsAnyRun(cfg, run)
  {
    hide Possible, CommitRight, Apply, Init;
    forall i | 0 <= i < |run| - 1 ensures Goes(cfg, run[i], run[i + 1]) {
      assert Next(cfg, run[i], run[i + 1]);
    }
  }

  // ----- Invariants of one node ---------------------------------------------------

  ghost predicate KnownVote(h: History, v: Vote) {
    && (v.leader in h.camp || v.leader.term == 0)
    && (v.committed ==> v.leader in h.elect && v.leader.term > 0)
  }

  /** `m` is the id of an entry of leader `u`'s log. */
  ghost predicate InLog(h: History, u: LeaderId, m: LogId) {
    u in h.elect && m.index < |h.elect[u].log| && h.elect[u].log[m.index] == m.leader
  }

  ghost predicate Chosen(h: History, cfg: Config, x: LeaderId, c: nat) {
    Proposed(h, x, c) && QuorumAcked(h, cfg.joint, x, c)
  }

  /** `m` lies below an entry that leader `x` or an earlier part of its term has committed. */
  ghost predicate CoveredBy(h: History, cfg: Config, x: LeaderId, c: nat, m: LogId) {
    Chosen(h, cfg, x, c) && m.index <= c && InLog(h, x, m)
  }

  ghost predicate CommitOk(h: History, cfg: Config, u: LeaderId, m: Option<LogId>) {
    m.Some? ==> exists x, c :: Le(x, u) && CoveredBy(h, cfg, x, c, m.value)
  }

  ghost predicate CandidateInv(h: History, cfg: Config, q: NodeId, n: Node) {
    n.candidate.Some? ==>
      var c := n.candidate.value;
      var v := c.vote.leader;
      && c.vote == n.vote && !c.vote.committed && v.node == q && v.term > 0
      && v in h.camp && h.camp[v] == n.log && v !in h.elect
      && c.lastLogId == LastId(n.log)
      && n.leader.None?
      && forall g :: g in c.granters ==> HasGrant(h, g, v)
  }

  ghost predicate Matched(h: History, t: NodeId, u: LeaderId, m: LogId) {
    InLog(h, u, m) && Acked(h, t, u, m.index)
  }

  ghost predicate ClockAcked(net: set<Msg>, t: NodeId, u: LeaderId, sentAt: nat) {
    exists m :: m in net && m.AppendResp? && !m.outcome.HigherVote? && m.from == t && m.leader == u && m.sentAt == sentAt
  }

  ghost predicate LeaderInv(h: History, net: set<Msg>, cfg: Config, q: NodeId, n: Node) {
    n.leader.Some? ==>
      var l := n.leader.value;
      && n.vote == Vote(l.id, true) && l.id.node == q
      && l.id in h.elect && n.log == h.elect[l.id].log
      && l.lastLogId == LastId(n.log)
      && l.id in h.camp && |h.camp[l.id]| < |n.log| && l.noop == LogId(l.id, |h.camp[l.id]|)
      && (forall t :: t in l.progress && l.progress[t].Some? ==> Matched(h, t, l.id, l.progress[t].value))
      && (forall t :: t in l.clock && l.clock[t].Some? ==> ClockAcked(net, t, l.id, l.clock[t].value))
  }

  ghost predicate VoteInv(h: History, cfg: Config, q: NodeId, n: Node, now: nat) {
    && KnownVote(h, n.vote)
    && Le(LeaderId(0, q), n.vote.leader)
    && (n.utime.Some? ==> n.utime.value <= now)
    && (n.vote.committed ==> n.utime.Some? && n.lease == cfg.leaderLease)
  }

  /** The accepted log I/O carries the vote of the node, and its log id marks a prefix that
      matches the leader of that vote. */
  ghost predicate AcceptedInv(h: History, n: Node) {
    && n.accepted.Some?
    && IoVote(n.accepted.value) == n.vote
    && var last := IoLogId(n.accepted.value);
       last.Some? ==>
         && InLog(h, n.vote.leader, last.value)
         && Agree(n.log, h.elect[n.vote.leader].log, last.value.index + 1)
  }

  ghost predicate AnnouncedInv(h: History, cfg: Config, n: Node) {
    n.announced.Some? ==>
      && Le(n.announced.value.leader, n.vote.leader)
      && n.announced.value.leader in h.elect
      && CommitOk(h, cfg, n.announced.value.leader, n.announced.value.logId)
  }

  ghost predicate CommittedUnder(h: History, cfg: Config, n: Node, x: LeaderId, c: nat)
    requires n.committed.Some?
  {
    && CoveredBy(h, cfg, x, c, n.committed.value)
    && Agree(n.log, h.elect[x].log, n.committed.value.index + 1)
  }

  ghost predicate CommittedInv(h: History, cfg: Config, n: Node) {
    n.committed.Some? ==> exists x, c :: Le(x, n.vote.leader) && CommittedUnder(h, cfg, n, x, c)
  }

  /** The history knows the present vote and log of the node. */
  ghost predicate Recorded(h: History, q: NodeId, n: Node) {
    && q in h.votes && h.votes[q] == n.vote.leader
    && q in h.logs && h.logs[q] == n.log
  }

  ghost predicate NodeInv(h: History, net: set<Msg>, now: nat, cfg: Config, q: NodeId, n: Node) {
    && Recorded(h, q, n)
    && VoteInv(h, cfg, q, n, now)
    && CandidateInv(h, cfg, q, n)
    && LeaderInv(h, net, cfg, q, n)
    && AcceptedInv(h, n)
    && AnnouncedInv(h, cfg, n)
    && CommittedInv(h, cfg, n)
  }

  // ----- Invariants of one message ------------------------------------------------

  ghost predicate MsgInv(h: History, now: nat, cfg: Config, m: Msg) {
    match m
    case VoteReq(v, last) => v in h.camp && v.term > 0 && last == LastId(h.camp[v])
    case VoteResp(from, cand, reply) =>
      && KnownVote(h, reply.vote)
      && cfg.IsVoter(from)
      && (reply.granted ==> reply.vote == Vote(cand, false) && HasGrant(h, from, cand))
    case AppendReq(u, prev, entries, commit, sentAt) =>
      && u in h.elect && u.term > 0
      && sentAt <= now
      && (prev.Some? ==> InLog(h, u, prev.value))
      && NextIndex(prev) + |entries| <= |h.elect[u].log|
      && (forall k :: 0 <= k < |entries| ==> entries[k] == h.elect[u].log[NextIndex(prev) + k])
      && CommitOk(h, cfg, u, commit)
    case AppendResp(from, u, outcome, matching, sentAt) =>
      && u in h.elect
      && from in h.votes && from != u.node
      && sentAt <= now
      && (matching.Some? ==> outcome.Success? && Matched(h, from, u, matching.value))
      && (outcome.HigherVote? ==> Lt(u, outcome.vote.leader) && KnownVote(h, outcome.vote))
  }

  ghost predicate AllNodesInv(cfg: Config, s: Sys) {
    forall q :: q in s.nodes ==> NodeInv(s.hist, s.net, s.now, cfg, q, s.nodes[q])
  }

  ghost predicate AllMsgsInv(cfg: Config, s: Sys) {
    forall m :: m in s.net ==> MsgInv(s.hist, s.now, cfg, m)
  }

  ghost predicate SysInv(cfg: Config, s: Sys) {
    && cfg.Valid()
    && s.nodes.Keys == cfg.members
    && Inv(s.hist, cfg.joint)
    && AllNodesInv(cfg, s)
    && AllMsgsInv(cfg, s)
  }
}
