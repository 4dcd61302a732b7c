/** What each handler of the engine does to the state of its node, as functions.

    The class `Engine` implements these on its fields and the compressed log index; `Cluster`
    runs them on all nodes of a cluster with fixed membership. */
module EngineSpec {
  import opened Ids
  import opened Quorum

  /** Fixed membership and timer settings, the same on every node. */
  datatype Config = Config(
    joint: seq<set<NodeId>>,
    members: set<NodeId>,
    leaderLease: nat,
    electionTimeout: nat,
    smallerLogTimeout: nat)
  {
    ghost predicate Valid() {
      |joint| > 0 && forall i :: 0 <= i < |joint| ==> joint[i] <= members
    }

    predicate IsVoter(id: NodeId) {
      exists i :: 0 <= i < |joint| && id in joint[i]
    }

    /** `voter_ids().count() == 1` and that voter is `id`. */
    predicate IsOnlyVoter(id: NodeId) {
      && IsVoter(id)
      && forall q | q in members :: IsVoter(q) ==> q == id
    }
  }

  datatype Candidate = Candidate(vote: Vote, lastLogId: Option<LogId>, granters: set<NodeId>)

  /** `id` is the committed vote of the leader. */
  datatype Leading = Leading(
    id: LeaderId,
    lastLogId: Option<LogId>,
    noop: LogId,
    progress: map<NodeId, Option<LogId>>,
    clock: map<NodeId, Option<nat>>)

  /** An accepted log I/O: saving a vote that is not committed, or writing under a leader. */
  datatype IoId = VoteIo(leader: LeaderId) | LogIo(leader: LeaderId, logId: Option<LogId>)

  /** `cluster_committed`: the commit a leader announced. */
  datatype Announced = Announced(leader: LeaderId, logId: Option<LogId>)

  datatype Node = Node(
    vote: Vote,
    utime: Option<nat>,
    lease: nat,
    log: Log,
    candidate: Option<Candidate>,
    leader: Option<Leading>,
    accepted: Option<IoId>,
    announced: Option<Announced>,
    committed: Option<LogId>,
    seenGreater: bool)

  // ----- Log I/O and commit -------------------------------------------------------

  function IoVote(io: IoId): Vote {
    Vote(io.leader, io.LogIo?)
  }

  function IoLogId(io: IoId): Option<LogId> {
    if io.LogIo? then io.logId else None
  }

  function NewIo(vote: Vote): IoId {
    if vote.committed then LogIo(vote.leader, None) else VoteIo(vote.leader)
  }

  predicate IoLt(a: IoId, b: IoId) {
    || VoteLt(IoVote(a), IoVote(b))
    || (IoVote(a) == IoVote(b) && !OptLe(IoLogId(b), IoLogId(a)))
  }

  function AcceptLogIo(n: Node, io: IoId): Node {
    if n.accepted.None? || IoLt(n.accepted.value, io) then n.(accepted := Some(io)) else n
  }

  predicate AnnouncedLt(a: Announced, b: Announced) {
    Lt(a.leader, b.leader) || (a.leader == b.leader && !OptLe(b.logId, a.logId))
  }

  function Announce(n: Node, a: Announced): Node {
    if n.announced.None? || AnnouncedLt(n.announced.value, a) then n.(announced := Some(a)) else n
  }

  /** `do_calculate_local_committed`. */
  function LocalCommitted(n: Node): Option<LogId> {
    if n.announced.None? || n.accepted.None? || n.accepted.value.VoteIo? then None
    else if Le(n.announced.value.leader, n.accepted.value.leader) then
      OptMin(n.accepted.value.logId, n.announced.value.logId)
    else None
  }

  function UpdateLocalCommitted(n: Node, committed: Option<LogId>): Node {
    if OptLe(committed, n.committed) then n else n.(committed := committed)
  }

  function UpdateCommitted(n: Node, a: Announced): Node {
    var n1 := Announce(n, a);
    UpdateLocalCommitted(n1, LocalCommitted(n1))
  }

  // ----- Votes --------------------------------------------------------------------

  predicate IsExpired(n: Node, now: nat, timeout: nat) {
    n.utime.None? || now > n.utime.value + n.lease + timeout
  }

  predicate IsLeading(cfg: Config, me: NodeId, n: Node) {
    me in cfg.members && n.vote.leader.node == me
  }

  predicate IsLeader(cfg: Config, me: NodeId, n: Node) {
    IsLeading(cfg, me, n) && n.vote.committed
  }

  /** Index of the first entry of the run of equal leader ids that ends the log. */
  function LastRunStart(log: Log): (r: nat)
    requires |log| > 0
    ensures r < |log|
    ensures forall k :: r <= k < |log| ==> log[k] == log[|log| - 1]
    ensures r > 0 ==> log[r - 1] != log[|log| - 1]
  {
    if |log| == 1 || log[|log| - 2] != log[|log| - 1] then |log| - 1
    else LastRunStart(log[..|log| - 1])
  }

  /** `Leader::new`: `first` and `last` are the first and last log ids of the last leader. */
  function NewLeading(cfg: Config, id: LeaderId, first: Option<LogId>, last: Option<LogId>): Leading {
    Leading(
      id, last,
      if first.Some? && first.value.leader == id then first.value else LogId(id, NextIndex(last)),
      map q | q in cfg.members :: None,
      map q | q in cfg.members :: None)
  }

  /** `leader_append_entries` of `count` entries. */
  function LeaderAppend(n: Node, count: nat): Node
    requires n.leader.Some?
  {
    if count == 0 then n else
    var l := n.leader.value;
    var last := Some(LogId(l.id, NextIndex(l.lastLogId) + count - 1));
    var n1 := n.(leader := Some(l.(lastLogId := last)), log := n.log + Repeat(l.id, count));
    AcceptLogIo(n1, LogIo(l.id, last))
  }

  /** A committed vote of this node's own arrived: become leader with the local log. */
  function BecomeLeader(cfg: Config, n: Node): Node {
    if n.leader.Some? && n.leader.value.id == n.vote.leader then n else
    var last := LastId(n.log);
    var first := if |n.log| == 0 then None
                 else var k := LastRunStart(n.log); Some(LogId(n.log[k], k));
    var l := NewLeading(cfg, n.vote.leader, first, last);
    var n1 := AcceptLogIo(n.(leader := Some(l)), LogIo(l.id, last));
    if OptLe(Some(l.noop), last) then n1 else LeaderAppend(n1, 1)
  }

  function UpdateServerState(cfg: Config, me: NodeId, n: Node): Node {
    if IsLeader(cfg, me, n) then BecomeLeader(cfg, n)
    else if IsLeading(cfg, me, n) then n
    else n.(leader := None, candidate := None)
  }

  /** `update_vote`: `None` when `vote` is below the vote of the node. */
  function UpdateVote(cfg: Config, me: NodeId, n: Node, vote: Vote, now: nat): Option<Node> {
    if !VoteLe(n.vote, vote) then None else
    var lease := if vote.committed then cfg.leaderLease else 0;
    var n1 := n.(vote := vote, utime := Some(now), lease := lease);
    var n2 := if n.vote == vote then n1 else AcceptLogIo(n1, NewIo(vote));
    Some(UpdateServerState(cfg, me, n2))
  }

  // ----- Elections ----------------------------------------------------------------

  function Elect(cfg: Config, me: NodeId, n: Node, now: nat): Node {
    var vote := Vote(LeaderId(n.vote.leader.term + 1, me), false);
    var n1 := n.(candidate := Some(Candidate(vote, LastId(n.log), {})));
    var r := UpdateVote(cfg, me, n1, vote, now);
    if r.Some? then r.value else n1
  }

  /** `handle_tick_election`: whether the tick starts an election. */
  predicate TickElects(cfg: Config, me: NodeId, n: Node, now: nat) {
    && !IsLeader(cfg, me, n)
    && cfg.IsVoter(me)
    && (cfg.IsOnlyVoter(me) ||
        IsExpired(n, now, cfg.electionTimeout + (if n.seenGreater then cfg.smallerLogTimeout else 0)))
  }

  function TickElection(cfg: Config, me: NodeId, n: Node, now: nat): Node {
    if TickElects(cfg, me, n, now) then Elect(cfg, me, n.(seenGreater := false), now) else n
  }

  datatype VoteReply = VoteReply(vote: Vote, lastLogId: Option<LogId>, granted: bool)

  predicate GrantsVote(cfg: Config, me: NodeId, n: Node, vote: Vote, last: Option<LogId>, now: nat) {
    && !(n.vote.committed && !IsExpired(n, now, 0))
    && OptLe(LastId(n.log), last)
    && VoteLe(n.vote, vote)
  }

  function HandleVoteReq(cfg: Config, me: NodeId, n: Node, vote: Vote, last: Option<LogId>, now: nat): (Node, VoteReply) {
    if GrantsVote(cfg, me, n, vote, last, now) then
      var r := UpdateVote(cfg, me, n, vote, now);
      if r.None? then (n, VoteReply(n.vote, LastId(n.log), false))
      else (r.value, VoteReply(r.value.vote, LastId(r.value.log), true))
    else (n, VoteReply(n.vote, LastId(n.log), false))
  }

  /** `establish_leader`: the candidacy has a quorum. */
  function Establish(cfg: Config, me: NodeId, n: Node, now: nat): Node
    requires n.candidate.Some?
  {
    var c := n.candidate.value;
    var n0 := n.(candidate := None);
    if n.leader.Some? && !VoteLt(Vote(n.leader.value.id, true), c.vote) then n0 else
    var l := NewLeading(cfg, c.vote.leader, c.lastLogId, c.lastLogId);
    var n1 := n0.(leader := Some(l));
    var r := UpdateVote(cfg, me, n1, Vote(l.id, true), now);
    var n2 := if r.Some? then r.value else n1;
    var n3 := AcceptLogIo(n2, LogIo(l.id, l.lastLogId));
    if n3.leader.None? then n3 else LeaderAppend(n3, 1)
  }

  /** `grant_by` followed, on a quorum, by `establish_leader`. */
  ghost function GrantedBy(cfg: Config, me: NodeId, n: Node, target: NodeId, now: nat): Node
    requires n.candidate.Some?
  {
    var c := n.candidate.value;
    var n1 := n.(candidate := Some(c.(granters := c.granters + {target})));
    if IsQuorum(cfg.joint, c.granters + {target}) then Establish(cfg, me, n1, now) else n1
  }

  /** A rejection: a greater log is noted, and the vote of the answer is followed as an uncommitted one. */
  function RejectedBy(cfg: Config, me: NodeId, n: Node, reply: VoteReply, now: nat): Node {
    var n1 := if OptLe(reply.lastLogId, LastId(n.log)) then n else n.(seenGreater := true);
    var r := UpdateVote(cfg, me, n1, Vote(reply.vote.leader, false), now);
    if r.Some? then r.value else n1
  }

  ghost function HandleVoteResp(cfg: Config, me: NodeId, n: Node, target: NodeId, candidateVote: LeaderId,
                                reply: VoteReply, now: nat): Node {
    if n.candidate.None? || n.candidate.value.vote != Vote(candidateVote, false) then n
    else if reply.granted && reply.vote == n.candidate.value.vote then GrantedBy(cfg, me, n, target, now)
    else RejectedBy(cfg, me, n, reply, now)
  }

  // ----- Append entries -----------------------------------------------------------

  predicate HasLogId(n: Node, id: LogId) {
    id.index < NextIndex(n.committed) || (id.index < |n.log| && n.log[id.index] == id.leader)
  }

  /** `first_conflicting_index`, from position `from` on: the first of the entries, which start
      at index `start`, that the node does not have. */
  function FirstConflicting(n: Node, start: nat, entries: Log, from: nat := 0): (r: nat)
    requires from <= |entries|
    ensures from <= r <= |entries|
    ensures forall k :: from <= k < r ==> HasLogId(n, LogId(entries[k], start + k))
    ensures r < |entries| ==> !HasLogId(n, LogId(entries[r], start + r))
    decreases |entries| - from
  {
    if from == |entries| || !HasLogId(n, LogId(entries[from], start + from)) then from
    else FirstConflicting(n, start, entries, from + 1)
  }

  function Truncate(log: Log, since: nat): Log {
    if since < |log| then log[..since] else log
  }

  /** The log after the follower has taken `entries`, which start at index `start`. */
  function TakeEntries(n: Node, start: nat, entries: Log): Log {
    var since := FirstConflicting(n, start, entries);
    if since < |entries| then Truncate(n.log, start + since) + entries[since..] else n.log
  }

  function EntriesLast(prev: Option<LogId>, entries: Log): Option<LogId> {
    if |entries| == 0 then prev
    else OptMax(prev, Some(LogId(entries[|entries| - 1], NextIndex(prev) + |entries| - 1)))
  }

  /** `FollowingHandler::append_entries`. */
  function FollowerAppend(n: Node, prev: Option<LogId>, entries: Log): Node {
    var n1 := AcceptLogIo(n, LogIo(n.vote.leader, EntriesLast(prev, entries)));
    n1.(log := TakeEntries(n1, NextIndex(prev), entries))
  }

  datatype AppendReply = Success | Conflict | HigherVote(vote: Vote)

  /** `append_entries`: check the vote, then the previous log id, then take the entries. */
  function AppendEntries(cfg: Config, me: NodeId, n: Node, leader: LeaderId, prev: Option<LogId>, entries: Log,
                         now: nat): (Node, AppendReply) {
    var r := UpdateVote(cfg, me, n, Vote(leader, true), now);
    if r.None? then (n, HigherVote(n.vote))
    else
      var n1 := r.value;
      if prev.Some? && !HasLogId(n1, prev.value) then
        (n1.(log := Truncate(n1.log, prev.value.index)), Conflict)
      else (FollowerAppend(n1, prev, entries), Success)
  }

  /** `handle_append_entries_request`: the announced commit is taken even when the append is
      rejected. */
  function HandleAppend(cfg: Config, me: NodeId, n: Node, leader: LeaderId, prev: Option<LogId>, entries: Log,
                        commit: Option<LogId>, now: nat): (Node, AppendReply) {
    var (n1, reply) := AppendEntries(cfg, me, n, leader, prev, entries, now);
    (UpdateCommitted(n1, Announced(leader, commit)), reply)
  }

  // ----- Replication progress on the leader ---------------------------------------

  /** `update_matching` then `try_commit_quorum_accepted(granted)`. */
  function UpdateMatching(n: Node, target: NodeId, matching: Option<LogId>, granted: Option<LogId>): Node
    requires n.leader.Some? && target in n.leader.value.progress
  {
    var l := n.leader.value;
    var n1 := n.(leader := Some(l.(progress := l.progress[target := matching])));
    TryCommit(n1, granted)
  }

  function TryCommit(n: Node, granted: Option<LogId>): Node {
    if granted.Some? && granted.value.leader != n.vote.leader then n else
    var n1 := Announce(n, Announced(n.vote.leader, granted));
    UpdateLocalCommitted(n1, granted)
  }

  /** Whether a report of `matching` under leader `id` is recorded: one that does not raise the progress of
      `target` is dropped. */
  predicate TakesReport(n: Node, id: LeaderId, target: NodeId, matching: Option<LogId>) {
    && n.leader.Some? && n.leader.value.id == id && target in n.leader.value.progress
    && !OptLe(matching, n.leader.value.progress[target])
  }

  /** A follower has matched `matching` for leader `id`. */
  function HandleProgress(n: Node, id: LeaderId, target: NodeId, matching: Option<LogId>, granted: Option<LogId>): Node {
    if TakesReport(n, id, target, matching) then UpdateMatching(n, target, matching, granted) else n
  }

  /** `update_leader_clock`: `increase_to` the sending time. */
  function HandleHeartbeat(n: Node, id: LeaderId, target: NodeId, sentAt: nat): Node {
    if n.leader.None? || n.leader.value.id != id || target !in n.leader.value.clock then n else
    var l := n.leader.value;
    var t := l.clock[target];
    if t.Some? && sentAt <= t.value then n
    else n.(leader := Some(l.(clock := l.clock[target := Some(sentAt)])))
  }

  function HandleHigherVote(cfg: Config, me: NodeId, n: Node, id: LeaderId, higher: Vote, now: nat): Node {
    if n.leader.None? || n.leader.value.id != id then n else
    var r := UpdateVote(cfg, me, n, higher, now);
    if r.Some? then r.value else n
  }
}
