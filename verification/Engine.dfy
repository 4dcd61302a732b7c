/** The engine of one node: an object whose handlers update its vote, its log ids, its candidacy and its
    leadership in place. Every handler does to the fields what `EngineSpec` says. */
module Engine {
  import opened Ids
  import opened Quorum
  import opened EngineSpec
  import opened LogIdKeys
  import opened LogIdIndex
  import opened LeasedValue
  import opened FollowerLog
  import CandidateVotes

  /** The run that ends the log, as the compressed index finds it. */
  lemma RunFromIndex(keys: seq<LogId>, log: Log)
    requires Keys(keys, 0, log)
    ensures ByLastLeader(keys) ==
            if |log| == 0 then None
            else Some((LogId(log[LastRunStart(log)], LastRunStart(log)), LogId(log[|log| - 1], |log| - 1)))
  {
    if |log| > 0 {
      ByLastLeaderIs(keys, 0, log);
    }
  }

  lemma ElectIs(cfg: Config, me: NodeId, n: Node, now: nat)
    ensures var v := Vote(LeaderId(n.vote.leader.term + 1, me), false);
            var n1 := n.(candidate := Some(Candidate(v, LastId(n.log), {})));
            var r := UpdateVote(cfg, me, n1, v, now);
            && r == Some(EngineSpec.Elect(cfg, me, n, now)) && r.value.vote == v && r.value.log == n.log
            && r.value.candidate == (if me in cfg.members then n1.candidate else None)
            && r.value.leader == (if me in cfg.members then n.leader else None)
  {
    hide IoLt;
  }

  lemma UncommittedGives(cfg: Config, me: NodeId, n: Node, v: Vote, now: nat)
    requires !v.committed
    ensures var r := UpdateVote(cfg, me, n, v, now);
            (r.Some? <==> VoteLe(n.vote, v)) && (r.Some? ==> r.value.vote == v && r.value.log == n.log)
  {
    hide IoLt;
  }

  lemma VoterIsMember(cfg: Config, q: NodeId)
    requires cfg.Valid() && cfg.IsVoter(q)
    ensures q in cfg.members
  {
  }

  lemma UpdateVoteGives(cfg: Config, me: NodeId, n: Node, v: Vote, now: nat)
    requires v.leader.node != me
    ensures var r := UpdateVote(cfg, me, n, v, now);
            && (r.Some? <==> VoteLe(n.vote, v))
            && (r.Some? ==> r.value.vote == v && r.value.log == n.log && r.value.candidate.None? && r.value.leader.None?)
  {
  }

  lemma SetOfMore(ids: seq<NodeId>, id: NodeId)
    ensures SetOf(ids + [id]) == SetOf(ids) + {id}
  {
  }

  lemma NewLeadingIs(cfg: Config, id: LeaderId, last: Option<LogId>)
    ensures NewLeading(cfg, id, last, last).id == id && NewLeading(cfg, id, last, last).lastLogId == last
  {
  }

  lemma RejectionKeeps(cfg: Config, me: NodeId, n: Node, v: Vote, now: nat)
    requires !v.committed && n.candidate.Some? && n.leader.None? && n.vote == n.candidate.value.vote && !n.vote.committed
    requires me in cfg.members && n.vote.leader.node == me && (v.leader.node == me ==> Le(v.leader, n.vote.leader))
    ensures var r := UpdateVote(cfg, me, n, v, now);
            && (r.Some? ==> r.value.leader.None? && r.value.log == n.log)
            && (r.Some? ==> r.value.candidate.None? || (r.value.candidate == n.candidate && r.value.vote == n.vote))
  {
    hide IoLt;
  }

  /** A leader that was just put in place keeps its place when its vote is committed. */
  lemma CommitOwnVote(cfg: Config, me: NodeId, n: Node, v: Vote, now: nat)
    requires me in cfg.members && v.leader.node == me && v.committed && VoteLe(n.vote, v)
    requires n.leader.Some? && n.leader.value.id == v.leader
    ensures var r := UpdateVote(cfg, me, n, v, now);
            && r.Some? && r.value.vote == v && r.value.log == n.log
            && r.value.candidate == n.candidate && r.value.leader == n.leader
  {
    hide IoLt;
  }

  /** What a batch needs is about the log and the commit only. */
  lemma SameContinues(n: Node, n': Node, prev: Option<LogId>, entries: Log)
    requires n'.log == n.log && n'.committed == n.committed
    ensures Continues(n', prev, entries) == Continues(n, prev, entries)
    ensures forall id :: HasLogId(n', id) == HasLogId(n, id)
  {
    SameConflict(n, n', NextIndex(prev), entries, 0);
  }

  lemma {:induction false} SameConflict(n: Node, n': Node, start: nat, entries: Log, from: nat)
    requires n'.log == n.log && n'.committed == n.committed && from <= |entries|
    ensures FirstConflicting(n', start, entries, from) == FirstConflicting(n, start, entries, from)
    decreases |entries| - from
  {
    if from < |entries| {
      SameConflict(n, n', start, entries, from + 1);
    }
  }

  lemma UpdateVoteFrame(cfg: Config, me: NodeId, n: Node, v: Vote, now: nat)
    requires v.leader.node != me
    ensures var r := UpdateVote(cfg, me, n, v, now);
            r.Some? ==> r.value.committed == n.committed && r.value.log == n.log
  {
  }

  /** The rest of a batch takes the place of what the log has from there on. */
  lemma BatchJoins(n: Node, prev: Option<LogId>, entries: Log, since: nat)
    requires Continues(n, prev, entries) && since < |entries| && since == FirstConflicting(n, NextIndex(prev), entries)
    ensures NextIndex(prev) + since <= |n.log| && Sorted(entries[since..])
    ensures TakeEntries(n, NextIndex(prev), entries) == n.log[..NextIndex(prev) + since] + entries[since..]
    ensures NextIndex(prev) + since > 0 ==> Le(n.log[NextIndex(prev) + since - 1], entries[since])
  {
    hide Sorted, FirstConflicting, HasLogId, Le;
    var at := NextIndex(prev) + since;
    assert Truncate(n.log, at) == n.log[..at];
  }

  lemma NothingNew(n: Node, start: nat, entries: Log)
    requires FirstConflicting(n, start, entries) == |entries|
    ensures TakeEntries(n, start, entries) == n.log
  {
  }

  function Numbered(entries: Log, start: nat): (r: seq<LogId>)
    ensures |r| == |entries| && forall k :: 0 <= k < |r| ==> r[k] == LogId(entries[k], start + k)
  {
    seq(|entries|, k requires 0 <= k < |entries| => LogId(entries[k], start + k))
  }

  lemma TruncateKeepsOrder(keys: seq<LogId>, log: Log, since: nat)
    requires Keys(keys, 0, log)
    ensures 0 < since < |log| ==> Le(log[since - 1], log[|log| - 1])
  {
    KeysAreSorted(keys, 0, log);
  }

  class Engine {
    const me: NodeId
    const cfg: Config
    const vote: Leased<Vote>
    const logIds: LogIdList
    var candidate: CandidateVotes.Candidate?
    var leader: Option<Leading>
    var accepted: Option<IoId>
    var announced: Option<Announced>
    var committed: Option<LogId>
    var seenGreater: bool

    ghost function Owned(): set<object>
      reads this
    {
      {this, vote, logIds} + if candidate == null then {} else {candidate, candidate.progress}
    }

    /** The abstract state of the node. */
    ghost function View(): Node
      reads this, Owned()
    {
      Node(vote.data, vote.lastUpdate, vote.lease, logIds.log,
           if candidate == null then None
           else Some(Candidate(Vote(candidate.vote, false), candidate.lastLogId, SetOf(candidate.granted))),
           leader, accepted, announced, committed, seenGreater)
    }

    ghost predicate Base()
      reads this, Owned()
    {
      && cfg.Valid()
      && vote.leaseEnabled
      && logIds.Valid() && logIds.first == 0
      && (candidate != null ==> candidate.Valid() && candidate.progress.quorumSet == cfg.joint)
      && (logIds.log != [] ==> Le(logIds.log[|logIds.log| - 1], vote.data.leader))
    }

    /** A leader has written the end of the local log. */
    ghost predicate LeaderOk()
      reads this, Owned()
    {
      leader.Some? ==>
        && leader.value.lastLogId == LastId(logIds.log)
        && Le(leader.value.id, vote.data.leader)
        && (logIds.log != [] ==> Le(logIds.log[|logIds.log| - 1], leader.value.id))
    }

    /** A leadership on this node belongs to its present vote. */
    ghost predicate LeaderVote()
      reads this, Owned()
    {
      leader.Some? ==> IsLeadingNow() && vote.data == Vote(leader.value.id, true)
    }

    /** A candidate stands for the present vote of the node, with its present log. */
    ghost predicate CandidateOk()
      reads this, Owned()
    {
      candidate != null ==>
        && leader.None? && IsLeadingNow() && vote.data == Vote(candidate.vote, false)
        && candidate.lastLogId == LastId(logIds.log)
    }

    ghost predicate Valid()
      reads this, Owned()
    {
      Base() && LeaderOk() && LeaderVote() && CandidateOk()
    }

    /** A node that has just started with an empty log. */
    constructor (me: NodeId, cfg: Config, now: nat)
      requires cfg.Valid()
      ensures Valid() && fresh(Owned()) && this.me == me && this.cfg == cfg
      ensures View() == Node(Vote(LeaderId(0, me), false), Some(now), 0, [], None, None, Some(VoteIo(LeaderId(0, me))),
                             None, None, false)
    {
      this.me := me;
      this.cfg := cfg;
      vote := new Leased(now, 0, Vote(LeaderId(0, me), false));
      logIds := new LogIdList();
      candidate := null;
      leader := None;
      accepted := Some(VoteIo(LeaderId(0, me)));
      announced := None;
      committed := None;
      seenGreater := false;
    }

    // ----- Log I/O and commit -----------------------------------------------------

    method AcceptIo(io: IoId)
      requires Base()
      modifies this`accepted
      ensures Base() && View() == AcceptLogIo(old(View()), io)
    {
      if accepted.None? || IoLt(accepted.value, io) {
        accepted := Some(io);
      }
    }

    /** `update_committed`. */
    method TakeCommit(a: Announced)
      requires Valid()
      modifies this`announced, this`committed
      ensures Valid() && View() == UpdateCommitted(old(View()), a)
    {
      hide Keys, CandidateVotes.Candidate.Valid;
      if announced.None? || AnnouncedLt(announced.value, a) {
        announced := Some(a);
      }
      var local: Option<LogId> := None;
      if announced.Some? && accepted.Some? && accepted.value.LogIo? && Le(announced.value.leader, accepted.value.leader) {
        local := OptMin(accepted.value.logId, announced.value.logId);
      }
      if !OptLe(local, committed) {
        committed := local;
      }
    }

    // ----- Leading ----------------------------------------------------------------

    /** Gives consecutive ids of the leader to `count` entries. */
    method AssignLogIds(count: nat) returns (ids: seq<LogId>)
      requires leader.Some? && count > 0
      modifies this`leader
      ensures var l := old(leader.value); var next := NextIndex(l.lastLogId);
              && |ids| == count && (forall k :: 0 <= k < count ==> ids[k] == LogId(l.id, next + k))
              && leader == Some(l.(lastLogId := Some(LogId(l.id, next + count - 1))))
    {
      var l := leader.value;
      var index := NextIndex(l.lastLogId);
      ids := [];
      for i := 0 to count
        invariant index == NextIndex(l.lastLogId) + i
        invariant |ids| == i && forall k :: 0 <= k < i ==> ids[k] == LogId(l.id, NextIndex(l.lastLogId) + k)
      {
        ids := ids + [LogId(l.id, index)];
        index := index + 1;
      }
      leader := Some(l.(lastLogId := Some(LogId(l.id, index - 1))));
    }

    /** `leader_append_entries`. */
    method LeaderAppendEntries(count: nat)
      requires Base() && LeaderOk() && leader.Some?
      modifies this`leader, this`accepted, logIds
      ensures Base() && LeaderOk() && View() == LeaderAppend(old(View()), count)
      ensures leader.Some? && leader.value.id == old(leader.value.id)
    {
      hide Keys, CandidateVotes.Candidate.Valid;
      if count == 0 {
        return;
      }
      var ids := AssignLogIds(count);
      assert ids[0] == LogId(leader.value.id, |logIds.log|);
      logIds.ExtendFromSameLeader(ids);
      AcceptIo(LogIo(leader.value.id, leader.value.lastLogId));
    }

    // ----- Votes ------------------------------------------------------------------

    /** `become_leader`: the vote of the node became its own committed vote. */
    method BecomeLeaderOf()
      requires Base() && LeaderOk() && vote.data.committed
      modifies this`leader, this`accepted, logIds
      ensures Base() && LeaderOk() && View() == BecomeLeader(cfg, old(View()))
      ensures leader.Some? && leader.value.id == vote.data.leader
    {
      hide CandidateVotes.Candidate.Valid, Keys, IoLt, ByLastLeader, LastRunStart;
      if leader.Some? && leader.value.id == vote.data.leader {
        return;
      }
      var last := logIds.Last();
      var run := logIds.ByLast();
      RunFromIndex(logIds.keyLogIds, logIds.log);
      var first := if run.None? then None else Some(run.value.0);
      var l := NewLeading(cfg, vote.data.leader, first, last);
      leader := Some(l);
      AcceptIo(LogIo(l.id, last));
      if !OptLe(Some(l.noop), last) {
        LeaderAppendEntries(1);
      }
    }

    /** `update_vote`: refuses a vote below the local one, and stores and follows any other. */
    method UpdateVoteTo(v: Vote, now: nat) returns (ok: bool)
      requires Base() && LeaderOk()
      requires vote.lastUpdate.Some? ==> vote.lastUpdate.value <= now
      modifies this`leader, this`accepted, this`candidate, vote, logIds
      ensures Base() && LeaderOk() && fresh(Owned() - old(Owned()))
      ensures ok <==> UpdateVote(cfg, me, old(View()), v, now).Some?
      ensures View() == if ok then UpdateVote(cfg, me, old(View()), v, now).value else old(View())
    {
      hide Keys, UpdateServerState, CandidateVotes.Candidate.Valid;
      if !VoteLe(vote.data, v) {
        return false;
      }
      var lease := if v.committed then cfg.leaderLease else 0;
      if VoteLt(vote.data, v) {
        vote.Update(now, lease, v);
        AcceptIo(NewIo(v));
      } else {
        vote.Touch(now, lease);
      }
      UpdateInternalServerState();
      return true;
    }

    /** Whether the node leads, stands or follows, by its present vote. */
    method UpdateInternalServerState()
      requires Base() && LeaderOk()
      modifies this`leader, this`accepted, this`candidate, logIds
      ensures Base() && LeaderOk() && Owned() <= old(Owned())
      ensures View() == UpdateServerState(cfg, me, old(View()))
    {
      hide Keys, LastRunStart, NewLeading, BecomeLeader, CandidateVotes.Candidate.Valid;
      if IsLeadingNow() && vote.data.committed {
        BecomeLeaderOf();
      } else if IsLeadingNow() {
      } else {
        leader := None;
        candidate := null;
      }
    }

    predicate IsLeadingNow()
      reads this, vote
    {
      me in cfg.members && vote.data.leader.node == me
    }

    // ----- Elections --------------------------------------------------------------

    /** `elect`: a new candidacy with the next term, granted to itself through the usual way. */
    method Elect(now: nat)
      requires Valid()
      requires vote.lastUpdate.Some? ==> vote.lastUpdate.value <= now
      modifies this`leader, this`accepted, this`candidate, vote, logIds
      ensures Base() && LeaderOk() && (old(leader).None? ==> Valid()) && fresh(Owned() - old(Owned()))
      ensures View() == EngineSpec.Elect(cfg, me, old(View()), now)
    {
      hide Keys, UpdateVote, EngineSpec.Elect, CandidateVotes.Candidate.Valid;
      ghost var n := View();
      var v := LeaderId(vote.data.leader.term + 1, me);
      var last := logIds.Last();
      ElectIs(cfg, me, n, now);
      candidate := new CandidateVotes.Candidate(v, last, cfg.joint);
      assert SetOf(candidate.granted) == {};
      assert View() == n.(candidate := Some(Candidate(Vote(v, false), LastId(n.log), {})));
      var ok := UpdateVoteTo(Vote(v, false), now);
    }

    /** `handle_tick_election`. */
    method HandleTickElection(now: nat)
      requires Valid()
      requires vote.lastUpdate.Some? ==> vote.lastUpdate.value <= now
      modifies this`leader, this`accepted, this`candidate, this`seenGreater, vote, logIds
      ensures Valid() && fresh(Owned() - old(Owned()))
      ensures View() == TickElection(cfg, me, old(View()), now)
    {
      hide Keys, UpdateVote, EngineSpec.Elect, CandidateVotes.Candidate.Valid;
      if IsLeadingNow() && vote.data.committed {
        return;
      }
      if !cfg.IsVoter(me) {
        return;
      }
      VoterIsMember(cfg, me);
      if !cfg.IsOnlyVoter(me) {
        var timeout := cfg.electionTimeout + (if seenGreater then cfg.smallerLogTimeout else 0);
        if !vote.IsExpired(now, timeout) {
          return;
        }
      }
      seenGreater := false;
      Elect(now);
    }

    /** `handle_vote_req`. A request of another node keeps the engine valid. */
    method HandleVoteRequest(v: LeaderId, last: Option<LogId>, now: nat) returns (reply: VoteReply)
      requires Valid()
      requires vote.lastUpdate.Some? ==> vote.lastUpdate.value <= now
      modifies this`leader, this`accepted, this`candidate, vote, logIds
      ensures Base() && LeaderOk() && (v.node != me ==> Valid()) && fresh(Owned() - old(Owned()))
      ensures (View(), reply) == HandleVoteReq(cfg, me, old(View()), Vote(v, false), last, now)
    {
      hide Keys, UpdateVote, CandidateVotes.Candidate.Valid;
      var mine := logIds.Last();
      if vote.data.committed {
        if !vote.IsExpired(now, 0) {
          return VoteReply(vote.data, mine, false);
        }
      }
      if !OptLe(mine, last) {
        return VoteReply(vote.data, mine, false);
      }
      ghost var n := View();
      UncommittedGives(cfg, me, n, Vote(v, false), now);
      if v.node != me {
        UpdateVoteGives(cfg, me, n, Vote(v, false), now);
      }
      var ok := UpdateVoteTo(Vote(v, false), now);
      return VoteReply(vote.data, mine, ok);
    }

    /** `establish_leader`: the candidacy turns into leadership, unless a leader with a vote that is
        not smaller is in the way. */
    method EstablishLeader(now: nat)
      requires Valid() && candidate != null
      requires vote.lastUpdate.Some? ==> vote.lastUpdate.value <= now
      modifies this`leader, this`accepted, this`candidate, vote, logIds
      ensures Valid() && fresh(Owned() - old(Owned()))
      ensures View() == Establish(cfg, me, old(View()), now)
    {
      hide Keys, UpdateVote, LeaderAppend, NewLeading, CandidateVotes.Candidate.Valid;
      var c, last := candidate.vote, candidate.lastLogId;
      candidate := null;
      match leader {
        case None =>
        case Some(l) =>
          if !VoteLt(Vote(l.id, true), Vote(c, false)) {
            return;
          }
      }
      ghost var n := View();
      var l := NewLeading(cfg, c, last, last);
      NewLeadingIs(cfg, c, last);
      leader := Some(l);
      CommitOwnVote(cfg, me, n.(leader := Some(l)), Vote(c, true), now);
      var ok := UpdateVoteTo(Vote(c, true), now);
      AcceptIo(LogIo(c, last));
      LeaderAppendEntries(1);
    }

    /** A granted vote is counted; the one that completes a quorum makes the node leader. */
    method CountVote(target: NodeId, now: nat)
      requires Valid() && candidate != null
      requires vote.lastUpdate.Some? ==> vote.lastUpdate.value <= now
      modifies this`leader, this`accepted, this`candidate, vote, logIds, Owned()
      ensures Valid() && fresh(Owned() - old(Owned()))
      ensures View() == GrantedBy(cfg, me, old(View()), target, now)
    {
      hide Keys, Establish, IsQuorum, SetOf, CandidateVotes.Candidate.Valid;
      SetOfMore(candidate.granted, target);
      var quorum := candidate.GrantBy(target);
      if quorum {
        EstablishLeader(now);
      }
    }

    /** A rejection shows whether another node has more log, and a vote to follow. */
    method TakeRejection(reply: VoteReply, now: nat)
      requires Valid() && candidate != null
      requires vote.lastUpdate.Some? ==> vote.lastUpdate.value <= now
      modifies this`leader, this`accepted, this`candidate, this`seenGreater, vote, logIds
      ensures Base() && LeaderOk() && fresh(Owned() - old(Owned()))
      ensures (reply.vote.leader.node == me ==> Le(reply.vote.leader, old(vote.data).leader)) ==> Valid()
      ensures View() == RejectedBy(cfg, me, old(View()), reply, now)
    {
      hide Keys, UpdateVote, IsQuorum, SetOf, IoLt, CandidateVotes.Candidate.Valid;
      var mine := logIds.Last();
      if !OptLe(reply.lastLogId, mine) {
        seenGreater := true;
      }
      if reply.vote.leader.node == me ==> Le(reply.vote.leader, vote.data.leader) {
        RejectionKeeps(cfg, me, View(), Vote(reply.vote.leader, false), now);
      }
      var ok := UpdateVoteTo(Vote(reply.vote.leader, false), now);
    }

    /** `handle_vote_resp`. A rejection that carries no later vote of this node keeps the engine valid. */
    method HandleVoteResponse(target: NodeId, candidateVote: LeaderId, reply: VoteReply, now: nat)
      requires Valid()
      requires vote.lastUpdate.Some? ==> vote.lastUpdate.value <= now
      modifies this`leader, this`accepted, this`candidate, this`seenGreater, vote, logIds, Owned()
      ensures Base() && LeaderOk()
      ensures (reply.vote.leader.node == me ==> Le(reply.vote.leader, old(vote.data).leader)) ==> Valid()
      ensures fresh(Owned() - old(Owned()))
      ensures View() == HandleVoteResp(cfg, me, old(View()), target, candidateVote, reply, now)
    {
      hide Keys, UpdateVote, GrantedBy, IsQuorum, SetOf, IoLt, CandidateVotes.Candidate.Valid;
      if candidate == null || candidate.vote != candidateVote {
        return;
      }
      if reply.granted && reply.vote == Vote(candidate.vote, false) {
        CountVote(target, now);
      } else {
        TakeRejection(reply, now);
      }
    }

    // ----- Append entries ---------------------------------------------------------

    /** `has_log_id`. */
    method HasId(id: LogId) returns (r: bool)
      requires Base()
      ensures r == HasLogId(View(), id)
    {
      if id.index < NextIndex(committed) {
        return true;
      }
      var local := logIds.Get(id.index);
      return local == Some(id);
    }

    /** `first_conflicting_index` of entries that start at index `start`. */
    method FirstConflict(start: nat, entries: Log) returns (r: nat)
      requires Base()
      ensures r == FirstConflicting(View(), start, entries)
    {
      for i := 0 to |entries|
        invariant FirstConflicting(View(), start, entries) == FirstConflicting(View(), start, entries, i)
      {
        var has := HasId(LogId(entries[i], start + i));
        if !has {
          return i;
        }
      }
      return |entries|;
    }

    /** `truncate_logs`: an absent index leaves the log alone. */
    method TruncateLogs(since: nat)
      requires Base()
      modifies logIds
      ensures logIds.Valid() && logIds.first == 0
      ensures logIds.log == Truncate(old(logIds.log), since)
    {
      var at := logIds.Get(since);
      if at.None? {
        return;
      }
      logIds.Truncate(since);
    }

    /** Deletes the log from `at` on and appends `rest` there, `do_append_entries`. */
    method ReplaceFrom(at: nat, rest: Log)
      requires Base() && at <= |logIds.log| && |rest| > 0 && Sorted(rest)
      requires at > 0 ==> Le(logIds.log[at - 1], rest[0])
      modifies logIds
      ensures logIds.Valid() && logIds.first == 0 && logIds.log == old(logIds.log)[..at] + rest
    {
      hide Keys, CandidateVotes.Candidate.Valid;
      TruncateLogs(at);
      assert logIds.log == old(logIds.log)[..at];
      var ids := Numbered(rest, at);
      logIds.Extend(ids);
      assert Leaders(ids) == rest;
    }

    /** The follower takes a batch that continues its log at `prev`. */
    method TakeBatch(prev: Option<LogId>, entries: Log)
      requires Base() && vote.data.committed && leader.None? && candidate == null
      requires Continues(View(), prev, entries)
      requires |entries| > 0 ==> Le(entries[|entries| - 1], vote.data.leader)
      modifies this`accepted, logIds
      ensures Valid() && View() == FollowerAppend(old(View()), prev, entries)
    {
      hide Keys, CandidateVotes.Candidate.Valid, HasLogId, LastRunStart, Continues, TakeEntries, Sorted, IoLt;
      ghost var n := View();
      AcceptIo(LogIo(vote.data.leader, EntriesLast(prev, entries)));
      ghost var n1 := View();
      SameContinues(n, n1, prev, entries);
      var start := NextIndex(prev);
      var since := FirstConflict(start, entries);
      if since < |entries| {
        BatchJoins(n1, prev, entries, since);
        ReplaceFrom(start + since, entries[since..]);
      } else {
        NothingNew(n1, start, entries);
      }
    }

    /** `append_entries`: the vote first, then the previous log id, then the entries. */
    method AppendEntriesFrom(u: LeaderId, prev: Option<LogId>, entries: Log, now: nat) returns (reply: AppendReply)
      requires Valid() && u.node != me
      requires VoteLe(vote.data, Vote(u, true)) && (prev.Some? ==> HasLogId(View(), prev.value)) ==>
                 Continues(View(), prev, entries) && (|entries| > 0 ==> Le(entries[|entries| - 1], u))
      requires vote.lastUpdate.Some? ==> vote.lastUpdate.value <= now
      modifies this`leader, this`accepted, this`candidate, vote, logIds
      ensures Valid() && fresh(Owned() - old(Owned()))
      ensures (View(), reply) == AppendEntries(cfg, me, old(View()), u, prev, entries, now)
    {
      hide Keys, UpdateVote, HasLogId, TakeEntries, Continues, CandidateVotes.Candidate.Valid;
      ghost var n := View();
      UpdateVoteGives(cfg, me, n, Vote(u, true), now);
      UpdateVoteFrame(cfg, me, n, Vote(u, true), now);
      var ok := UpdateVoteTo(Vote(u, true), now);
      if !ok {
        return HigherVote(vote.data);
      }
      SameContinues(n, View(), prev, entries);
      if prev.Some? {
        var has := HasId(prev.value);
        if !has {
          TruncateKeepsOrder(logIds.keyLogIds, logIds.log, prev.value.index);
          TruncateLogs(prev.value.index);
          return Conflict;
        }
      }
      TakeBatch(prev, entries);
      return Success;
    }
  }
}
