/** What the handlers do to a node, told by what holds before and after them and not by how it is computed. */
module EngineLaws {
  import opened Ids
  import opened Quorum
  import opened EngineSpec

  // ----- Log I/O ------------------------------------------------------------------

  /** `a` comes no later than `b`: by leader first, saving a vote before writing under it, then by log id. */
  ghost predicate NoLater(a: IoId, b: IoId) {
    || Lt(a.leader, b.leader)
    || (a.leader == b.leader && (a.VoteIo? || (b.LogIo? && OptLe(a.logId, b.logId))))
  }

  /** Of what was accepted and what comes, the later one is accepted, and nothing else changes. */
  lemma AcceptsLater(n: Node, io: IoId)
    ensures var n' := AcceptLogIo(n, io);
            && n' == n.(accepted := n'.accepted) && n'.accepted.Some?
            && (n'.accepted == Some(io) || n'.accepted == n.accepted)
            && NoLater(io, n'.accepted.value)
            && (n.accepted.Some? ==> NoLater(n.accepted.value, n'.accepted.value))
  {
  }

  // ----- Commit -------------------------------------------------------------------

  /** `a` was announced no later than `b`. */
  ghost predicate NoNewer(a: Announced, b: Announced) {
    Lt(a.leader, b.leader) || (a.leader == b.leader && OptLe(a.logId, b.logId))
  }

  /** `x` was announced by a leader whose vote is not above that under which the node has accepted it. */
  ghost predicate Committable(n: Node, x: LogId) {
    && n.announced.Some? && n.accepted.Some? && n.accepted.value.LogIo?
    && Le(n.announced.value.leader, n.accepted.value.leader)
    && OptLe(Some(x), n.announced.value.logId) && OptLe(Some(x), n.accepted.value.logId)
  }

  /** Of two announcements the newer one is kept, and everything that can be committed then is, and nothing more. */
  lemma CommitsAll(n: Node, a: Announced)
    ensures var n' := UpdateCommitted(n, a);
            && n' == n.(announced := n'.announced, committed := n'.committed) && n'.announced.Some?
            && (n'.announced == Some(a) || n'.announced == n.announced)
            && NoNewer(a, n'.announced.value) && (n.announced.Some? ==> NoNewer(n.announced.value, n'.announced.value))
            && forall x :: OptLe(Some(x), n'.committed) <==> OptLe(Some(x), n.committed) || Committable(n', x)
  {
  }

  /** A leader that is handed an entry of its own commits it, and announces it to itself. */
  lemma LeaderCommits(n: Node, granted: Option<LogId>)
    ensures var n' := TryCommit(n, granted);
            if granted.Some? && granted.value.leader != n.vote.leader then n' == n
            else
              && n' == n.(announced := n'.announced, committed := n'.committed) && n'.announced.Some?
              && NoNewer(Announced(n.vote.leader, granted), n'.announced.value)
              && forall x :: OptLe(Some(x), n'.committed) <==> OptLe(Some(x), n.committed) || OptLe(Some(x), granted)
  {
  }

  // ----- Votes --------------------------------------------------------------------

  /** A vote is below another by its leader id, or is the uncommitted form of it. */
  ghost predicate NotBelow(v: Vote, w: Vote) {
    Lt(w.leader, v.leader) || (w.leader == v.leader && (w.committed ==> v.committed))
  }

  /** A vote of another node is taken exactly when it is not below the present one. Then the node follows, holds a
      lease if the vote is committed, and has at least the saving of that vote accepted. */
  lemma FollowsVote(cfg: Config, me: NodeId, n: Node, v: Vote, now: nat)
    requires v.leader.node != me
    ensures var r := UpdateVote(cfg, me, n, v, now);
            && (r.Some? <==> NotBelow(v, n.vote))
            && (r.Some? ==>
                  && r.value == n.(vote := v, utime := Some(now), lease := r.value.lease, accepted := r.value.accepted,
                                   leader := None, candidate := None)
                  && r.value.lease == (if v.committed then cfg.leaderLease else 0)
                  && (v == n.vote ==> r.value.accepted == n.accepted)
                  && (v != n.vote ==>
                        && r.value.accepted.Some?
                        && NoLater(if v.committed then LogIo(v.leader, None) else VoteIo(v.leader), r.value.accepted.value)
                        && (n.accepted.Some? ==> NoLater(n.accepted.value, r.value.accepted.value))))
  {
  }

  /** Appending leaves the entries at the end of the log, with the leader's last id and the accepted I/O there. */
  lemma LeaderAppends(n: Node, count: nat)
    requires n.leader.Some? && n.leader.value.lastLogId == LastId(n.log)
    ensures var n', l := LeaderAppend(n, count), n.leader.value;
            && n'.log == n.log + Repeat(l.id, count)
            && n'.leader == Some(l.(lastLogId := LastId(n'.log)))
            && n' == n.(log := n'.log, leader := n'.leader, accepted := n'.accepted)
            && (count == 0 ==> n'.accepted == n.accepted)
            && (count > 0 ==>
                  && n'.accepted.Some? && NoLater(LogIo(l.id, LastId(n'.log)), n'.accepted.value)
                  && (n.accepted.Some? ==> NoLater(n.accepted.value, n'.accepted.value)))
  {
    var log := n.log + Repeat(n.leader.value.id, count);
    assert NextIndex(LastId(n.log)) == |n.log|;
    if count > 0 {
      assert log[|log| - 1] == Repeat(n.leader.value.id, count)[count - 1];
    }
  }

  /** `i` is the first index at which the log holds an entry of `u`. */
  ghost predicate FirstOf(log: Log, u: LeaderId, i: nat) {
    i < |log| && log[i] == u && forall k :: 0 <= k < i ==> log[k] != u
  }

  /** A node that becomes leader by its own committed vote ends its log with an entry of its own, blank if it had none;
      it knows where its entries start and end, and nothing of its followers. */
  lemma BecomesLeader(cfg: Config, n: Node)
    requires Sorted(n.log) && (|n.log| > 0 ==> Le(n.log[|n.log| - 1], n.vote.leader))
    requires n.leader.Some? ==> n.leader.value.id != n.vote.leader
    ensures var n', u := BecomeLeader(cfg, n), n.vote.leader;
            && n'.log == (if |n.log| > 0 && n.log[|n.log| - 1] == u then n.log else n.log + [u])
            && n' == n.(log := n'.log, leader := n'.leader, accepted := n'.accepted) && n'.leader.Some?
            && var l := n'.leader.value;
               && l.id == u && l.lastLogId == LastId(n'.log) && l.noop.leader == u && FirstOf(n'.log, u, l.noop.index)
               && l.progress == (map q | q in cfg.members :: None) && l.clock == (map q | q in cfg.members :: None)
               && n'.accepted.Some? && NoLater(LogIo(u, LastId(n'.log)), n'.accepted.value)
  {
    hide LastRunStart, Sorted, IoLt, AcceptLogIo, NoLater, LeaderAppend;
    var u, last := n.vote.leader, LastId(n.log);
    var first := if |n.log| == 0 then None else Some(LogId(n.log[LastRunStart(n.log)], LastRunStart(n.log)));
    var l := NewLeading(cfg, u, first, last);
    var n1 := AcceptLogIo(n.(leader := Some(l)), LogIo(u, last));
    AcceptsLater(n.(leader := Some(l)), LogIo(u, last));
    assert Repeat(u, 1) == [u] && NextIndex(last) == |n.log|;
    if |n.log| > 0 {
      OwnRun(n.log, u);
    }
    if |n.log| == 0 || n.log[|n.log| - 1] != u {
      LeaderAppends(n1, 1);
    }
  }

  /** Where the entries of `u` start in a log that goes no further than `u`. */
  lemma OwnRun(log: Log, u: LeaderId)
    requires |log| > 0 && Sorted(log) && Le(log[|log| - 1], u)
    ensures log[|log| - 1] == u ==> FirstOf(log, u, LastRunStart(log))
    ensures log[|log| - 1] != u ==> FirstOf(log + [u], u, |log|)
  {
    hide LastRunStart;
    var k := LastRunStart(log);
    assert k > 0 ==> Le(log[k - 1], log[|log| - 1]) && forall i :: 0 <= i < k ==> Le(log[i], log[k - 1]);
    forall i | 0 <= i < |log| && log[i] == u ensures log[|log| - 1] == u && i >= k {
      assert Le(log[i], log[|log| - 1]);
    }
  }

  // ----- Elections ----------------------------------------------------------------

  /** The first moment at which a node that heard from a leader or a candidate at `t` stands for election itself. */
  function StandsFrom(cfg: Config, n: Node, t: nat): nat {
    t + n.lease + cfg.electionTimeout + 1 + if n.seenGreater then cfg.smallerLogTimeout else 0
  }

  /** A node stands for election exactly when it does not lead, votes, and is the only voter or has heard of nobody for
      long enough. It votes for itself in the next term, and is its candidate with nothing granted yet. */
  lemma ElectsFrom(cfg: Config, me: NodeId, n: Node, now: nat)
    requires cfg.Valid()
    ensures TickElects(cfg, me, n, now) <==>
              && !(n.vote == Vote(LeaderId(n.vote.leader.term, me), true) && me in cfg.members)
              && (exists i :: 0 <= i < |cfg.joint| && me in cfg.joint[i])
              && (|| n.utime.None? || now >= StandsFrom(cfg, n, n.utime.value)
                  || forall i, q :: 0 <= i < |cfg.joint| && q in cfg.joint[i] ==> q == me)
    ensures !TickElects(cfg, me, n, now) ==> TickElection(cfg, me, n, now) == n
    ensures TickElects(cfg, me, n, now) ==> Stood(me, n, TickElection(cfg, me, n, now), now)
  {
    hide Elect, Stood;
    if TickElects(cfg, me, n, now) {
      Stands(cfg, me, n.(seenGreater := false), now);
      SeenIsApart(me, n, TickElection(cfg, me, n, now), now);
    }
  }

  /** `n'` is `n` standing in the next term. */
  ghost predicate Stood(me: NodeId, n: Node, n': Node, now: nat) {
    var vote := Vote(LeaderId(n.vote.leader.term + 1, me), false);
    && n' == n.(vote := vote, utime := Some(now), lease := 0, candidate := n'.candidate, accepted := n'.accepted,
                seenGreater := false)
    && n'.candidate == Some(Candidate(vote, LastId(n.log), {}))
    && n'.accepted.Some? && NoLater(VoteIo(vote.leader), n'.accepted.value)
    && (n.accepted.Some? ==> NoLater(n.accepted.value, n'.accepted.value))
  }

  lemma Stands(cfg: Config, me: NodeId, n: Node, now: nat)
    requires me in cfg.members && !n.seenGreater
    ensures Stood(me, n, Elect(cfg, me, n, now), now)
  {
  }

  lemma SeenIsApart(me: NodeId, n: Node, n': Node, now: nat)
    requires Stood(me, n.(seenGreater := false), n', now)
    ensures Stood(me, n, n', now)
  {
  }

  /** A lease granted by a committed vote has not run out. */
  ghost predicate Leased(n: Node, now: nat) {
    n.vote.committed && n.utime.Some? && now <= n.utime.value + n.lease
  }

  /** A vote is granted exactly when no lease stands against it, the log of the candidate is not behind, and the vote
      is not below the present one. A refusal changes nothing and carries the vote and the last log id of the node. */
  lemma VoteAnswered(cfg: Config, me: NodeId, n: Node, v: Vote, last: Option<LogId>, now: nat)
    requires v.leader.node != me
    ensures var (n', r) := HandleVoteReq(cfg, me, n, v, last, now);
            && (r.granted <==> !Leased(n, now) && OptLe(LastId(n.log), last) && NotBelow(v, n.vote))
            && (r.granted ==> n'.vote == v && r.vote == v && n'.log == n.log)
            && (!r.granted ==> n' == n && r.vote == n.vote)
            && r.lastLogId == LastId(n.log)
  {
    hide IoLt;
    FollowsVote(cfg, me, n, v, now);
  }

  /** A rejection that shows a greater log than its own delays the next election of the node, and its vote is followed
      in the uncommitted form when it is not below. */
  lemma RejectionNoted(cfg: Config, me: NodeId, n: Node, reply: VoteReply, now: nat)
    ensures var n' := RejectedBy(cfg, me, n, reply, now);
            && (n'.seenGreater <==> n.seenGreater || !OptLe(reply.lastLogId, LastId(n.log)))
            && n'.vote == (if NotBelow(Vote(reply.vote.leader, false), n.vote) then Vote(reply.vote.leader, false) else n.vote)
            && n'.log == n.log && n'.committed == n.committed && n'.announced == n.announced
  {
    hide IoLt;
  }

  /** A response to an earlier candidacy is ignored. A grant of the present one is counted, and nothing else changes
      unless the granters are a quorum then; anything else is a rejection. */
  lemma ResponseCounted(cfg: Config, me: NodeId, n: Node, target: NodeId, asked: LeaderId, reply: VoteReply, now: nat)
    ensures var n' := HandleVoteResp(cfg, me, n, target, asked, reply, now);
            if n.candidate.None? || n.candidate.value.vote != Vote(asked, false) then n' == n
            else if reply.granted && reply.vote == Vote(asked, false) then
              var granters := n.candidate.value.granters + {target};
              !IsQuorum(cfg.joint, granters) ==>
                n'.candidate.Some? && n' == n.(candidate := n'.candidate)
                && n'.candidate.value == n.candidate.value.(granters := granters)
            else n' == RejectedBy(cfg, me, n, reply, now)
    ensures n.candidate.Some? && n.leader.None? && n.candidate.value.vote == n.vote == Vote(asked, false) && asked.node == me
            && me in cfg.members && n.accepted == Some(VoteIo(asked)) && n.candidate.value.lastLogId == LastId(n.log)
            && reply.granted && reply.vote == Vote(asked, false)
            && IsQuorum(cfg.joint, n.candidate.value.granters + {target}) ==>
              var n' := HandleVoteResp(cfg, me, n, target, asked, reply, now);
              && n'.vote == Vote(asked, true) && n'.candidate.None? && n'.leader.Some? && n'.leader.value.id == asked
              && n'.log == n.log + [asked] && n'.utime == Some(now) && n'.lease == cfg.leaderLease
              && n'.accepted.Some? && NoLater(LogIo(asked, LastId(n'.log)), n'.accepted.value)
              && n'.committed == n.committed && n'.announced == n.announced
  {
    hide IsQuorum, RejectedBy, NewLeading;
    assert Repeat(asked, 1) == [asked] && NextIndex(LastId(n.log)) == |n.log|;
    if n.candidate.Some? {
      NewIs(cfg, n.candidate.value.vote.leader, n.candidate.value.lastLogId);
    }
  }

  lemma NewIs(cfg: Config, id: LeaderId, last: Option<LogId>)
    ensures NewLeading(cfg, id, last, last).id == id && NewLeading(cfg, id, last, last).lastLogId == last
  {
  }

  // ----- Append entries -----------------------------------------------------------

  /** What the node has at or below its commit, or in its log. */
  ghost predicate Held(n: Node, id: LogId) {
    (n.committed.Some? && id.index <= n.committed.value.index) || (id.index < |n.log| && n.log[id.index] == id.leader)
  }

  /** The last id of a request: that of its last entry, or `prev` if there is none or it is greater. */
  ghost predicate IsLast(last: Option<LogId>, prev: Option<LogId>, entries: Log) {
    var end := if |entries| == 0 then None
               else Some(LogId(entries[|entries| - 1], (if prev.Some? then prev.value.index + 1 else 0) + |entries| - 1));
    OptLe(prev, last) && OptLe(end, last) && (last == prev || last == end)
  }

  /** A request of a lower vote is refused and changes nothing. Any other is followed: it conflicts exactly when its
      previous entry is not there, and then the log is cut before that; otherwise its last id is accepted. */
  lemma AppendAnswered(cfg: Config, me: NodeId, n: Node, u: LeaderId, prev: Option<LogId>, entries: Log, now: nat)
    requires u.node != me
    ensures var (n', r) := AppendEntries(cfg, me, n, u, prev, entries, now);
            && (r.HigherVote? <==> !NotBelow(Vote(u, true), n.vote)) && (r.HigherVote? ==> r.vote == n.vote && n' == n)
            && (r.Conflict? <==> NotBelow(Vote(u, true), n.vote) && prev.Some? && !Held(n, prev.value))
            && (!r.HigherVote? ==>
                  n'.vote == Vote(u, true) && n'.utime == Some(now) && n'.lease == cfg.leaderLease
                  && n'.committed == n.committed && n'.announced == n.announced)
            && (r.Conflict? ==>
                  |n'.log| == (if prev.value.index <= |n.log| then prev.value.index else |n.log|)
                  && forall i :: 0 <= i < |n'.log| ==> n'.log[i] == n.log[i])
            && (r.Success? && n.accepted.Some? && IoVote(n.accepted.value) == n.vote ==>
                  exists last :: IsLast(last, prev, entries) && n'.accepted.Some? && NoLater(LogIo(u, last), n'.accepted.value))
  {
    hide UpdateVote, FollowerAppend, IoLt;
    FollowsVote(cfg, me, n, Vote(u, true), now);
    if NotBelow(Vote(u, true), n.vote) {
      var n1 := UpdateVote(cfg, me, n, Vote(u, true), now).value;
      TookEntries(n1, prev, entries);
    }
  }

  lemma TookEntries(n: Node, prev: Option<LogId>, entries: Log)
    requires n.vote.committed
    ensures var n' := FollowerAppend(n, prev, entries);
            && n' == n.(log := n'.log, accepted := n'.accepted)
            && IsLast(EntriesLast(prev, entries), prev, entries)
            && n'.accepted.Some? && NoLater(LogIo(n.vote.leader, EntriesLast(prev, entries)), n'.accepted.value)
  {
    hide TakeEntries;
    AcceptsLater(n, LogIo(n.vote.leader, EntriesLast(prev, entries)));
  }

  // ----- What a leader is told ----------------------------------------------------

  /** A report to the present leader leaves the greater of what was known and what is told, of that target alone. */
  lemma ReportRecorded(n: Node, id: LeaderId, target: NodeId, matching: Option<LogId>, granted: Option<LogId>)
    ensures var n' := HandleProgress(n, id, target, matching, granted);
            if n.leader.Some? && n.leader.value.id == id && target in n.leader.value.progress then
              var l := n.leader.value;
              && n'.leader.Some? && n'.leader.value == l.(progress := n'.leader.value.progress)
              && n'.leader.value.progress.Keys == l.progress.Keys
              && (forall q :: q in l.progress && q != target ==> n'.leader.value.progress[q] == l.progress[q])
              && (n'.leader.value.progress[target] == matching || n'.leader.value.progress[target] == l.progress[target])
              && OptLe(matching, n'.leader.value.progress[target]) && OptLe(l.progress[target], n'.leader.value.progress[target])
            else n' == n
  {
  }

  /** A heartbeat reply leaves the later sending time, of that target alone. */
  lemma BeatRecorded(n: Node, id: LeaderId, target: NodeId, sentAt: nat)
    ensures var n' := HandleHeartbeat(n, id, target, sentAt);
            if n.leader.Some? && n.leader.value.id == id && target in n.leader.value.clock then
              var l := n.leader.value;
              && n'.leader.Some? && n' == n.(leader := n'.leader) && n'.leader.value == l.(clock := n'.leader.value.clock)
              && n'.leader.value.clock.Keys == l.clock.Keys
              && (forall q :: q in l.clock && q != target ==> n'.leader.value.clock[q] == l.clock[q])
              && var t := n'.leader.value.clock[target];
                 && t.Some? && (t == Some(sentAt) || t == l.clock[target])
                 && sentAt <= t.value && (l.clock[target].Some? ==> l.clock[target].value <= t.value)
            else n' == n
  {
  }

  /** A higher vote of another node ends the leadership it is reported to, and no other. */
  lemma HigherVoteEnds(cfg: Config, me: NodeId, n: Node, id: LeaderId, higher: Vote, now: nat)
    requires higher.leader.node != me
    ensures var n' := HandleHigherVote(cfg, me, n, id, higher, now);
            if n.leader.Some? && n.leader.value.id == id && NotBelow(higher, n.vote)
            then n'.leader.None? && n'.vote == higher && n'.log == n.log && n'.committed == n.committed
            else n' == n
  {
    FollowsVote(cfg, me, n, higher, now);
  }
}
