/** Single moves of the cluster with what they do, for building runs. */
module TrackedRuns {
  import opened Ids
  import opened Quorum
  import opened ProgressSpec
  import opened EngineSpec
  import B = Ballots
  import opened Cluster
  import opened ClusterVotes
  import opened LeaderProgress
  import opened TrackedCluster

  // ----- Reaching a state ---------------------------------------------------------

  ghost predicate Reachable(cfg: Config, c: Tracked) {
    exists run :: IsTrackedRun(cfg, run) && run[|run| - 1] == c
  }

  lemma RunTo(cfg: Config, c: Tracked) returns (run: seq<Tracked>)
    requires Reachable(cfg, c)
    ensures IsTrackedRun(cfg, run) && |run| > 0 && run[|run| - 1] == c
  {
    run :| IsTrackedRun(cfg, run) && run[|run| - 1] == c;
  }

  lemma Reaches(cfg: Config, c: Tracked, mv: Move)
    requires Reachable(cfg, c) && Can(cfg, c, mv)
    ensures Reachable(cfg, Make(cfg, c, mv))
  {
    hide Can, Make, Init;
    var run :| IsTrackedRun(cfg, run) && run[|run| - 1] == c;
    var c' := Make(cfg, c, mv);
    var more := run + [c'];
    assert Moves(cfg, c, c');
    forall i | 0 <= i < |more| - 1 ensures Moves(cfg, more[i], more[i + 1]) {
      assert i < |run| - 1 ==> Moves(cfg, run[i], run[i + 1]);
    }
    assert IsTrackedRun(cfg, more);
  }

  /** Only the node `q` changed, to `n`, and messages were sent. */
  ghost predicate Becomes(c: Tracked, c': Tracked, q: NodeId, n: Node) {
    c'.sys.nodes == c.sys.nodes[q := n] && c'.sys.now == c.sys.now && c.sys.net <= c'.sys.net
  }

  ghost predicate SameTracks(c: Tracked, c': Tracked) {
    c'.tracks == c.tracks && c'.skipped == c.skipped
  }

  // ----- Elections ----------------------------------------------------------------

  function Granting(from: NodeId, v: LeaderId, log: Log): Msg {
    VoteResp(from, v, VoteReply(Vote(v, false), LastId(log), true))
  }

  function Asking(v: LeaderId, log: Log): Msg {
    VoteReq(v, LastId(log))
  }

  lemma Stand(cfg: Config, c: Tracked, q: NodeId) returns (c': Tracked)
    requires Reachable(cfg, c) && q in c.sys.nodes && q in cfg.members && c.sys.nodes[q].leader.None?
    requires TickElects(cfg, q, c.sys.nodes[q], c.sys.now) && c.sys.nodes[q].log != []
    requires c.sys.nodes[q].accepted.Some? && IoVote(c.sys.nodes[q].accepted.value) == c.sys.nodes[q].vote
    ensures var n := c.sys.nodes[q]; var v := LeaderId(n.vote.leader.term + 1, q);
            && Reachable(cfg, c') && Becomes(c, c', q, Standing(n, v, c.sys.now)) && SameTracks(c, c')
            && Asking(v, n.log) in c'.sys.net && VoteResp(q, v, VoteReply(Vote(v, false), None, true)) in c'.sys.net
  {
    hide TickElection, TickElects, B.Campaign, B.GrantVote, TrackAfter, NewTrack, Reachable, IoVote;
    ElectResult(cfg, q, c.sys.nodes[q], c.sys.now);
    Reaches(cfg, c, Protocol(Tick(q)));
    c' := Make(cfg, c, Protocol(Tick(q)));
  }

  lemma GrantTo(cfg: Config, c: Tracked, x: NodeId, v: LeaderId, log: Log) returns (c': Tracked)
    requires Reachable(cfg, c) && x in c.sys.nodes && cfg.IsVoter(x) && x != v.node && Asking(v, log) in c.sys.net
    requires GrantsVote(cfg, x, c.sys.nodes[x], Vote(v, false), LastId(log), c.sys.now)
    requires c.sys.nodes[x].accepted.Some? && IoVote(c.sys.nodes[x].accepted.value) == c.sys.nodes[x].vote
    ensures var n := c.sys.nodes[x];
            && Reachable(cfg, c') && Becomes(c, c', x, Following(cfg, n, Vote(v, false), c.sys.now))
              && SameTracks(c, c')
            && Granting(x, v, n.log) in c'.sys.net
  {
    hide UpdateVote, Config.IsVoter;
    var n, m := c.sys.nodes[x], Asking(v, log);
    FollowsOther(cfg, x, n, Vote(v, false), c.sys.now);
    Reaches(cfg, c, Protocol(RecvVoteReq(x, m)));
    c' := Make(cfg, c, Protocol(RecvVoteReq(x, m)));
  }

  ghost predicate Stands(n: Node, v: LeaderId, granters: set<NodeId>) {
    n.candidate == Some(Candidate(Vote(v, false), LastId(n.log), granters)) && n.leader.None?
      && n.vote == Vote(v, false)
  }

  lemma CountVote(cfg: Config, c: Tracked, q: NodeId, v: LeaderId, granters: set<NodeId>, m: Msg) returns (c': Tracked)
    requires Reachable(cfg, c) && q in c.sys.nodes && v.node == q && Stands(c.sys.nodes[q], v, granters)
    requires m in c.sys.net && m.VoteResp? && m.candidate == v && m.reply.granted && m.reply.vote == Vote(v, false)
    requires !IsQuorum(cfg.joint, granters + {m.from})
    ensures var n := c.sys.nodes[q];
            && Reachable(cfg, c') && SameTracks(c, c')
            && Becomes(c, c', q, n.(candidate := Some(n.candidate.value.(granters := granters + {m.from}))))
  {
    hide IsQuorum, Establish;
    Reaches(cfg, c, Protocol(RecvVoteResp(q, m)));
    c' := Make(cfg, c, Protocol(RecvVoteResp(q, m)));
  }

  lemma WinVote(cfg: Config, c: Tracked, q: NodeId, v: LeaderId, granters: set<NodeId>, m: Msg) returns (c': Tracked)
    requires Reachable(cfg, c) && q in c.sys.nodes && q in cfg.members && v.node == q
             && Stands(c.sys.nodes[q], v, granters)
    requires m in c.sys.net && m.VoteResp? && m.candidate == v && m.reply.granted && m.reply.vote == Vote(v, false)
    requires IsQuorum(cfg.joint, granters + {m.from})
    requires c.sys.nodes[q].accepted == Some(VoteIo(v))
    requires |c.sys.nodes[q].log| > 0 ==> Le(c.sys.nodes[q].log[|c.sys.nodes[q].log| - 1], v)
    ensures Reachable(cfg, c') && Becomes(c, c', q, Winning(cfg, c.sys.nodes[q], v, c.sys.now))
    ensures c'.tracks == c.tracks[q := NewTrack(cfg)] && c'.skipped == c.skipped
  {
    hide IsQuorum, Establish, NewTrack, Won, B.Raise, UpdateVote, TrackAfter, Reachable, NewLeading;
    var n := c.sys.nodes[q];
    EstablishResult(cfg, q, n.(candidate := Some(n.candidate.value.(granters := granters + {m.from}))), c.sys.now);
    Reaches(cfg, c, Protocol(RecvVoteResp(q, m)));
    c' := Make(cfg, c, Protocol(RecvVoteResp(q, m)));
  }

  ghost predicate VoteSaved(n: Node) {
    n.accepted.Some? && IoVote(n.accepted.value) == n.vote
  }

  function NextVote(n: Node, q: NodeId): LeaderId {
    LeaderId(n.vote.leader.term + 1, q)
  }

  ghost predicate MayStand(cfg: Config, c: Tracked, q: NodeId) {
    && q in c.sys.nodes && q in cfg.members
    && var n := c.sys.nodes[q];
       && n.log != [] && n.leader.None? && VoteSaved(n) && TickElects(cfg, q, n, c.sys.now)
       && Le(n.log[|n.log| - 1], NextVote(n, q))
  }

  ghost predicate MayGrant(cfg: Config, c: Tracked, x: NodeId, v: LeaderId, log: Log) {
    && x in c.sys.nodes && cfg.IsVoter(x) && x != v.node && VoteSaved(c.sys.nodes[x])
    && GrantsVote(cfg, x, c.sys.nodes[x], Vote(v, false), LastId(log), c.sys.now)
  }

  /** Time stands still, no message is lost, and no node comes or goes. */
  ghost predicate Continues(c: Tracked, c': Tracked) {
    c'.sys.nodes.Keys == c.sys.nodes.Keys && c'.sys.now == c.sys.now && c.sys.net <= c'.sys.net
  }

  /** All of `gs` grant the candidate their vote. */
  lemma {:induction false} AskAll(cfg: Config, c: Tracked, v: LeaderId, log: Log, gs: seq<NodeId>) returns (c': Tracked)
    requires Reachable(cfg, c) && NoDuplicates(gs) && Asking(v, log) in c.sys.net
    requires forall x :: x in gs ==> MayGrant(cfg, c, x, v, log)
    ensures Reachable(cfg, c') && SameTracks(c, c') && Continues(c, c')
    ensures forall x :: x in c.sys.nodes ==>
              c'.sys.nodes[x] ==
                if x in gs then Following(cfg, c.sys.nodes[x], Vote(v, false), c.sys.now) else c.sys.nodes[x]
    ensures forall x :: x in gs ==> x in c.sys.nodes && Granting(x, v, c.sys.nodes[x].log) in c'.sys.net
    decreases |gs|
  {
    hide Reachable, GrantsVote, Following, Config.IsVoter;
    if gs == [] {
      c' := c;
    } else {
      var init, x := gs[..|gs| - 1], gs[|gs| - 1];
      assert gs == init + [x] && x !in init;
      var c1 := AskAll(cfg, c, v, log, init);
      assert MayGrant(cfg, c, x, v, log);
      c' := GrantTo(cfg, c1, x, v, log);
    }
  }

  /** The candidate counts the votes of `gs`, which make no quorum yet. */
  lemma {:induction false} CountAll(cfg: Config, c: Tracked, q: NodeId, v: LeaderId, granters: set<NodeId>,
                                    gs: seq<NodeId>)
    returns (c': Tracked)
    requires Reachable(cfg, c) && q in c.sys.nodes && v.node == q && Stands(c.sys.nodes[q], v, granters)
    requires forall x :: x in gs ==> x in c.sys.nodes && x != q && Granting(x, v, c.sys.nodes[x].log) in c.sys.net
    requires !IsQuorum(cfg.joint, granters + SetOf(gs))
    ensures var n := c.sys.nodes[q];
            && Reachable(cfg, c') && SameTracks(c, c')
            && Becomes(c, c', q, n.(candidate := Some(n.candidate.value.(granters := granters + SetOf(gs)))))
    decreases |gs|
  {
    hide Reachable, IsQuorum;
    if gs == [] {
      assert granters + SetOf(gs) == granters;
      c' := c;
    } else {
      var init, x := gs[..|gs| - 1], gs[|gs| - 1];
      assert gs == init + [x];
      assert granters + SetOf(init) + {x} == granters + SetOf(gs);
      if IsQuorum(cfg.joint, granters + SetOf(init)) {
        QuorumGrows(cfg.joint, granters + SetOf(init), granters + SetOf(gs));
      }
      var c1 := CountAll(cfg, c, q, v, granters, init);
      c' := CountVote(cfg, c1, q, v, granters + SetOf(init), Granting(x, v, c.sys.nodes[x].log));
    }
  }

  lemma StandingStands(n: Node, v: LeaderId, now: nat)
    requires n.leader.None?
    ensures var s := Standing(n, v, now); Stands(s, v, {}) && s.accepted == Some(VoteIo(v)) && s.log == n.log
  {
  }

  /** The granters counted do not show in the leader. */
  lemma WinningForgets(cfg: Config, n: Node, n': Node, v: LeaderId, now: nat)
    requires n'.(candidate := None) == n.(candidate := None)
    ensures Winning(cfg, n', v, now) == Winning(cfg, n, v, now)
  {
  }

  lemma FollowingKeepsLog(cfg: Config, n: Node, vote: Vote, now: nat)
    ensures Following(cfg, n, vote, now).log == n.log
  {
  }

  /** Those of `gs` grant, and with their own vote and the last of them the candidate wins. */
  lemma ElectBy(cfg: Config, c: Tracked, q: NodeId, gs: seq<NodeId>) returns (c': Tracked)
    requires Reachable(cfg, c) && MayStand(cfg, c, q) && NoDuplicates(gs) && |gs| > 0
    requires forall x :: x in gs ==> MayGrant(cfg, c, x, NextVote(c.sys.nodes[q], q), c.sys.nodes[q].log)
    requires !IsQuorum(cfg.joint, {q} + SetOf(gs[..|gs| - 1])) && IsQuorum(cfg.joint, {q} + SetOf(gs))
    ensures var n := c.sys.nodes[q]; var v, now := NextVote(n, q), c.sys.now;
            && Reachable(cfg, c') && Continues(c, c')
            && (forall x :: x in c.sys.nodes ==>
                  c'.sys.nodes[x] ==
                    if x == q then Winning(cfg, Standing(n, v, now), v, now)
                    else if x in gs then Following(cfg, c.sys.nodes[x], Vote(v, false), now)
                    else c.sys.nodes[x])
            && c'.tracks == c.tracks[q := NewTrack(cfg)] && c'.skipped == c.skipped
  {
    hide Reachable, GrantsVote, Following, Standing, Winning, NewTrack, IsQuorum, Le, TickElects, Config.IsVoter;
    var n, init, last := c.sys.nodes[q], gs[..|gs| - 1], gs[|gs| - 1];
    var v, now := NextVote(n, q), c.sys.now;
    assert gs == init + [last];
    var c1 := Stand(cfg, c, q);
    StandingStands(n, v, now);
    forall x | x in gs ensures MayGrant(cfg, c1, x, v, n.log) {
      assert MayGrant(cfg, c, x, v, n.log);
    }
    var c2 := AskAll(cfg, c1, v, n.log, gs);
    forall x | x in gs ensures x in c2.sys.nodes && x != q && Granting(x, v, c2.sys.nodes[x].log) in c2.sys.net {
      assert MayGrant(cfg, c, x, v, n.log);
      FollowingKeepsLog(cfg, c.sys.nodes[x], Vote(v, false), now);
    }
    var c3 := CountOwn(cfg, c2, q, v, init);
    var all := {q} + SetOf(init);
    assert all + {last} == {q} + SetOf(gs);
    c' := WinVote(cfg, c3, q, v, all, Granting(last, v, c2.sys.nodes[last].log));
    WinningForgets(cfg, Standing(n, v, now), c3.sys.nodes[q], v, now);
  }

  /** The candidate counts its own vote and those of `gs`. */
  lemma CountOwn(cfg: Config, c: Tracked, q: NodeId, v: LeaderId, gs: seq<NodeId>) returns (c': Tracked)
    requires Reachable(cfg, c) && q in c.sys.nodes && v.node == q && Stands(c.sys.nodes[q], v, {})
    requires VoteResp(q, v, VoteReply(Vote(v, false), None, true)) in c.sys.net
    requires forall x :: x in gs ==> x in c.sys.nodes && x != q && Granting(x, v, c.sys.nodes[x].log) in c.sys.net
    requires !IsQuorum(cfg.joint, {q} + SetOf(gs))
    ensures var n := c.sys.nodes[q];
            && Reachable(cfg, c') && SameTracks(c, c')
            && Becomes(c, c', q, n.(candidate := Some(n.candidate.value.(granters := {q} + SetOf(gs)))))
  {
    hide Reachable, IsQuorum;
    assert {} + {q} == {q};
    if IsQuorum(cfg.joint, {q}) {
      QuorumGrows(cfg.joint, {q}, {q} + SetOf(gs));
    }
    var c1 := CountVote(cfg, c, q, v, {}, VoteResp(q, v, VoteReply(Vote(v, false), None, true)));
    c' := CountAll(cfg, c1, q, v, {q}, gs);
  }

  // ----- Replication --------------------------------------------------------------

  lemma WriteEntries(cfg: Config, c: Tracked, q: NodeId, count: nat) returns (c': Tracked)
    requires Reachable(cfg, c) && q in c.sys.nodes && c.sys.nodes[q].leader.Some? && q in c.tracks
    ensures Reachable(cfg, c') && Becomes(c, c', q, LeaderAppend(c.sys.nodes[q], count)) && SameTracks(c, c')
  {
    var mv := Protocol(Write(q, count));
    Reaches(cfg, c, mv);
    c' := Make(cfg, c, mv);
    LeaderAppendLeads(c.sys.nodes[q], count);
    assert c.tracks[q := c.tracks[q]] == c.tracks;
  }

  lemma LeaderAppendLeads(n: Node, count: nat)
    requires n.leader.Some?
    ensures var n' := LeaderAppend(n, count);
            && n'.leader.Some? && n'.leader.value.id == n.leader.value.id && n'.vote == n.vote
            && n'.leader.value.progress == n.leader.value.progress && n'.log == n.log + Repeat(n.leader.value.id, count)
            && n'.committed == n.committed
  {
  }

  /** A follower whose log is a first part of `entries`, after it has taken them from the leader. */
  function TookAll(cfg: Config, n: Node, u: LeaderId, entries: Log, now: nat): Node {
    n.(vote := Vote(u, true), utime := Some(now), lease := cfg.leaderLease, log := entries, candidate := None,
        leader := None,
       accepted := Some(LogIo(u, LastId(entries))), announced := Announce(n, Announced(u, None)).announced)
  }

  /** The node will take `entries`, which start the log, from leader `u`. */
  ghost predicate MayTake(n: Node, u: LeaderId, entries: Log) {
    && n.log <= entries && n.committed == None && (n.announced.Some? ==> n.announced.value.logId == None)
    && VoteLe(n.vote, Vote(u, true)) && n.accepted.Some? && IoVote(n.accepted.value) == n.vote
    && (n.vote == Vote(u, true) ==> OptLe(IoLogId(n.accepted.value), LastId(entries)))
  }

  lemma PrefixTakes(cfg: Config, x: NodeId, n: Node, u: LeaderId, entries: Log, now: nat)
    requires x != u.node && MayTake(n, u, entries)
    ensures HandleAppend(cfg, x, n, u, None, entries, None, now) == (TookAll(cfg, n, u, entries, now), Success)
  {
    hide UpdateVote, FollowerAppend, UpdateCommitted, EntriesLast;
    FollowsOther(cfg, x, n, Vote(u, true), now);
    var n1 := Following(cfg, n, Vote(u, true), now);
    PrefixAppends(n1, u, entries);
    var n2 := n1.(accepted := Some(LogIo(u, LastId(entries))), log := entries);
    FreshCommits(n2, u);
  }

  lemma PrefixAppends(n: Node, u: LeaderId, entries: Log)
    requires n.vote == Vote(u, true) && n.log <= entries && n.committed == None
    requires n.accepted.Some? && IoVote(n.accepted.value) == n.vote && OptLe(IoLogId(n.accepted.value), LastId(entries))
    ensures FollowerAppend(n, None, entries) == n.(accepted := Some(LogIo(u, LastId(entries))), log := entries)
  {
    hide FirstConflicting;
    assert EntriesLast(None, entries) == LastId(entries);
    var n1 := AcceptLogIo(n, LogIo(u, LastId(entries)));
    LacksRest(n1, entries, 0);
    assert n.log + entries[|n.log|..] == entries;
  }

  lemma FreshCommits(n: Node, u: LeaderId)
    requires n.committed == None && (n.announced.Some? ==> n.announced.value.logId == None)
    ensures UpdateCommitted(n, Announced(u, None)) == n.(announced := Announce(n, Announced(u, None)).announced)
  {
  }

  lemma {:induction false} LacksRest(n: Node, entries: Log, i: nat)
    requires n.log <= entries && n.committed == None && i <= |n.log|
    ensures FirstConflicting(n, 0, entries, i) == |n.log|
    decreases |n.log| - i
  {
    if i < |n.log| {
      LacksRest(n, entries, i + 1);
    }
  }

  function Matching(x: NodeId, u: LeaderId, entries: Log, sentAt: nat): Msg {
    AppendResp(x, u, Success, LastId(entries), sentAt)
  }

  /** The leader sends its first `count` entries to a follower, which takes them. */
  lemma AppendTo(cfg: Config, c: Tracked, q: NodeId, x: NodeId, count: nat) returns (c': Tracked)
    requires Reachable(cfg, c) && q in c.sys.nodes && x in c.sys.nodes && q in c.tracks
    requires var n := c.sys.nodes[q];
             && n.leader.Some? && count <= |n.log| && n.committed == None && x != n.leader.value.id.node
             && MayTake(c.sys.nodes[x], n.leader.value.id, n.log[..count])
    ensures var n, f := c.sys.nodes[q], c.sys.nodes[x]; var u := n.leader.value.id;
            && Reachable(cfg, c') && SameTracks(c, c')
            && Becomes(c, c', x, TookAll(cfg, f, u, n.log[..count], c.sys.now))
            && Matching(x, u, n.log[..count], c.sys.now) in c'.sys.net
  {
    hide HandleAppend, Followed;
    var n, f := c.sys.nodes[q], c.sys.nodes[x];
    var u := n.leader.value.id;
    var send := Protocol(Send(q, 0, count));
    Reaches(cfg, c, send);
    var c1 := Make(cfg, c, send);
    assert c.tracks[q := c.tracks[q]] == c.tracks;
    assert n.log[0..0 + count] == n.log[..count];
    var m := AppendReq(u, None, n.log[..count], None, c.sys.now);
    assert m in c1.sys.net && SameTracks(c, c1) && c1.sys.nodes == c.sys.nodes;
    PrefixTakes(cfg, x, f, u, n.log[..count], c.sys.now);
    assert EntriesLast(None, n.log[..count]) == LastId(n.log[..count]);
    Reaches(cfg, c1, Protocol(RecvAppend(x, m)));
    c' := Make(cfg, c1, Protocol(RecvAppend(x, m)));
  }

  // ----- Reports ------------------------------------------------------------------

  /** What a recorded report does: to the commit of the leader, and to its track. */
  ghost predicate Reported(c: Tracked, c': Tracked, q: NodeId, target: NodeId, matching: Option<LogId>)
    requires q in c.sys.nodes && c.sys.nodes[q].leader.Some? && q in c.tracks
  {
    var n, t := c.sys.nodes[q], c.tracks[q];
    var p := Update(IdOrder(), t.log, target, matching);
    && q in c'.sys.nodes && c'.sys.now == c.sys.now && c.sys.net <= c'.sys.net
    && c'.sys.nodes.Keys == c.sys.nodes.Keys
    && (forall x :: x in c.sys.nodes && x != q ==> c'.sys.nodes[x] == c.sys.nodes[x])
    && c'.tracks == c.tracks[q := t.(log := p)]
    && c'.skipped == (c.skipped || Skips(IdOrder(), t.log, target, matching))
    && c'.sys.nodes[q].leader == Some(n.leader.value.(progress := n.leader.value.progress[target := matching]))
    && c'.sys.nodes[q].log == n.log && c'.sys.nodes[q].vote == n.vote
    && c'.sys.nodes[q].committed == Raised(n, p.accepted)
  }

  /** The commit of a leader that is handed `granted`. */
  function Raised(n: Node, granted: Option<LogId>): Option<LogId> {
    if (granted.Some?
      && granted.value.leader != n.vote.leader) || OptLe(granted, n.committed) then n.committed else granted
  }

  lemma Committing(n: Node, target: NodeId, matching: Option<LogId>, granted: Option<LogId>)
    requires n.leader.Some? && target in n.leader.value.progress
    ensures var n', l := UpdateMatching(n, target, matching, granted), n.leader.value;
            && n'.leader == Some(l.(progress := l.progress[target := matching]))
            && n'.log == n.log && n'.vote == n.vote && n'.committed == Raised(n, granted)
  {
  }

  lemma FlushOwn(cfg: Config, c: Tracked, q: NodeId, upto: LogId) returns (c': Tracked)
    requires Reachable(cfg, c) && q in c.sys.nodes && q in c.tracks && c.sys.nodes[q].leader.Some?
    requires upto.index < |c.sys.nodes[q].log| && upto.leader == c.sys.nodes[q].log[upto.index]
    requires TakesReport(c.sys.nodes[q], c.sys.nodes[q].leader.value.id, q, Some(upto))
    ensures Reachable(cfg, c') && Reported(c, c', q, q, Some(upto))
  {
    hide Update, Skips, UpdateMatching, Raised;
    var g := Update(IdOrder(), c.tracks[q].log, q, Some(upto)).accepted;
    Committing(c.sys.nodes[q], q, Some(upto), g);
    Reaches(cfg, c, Protocol(Flush(q, upto, g)));
    c' := Make(cfg, c, Protocol(Flush(q, upto, g)));
  }

  lemma TakeReport(cfg: Config, c: Tracked, q: NodeId, m: Msg) returns (c': Tracked)
    requires Reachable(cfg, c) && q in c.sys.nodes && q in c.tracks && c.sys.nodes[q].leader.Some?
    requires m in c.sys.net && m.AppendResp? && m.outcome.Success? && q == m.leader.node
    requires TakesReport(c.sys.nodes[q], m.leader, m.from, m.matching)
    ensures Reachable(cfg, c') && Reported(c, c', q, m.from, m.matching)
  {
    hide Update, Skips, UpdateMatching, Raised;
    var g := Update(IdOrder(), c.tracks[q].log, m.from, m.matching).accepted;
    Committing(c.sys.nodes[q], m.from, m.matching, g);
    Reaches(cfg, c, Protocol(RecvProgress(q, m, g)));
    c' := Make(cfg, c, Protocol(RecvProgress(q, m, g)));
  }

  // ----- The clock ----------------------------------------------------------------

  /** A reply to a heartbeat raises the clock of its sender. */
  lemma HearReply(cfg: Config, c: Tracked, q: NodeId, m: Msg) returns (c': Tracked)
    requires Reachable(cfg, c) && q in c.sys.nodes && q in c.tracks && c.sys.nodes[q].leader.Some?
    requires m in c.sys.net && m.AppendResp? && m.outcome.Success? && q == m.leader.node
    requires c.sys.nodes[q].leader.value.id == m.leader
    ensures Reachable(cfg, c') && Becomes(c, c', q, HandleHeartbeat(c.sys.nodes[q], m.leader, m.from, m.sentAt))
    ensures c'.tracks == c.tracks[q := HearsAt(c.tracks[q], m.from, m.sentAt)] && c'.skipped == c.skipped
  {
    hide Increased, IncreaseSkips;
    Reaches(cfg, c, Protocol(RecvHeartbeat(q, m)));
    c' := Make(cfg, c, Protocol(RecvHeartbeat(q, m)));
  }

  lemma LookAtClock(cfg: Config, c: Tracked, q: NodeId) returns (c': Tracked)
    requires Reachable(cfg, c) && q in c.sys.nodes && q in c.tracks && c.sys.nodes[q].leader.Some?
    ensures Reachable(cfg, c') && c'.sys == c.sys && c'.skipped == c.skipped
    ensures c'.tracks == c.tracks[q := HearsAt(c.tracks[q], q, c.sys.now)]
  {
    Reaches(cfg, c, AckedTime(q));
    c' := Make(cfg, c, AckedTime(q));
  }

  lemma Wait(cfg: Config, c: Tracked, d: nat) returns (c': Tracked)
    requires Reachable(cfg, c)
    ensures Reachable(cfg, c') && SameTracks(c, c') && c'.sys == c.sys.(now := c.sys.now + d)
  {
    Reaches(cfg, c, Protocol(Advance(d)));
    c' := Make(cfg, c, Protocol(Advance(d)));
  }
}
