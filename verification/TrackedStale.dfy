/** For how many voters a read under the lease of a leader is right in every run of the code: with four voters or more,
    in any number, there is a run in which it misses a committed entry. */
module TrackedStale {
  import opened Ids
  import opened Quorum
  import opened ProgressSpec
  import opened ProgressRuns
  import F = ProgressFaults
  import opened ProgressSplit
  import opened EngineSpec
  import opened Cluster
  import opened ClusterVotes
  import opened ClusterReads
  import opened LeaderProgress
  import opened Elections
  import opened TrackedCluster
  import opened TrackedSafety
  import opened TrackedReads
  import opened LargeCluster
  import R = TrackedRuns

  type Entries = seq<IdVal<Option<nat>>>

  // ----- Times --------------------------------------------------------------------

  /** When heartbeats are sent and the first leader looks at its clock; at 5 a read is asked for. */
  function When(cfg: Config, i: nat): nat
    requires 1 <= i <= 5
  {
    if i <= 3 then FirstTime(cfg) + i - 1
    else if i == 4 then FirstTime(cfg) + cfg.electionTimeout + 4
    else FirstTime(cfg) + cfg.electionTimeout + 3 + cfg.leaderLease
  }

  /** When the last lease given to a follower runs out. */
  function Until(cfg: Config): nat {
    When(cfg, 3) + cfg.leaderLease
  }

  // ----- The first leader and its clock -------------------------------------------

  ghost function Clock(cfg: Config, c: Tracked): ClockProgress
    requires Large(cfg) && Role(cfg, 0) in c.tracks
  {
    c.tracks[Role(cfg, 0)].clock
  }

  /** The first leader has written nothing but its blank entry, and no follower has more than the first entry. */
  ghost predicate Idle(cfg: Config, c: Tracked)
    requires Large(cfg)
  {
    && Leads(cfg, c, Role(cfg, 0), VoteA(cfg), [GENESIS, VoteA(cfg)], None)
    && c.sys.nodes[Role(cfg, 0)].leader.value.noop == LogId(VoteA(cfg), 1)
    && Role(cfg, 1) in c.sys.nodes && c.sys.nodes[Role(cfg, 1)].log == FIRST
    && forall x :: x in cfg.members && x != Role(cfg, 0) ==> NotAhead(c.sys.nodes[x], VoteA(cfg), FIRST, Until(cfg))
  }

  /** `x` has answered a heartbeat sent at `s`, or is the leader itself and it is `s`. */
  ghost predicate Answered(cfg: Config, c: Tracked, x: NodeId, s: nat)
    requires Large(cfg)
  {
    if x == Role(cfg, 0) then s == c.sys.now else R.Matching(x, VoteA(cfg), FIRST, s) in c.sys.net
  }

  lemma Start(cfg: Config) returns (c: Tracked)
    requires Large(cfg)
    ensures Idle(cfg, c) && c.sys.now == When(cfg, 1) && Role(cfg, 0) in c.tracks
             && Clock(cfg, c) == NewTrack(cfg).clock
  {
    hide R.Reachable, Trails, NewTrack, Role, Tracks;
    c := FirstElected(cfg);
    RolesAre(cfg);
    AreVoters(cfg);
    forall x | x in cfg.members && x != Role(cfg, 0) ensures NotAhead(c.sys.nodes[x], VoteA(cfg), FIRST, Until(cfg)) {
      StartsNotAhead(cfg, c.sys.nodes[x], x);
    }
    StartLogIs(cfg, c, Role(cfg, 1));
  }

  lemma StartLogIs(cfg: Config, c: Tracked, x: NodeId)
    requires Large(cfg) && x in c.sys.nodes && Trails(c.sys.nodes[x], VoteA(cfg), StartLog(cfg, x), FirstTime(cfg))
    ensures c.sys.nodes[x].log == StartLog(cfg, x)
  {
  }

  lemma StartsNotAhead(cfg: Config, n: Node, x: NodeId)
    requires Large(cfg) && Trails(n, VoteA(cfg), StartLog(cfg, x), FirstTime(cfg))
    ensures NotAhead(n, VoteA(cfg), FIRST, Until(cfg))
  {
  }

  /** A heartbeat to all of `xs`, not later than 3, which they answer. */
  lemma Beat(cfg: Config, c: Tracked, xs: seq<NodeId>) returns (c': Tracked)
    requires Large(cfg) && Idle(cfg, c) && NoDuplicates(xs) && c.sys.now <= When(cfg, 3)
    requires forall x :: x in xs ==> x in cfg.members && x != Role(cfg, 0)
    ensures Idle(cfg, c') && R.Continues(c, c') && R.SameTracks(c, c')
    ensures forall x :: x in xs ==> Answered(cfg, c', x, c.sys.now) && c'.sys.nodes[x].vote == Vote(VoteA(cfg), true)
    ensures forall x :: x in c.sys.nodes && x !in xs ==> c'.sys.nodes[x] == c.sys.nodes[x]
  {
    hide R.Reachable, R.MayTake, R.TookAll, Trails, Role, Tracks;
    var q, a, log := Role(cfg, 0), VoteA(cfg), [GENESIS, VoteA(cfg)];
    assert log[..1] == FIRST;
    forall x | x in xs ensures R.MayTake(c.sys.nodes[x], a, log[..1]) {
      assert NotAhead(c.sys.nodes[x], a, FIRST, Until(cfg));
      TrailsVote(c.sys.nodes[x], a, c.sys.nodes[x].log, Until(cfg));
      TrailsTakes(c.sys.nodes[x], a, a, c.sys.nodes[x].log, Until(cfg), FIRST);
    }
    c' := AppendAll(cfg, c, q, a, log, xs, 1);
    forall x | x in xs ensures TookBeat(cfg, c'.sys.nodes[x]) {
      assert NotAhead(c.sys.nodes[x], a, FIRST, Until(cfg));
      BeatTaken(cfg, c.sys.nodes[x], c.sys.now);
    }
  }

  /** A follower after a heartbeat. */
  ghost predicate TookBeat(cfg: Config, n: Node)
    requires Large(cfg)
  {
    NotAhead(n, VoteA(cfg), FIRST, Until(cfg)) && n.log == FIRST && n.vote == Vote(VoteA(cfg), true)
  }

  lemma BeatTaken(cfg: Config, n: Node, now: nat)
    requires Large(cfg) && NotAhead(n, VoteA(cfg), FIRST, Until(cfg)) && now <= When(cfg, 3)
    ensures TookBeat(cfg, R.TookAll(cfg, n, VoteA(cfg), FIRST, now))
  {
    hide Trails, R.TookAll, Role;
    TookTrails(cfg, n, VoteA(cfg), n.log, Until(cfg), FIRST, now);
    TrailsLonger(R.TookAll(cfg, n, VoteA(cfg), FIRST, now), VoteA(cfg), FIRST, now + cfg.leaderLease, Until(cfg));
    TookLog(cfg, n, now);
  }

  lemma TookLog(cfg: Config, n: Node, now: nat)
    requires Large(cfg)
    ensures R.TookAll(cfg, n, VoteA(cfg), FIRST, now).log == FIRST
  {
  }

  /** Nothing but the first leader has changed, and nothing is forgotten. */
  ghost predicate Ticks(cfg: Config, c: Tracked, c': Tracked)
    requires Large(cfg)
  {
    R.Continues(c, c') && forall x :: x in c.sys.nodes && x != Role(cfg, 0) ==> c'.sys.nodes[x] == c.sys.nodes[x]
  }

  /** The first leader raises the time of `x`. */
  lemma Raise(cfg: Config, c: Tracked, x: NodeId, s: nat) returns (c': Tracked)
    requires Large(cfg) && Idle(cfg, c) && Role(cfg, 0) in c.tracks && Answered(cfg, c, x, s)
    requires var w := Value(Clock(cfg, c), x); w.Some? && !TimeLe(Some(s), w.value)
    ensures Idle(cfg, c') && Ticks(cfg, c, c') && Role(cfg, 0) in c'.tracks
    ensures Clock(cfg, c') == Update(TimeOrder(), Clock(cfg, c), x, Some(s))
  {
    hide R.Reachable, Update, Value, Role, Tracks, IncreaseSkips, NotAhead;
    var q, a := Role(cfg, 0), VoteA(cfg);
    if x == q {
      c' := R.LookAtClock(cfg, c, q);
    } else {
      c' := R.HearReply(cfg, c, q, R.Matching(x, a, FIRST, s));
      BeatKeeps(c.sys.nodes[q], a, x, s);
    }
  }

  lemma BeatKeeps(n: Node, u: LeaderId, x: NodeId, s: nat)
    requires n.leader.Some?
    ensures var n' := HandleHeartbeat(n, u, x, s);
            && n'.vote == n.vote && n'.log == n.log && n'.committed == n.committed && n'.leader.Some?
            && n'.leader.value.id == n.leader.value.id && n'.leader.value.noop == n.leader.value.noop
            && n'.leader.value.progress == n.leader.value.progress
  {
  }

  lemma Pass(cfg: Config, c: Tracked, d: nat) returns (c': Tracked)
    requires Large(cfg) && Idle(cfg, c)
    ensures Idle(cfg, c') && R.SameTracks(c, c') && c'.sys == c.sys.(now := c.sys.now + d)
  {
    hide R.Reachable, Role, Tracks, NotAhead;
    c' := R.Wait(cfg, c, d);
  }

  lemma StillAnswered(cfg: Config, c: Tracked, c': Tracked, x: NodeId, s: nat)
    requires Large(cfg) && x != Role(cfg, 0) && Answered(cfg, c, x, s) && c.sys.net <= c'.sys.net
    ensures Answered(cfg, c', x, s)
  {
  }

  // ----- The voters before the four -----------------------------------------------

  /** The first `j` voters have answered the first heartbeat. */
  ghost predicate Filling(cfg: Config, c: Tracked, j: nat)
    requires Large(cfg)
  {
    && Idle(cfg, c) && Role(cfg, 0) in c.tracks
    && Filled(Clock(cfg, c), InOrder(cfg), j, Some(When(cfg, 1)), None) && Clock(cfg, c).voterCount == |Voters(cfg)|
  }

  lemma FilledValue(p: ClockProgress, all: seq<NodeId>, j: nat, z: Option<nat>, i: nat)
    requires Filled(p, all, j, z, None) && j <= i < |all|
    ensures Value(p, all[i]) == Some(None)
  {
    F.ValueAt(p, i);
  }

  lemma {:induction false} AheadAnswer(cfg: Config, c: Tracked, j: nat) returns (c': Tracked)
    requires Large(cfg) && j <= Front(cfg) && Filling(cfg, c, 0)
    requires forall x :: x in Ahead(cfg) ==> Answered(cfg, c, x, When(cfg, 1))
    ensures Filling(cfg, c', j) && Ticks(cfg, c, c')
    decreases j
  {
    hide Idle, Filled, Update, Value, Role, SortedIds, Learners;
    if j == 0 {
      c' := c;
    } else {
      var c1 := AheadAnswer(cfg, c, j - 1);
      var x, z, p := Voters(cfg)[j - 1], Some(When(cfg, 1)), Clock(cfg, c1);
      TimeOrderIsTotal();
      assert InOrder(cfg)[j - 1] == x && Ahead(cfg)[j - 1] == x;
      AheadAre(cfg);
      StillAnswered(cfg, c, c1, x, When(cfg, 1));
      FilledValue(p, InOrder(cfg), j - 1, z, j - 1);
      FillOne(TimeOrder(), p, InOrder(cfg), j - 1, z, None);
      c' := Raise(cfg, c1, x, When(cfg, 1));
    }
  }

  // ----- The four -----------------------------------------------------------------

  /** The four in the middle, each at one of the times or, for 0, at none. */
  ghost function At(cfg: Config, i: nat, e: nat): IdVal<Option<nat>>
    requires Large(cfg) && i < 4 && e <= 4
  {
    IdVal(Role(cfg, i), if e == 0 then None else Some(When(cfg, e)))
  }

  /** Those before the four: the first `j` have answered the heartbeat sent at 3, the others that sent at 1. */
  ghost function Fronts(cfg: Config, j: nat): (f: Entries)
    requires Large(cfg)
    ensures |f| == Front(cfg)
    ensures forall i :: 0 <= i < |f| ==> f[i] == IdVal(Ahead(cfg)[i], Some(When(cfg, if i < j then 3 else 1)))
  {
    seq(Front(cfg), i requires 0 <= i < Front(cfg) => IdVal(Ahead(cfg)[i], Some(When(cfg, if i < j then 3 else 1))))
  }

  /** The clock of the first leader: those before the four, the four, and all others, who have answered nothing. */
  ghost predicate Stage(cfg: Config, c: Tracked, j: nat, mid: Entries, acc: Option<nat>)
    requires Large(cfg)
  {
    && Idle(cfg, c) && Role(cfg, 0) in c.tracks
    && Clock(cfg, c).accepted == acc
    && exists r :: Middle(Clock(cfg, c), Fronts(cfg, j), mid, r) && Silent(r)
  }

  ghost predicate Silent(r: Entries) {
    forall i :: 0 <= i < |r| ==> r[i].val == None
  }

  lemma MiddleValue(p: ClockProgress, f: Entries, mid: Entries, r: Entries, k: nat)
    requires Middle(p, f, mid, r) && k < 4
    ensures Value(p, mid[k].id) == Some(mid[k].val)
  {
    F.ValueAt(p, |f| + k);
    assert p.entries[|f| + k] == mid[k];
  }

  /** A time that moves one of the four up, after which `n` of them are above the accepted one. */
  lemma Rise(cfg: Config, c: Tracked, j: nat, mid: Entries, acc: Option<nat>, k: nat, to: nat, s: nat, n: nat,
             b: Entries)
    returns (c': Tracked)
    requires Large(cfg) && Stage(cfg, c, j, mid, acc) && to <= k < |mid| == 4 && to <= 2 && to < n <= 3
    requires Answered(cfg, c, mid[k].id, s) && (s <= When(cfg, 1) || (j >= Front(cfg) && s <= When(cfg, 3)))
    requires TimeLe(mid[k].val, acc) && !TimeLe(Some(s), acc)
    requires (forall i :: to <= i < k ==> !TimeLe(Some(s), mid[i].val)) && (to > 0 ==> TimeLe(Some(s), mid[to - 1].val))
    requires b == Moved(mid[k := IdVal(mid[k].id, Some(s))], to, k)
    requires (forall i :: 0 <= i < n ==> !TimeLe(b[i].val, acc)) && TimeLe(b[n].val, acc)
    ensures Stage(cfg, c', j, b, if n == 3 then b[2].val else acc) && Ticks(cfg, c, c')
  {
    hide Idle, Middle, Update, Value, Role, Moved, Answered;
    var p, f := Clock(cfg, c), Fronts(cfg, j);
    var r :| Middle(p, f, mid, r) && Silent(r);
    TimeOrderIsTotal();
    MiddleValue(p, f, mid, r, k);
    MiddleRaised(TimeOrder(), p, f, mid, r, k, to, Some(s), n);
    c' := Raise(cfg, c, mid[k].id, s);
  }

  /** A look of the first leader while its time is above the accepted one: it stays where it is. */
  lemma Skip(cfg: Config, c: Tracked, j: nat, mid: Entries, acc: Option<nat>, k: nat) returns (c': Tracked)
    requires Large(cfg) && Stage(cfg, c, j, mid, acc) && k < |mid| == 4 && mid[k].id == Role(cfg, 0)
    requires !TimeLe(mid[k].val, acc) && !TimeLe(Some(c.sys.now), mid[k].val)
    ensures Stage(cfg, c', j, mid[k := IdVal(mid[k].id, Some(c.sys.now))], acc) && Ticks(cfg, c, c')
  {
    hide Idle, Middle, Update, Value, Role;
    var p, f := Clock(cfg, c), Fronts(cfg, j);
    var r :| Middle(p, f, mid, r) && Silent(r);
    TimeOrderIsTotal();
    MiddleValue(p, f, mid, r, k);
    MiddleSkips(TimeOrder(), p, f, mid, r, k, Some(c.sys.now));
    c' := Raise(cfg, c, mid[k].id, c.sys.now);
  }

  lemma FrontValue(p: ClockProgress, f: Entries, mid: Entries, r: Entries, k: nat)
    requires Middle(p, f, mid, r) && k < |f|
    ensures Value(p, f[k].id) == Some(f[k].val)
  {
    F.ValueAt(p, k);
    assert p.entries[k] == f[k];
  }

  /** Those before the four answer the heartbeat sent at 3. */
  lemma {:induction false} AheadAgain(cfg: Config, c: Tracked, mid: Entries, j: nat) returns (c': Tracked)
    requires Large(cfg) && Stage(cfg, c, 0, mid, None) && j <= Front(cfg)
    requires forall x :: x in Ahead(cfg) ==> Answered(cfg, c, x, When(cfg, 3))
    ensures Stage(cfg, c', j, mid, None) && Ticks(cfg, c, c')
    decreases j
  {
    hide Idle, Middle, Update, Value, Role, SortedIds;
    if j == 0 {
      c' := c;
    } else {
      var c1 := AheadAgain(cfg, c, mid, j - 1);
      var x, z, p, f := Ahead(cfg)[j - 1], When(cfg, 3), Clock(cfg, c1), Fronts(cfg, j - 1);
      var r :| Middle(p, f, mid, r) && Silent(r);
      AheadAre(cfg);
      StillAnswered(cfg, c, c1, x, z);
      TimeOrderIsTotal();
      FrontValue(p, f, mid, r, j - 1);
      FrontSkips(TimeOrder(), p, f, mid, r, j - 1, Some(z));
      assert f[j - 1 := IdVal(x, Some(z))] == Fronts(cfg, j);
      c' := Raise(cfg, c1, x, z);
    }
  }

  // ----- The run ------------------------------------------------------------------

  lemma StagesIdle(cfg: Config, c: Tracked, j: nat, mid: Entries, acc: Option<nat>)
    requires Large(cfg) && Stage(cfg, c, j, mid, acc)
    ensures Idle(cfg, c)
  {
  }

  /** Time passes, or followers answer a heartbeat: the clock is as it was. */
  lemma StageStays(cfg: Config, c: Tracked, c': Tracked, j: nat, mid: Entries, acc: Option<nat>)
    requires Large(cfg) && Stage(cfg, c, j, mid, acc) && Idle(cfg, c') && R.SameTracks(c, c')
    ensures Stage(cfg, c', j, mid, acc)
  {
  }

  lemma NewFilled(cfg: Config)
    requires Large(cfg)
    ensures var p := NewTrack(cfg).clock;
            Filled(p, InOrder(cfg), 0, Some(When(cfg, 1)), None) && p.voterCount == |Voters(cfg)|
  {
    hide Role, Learners, New, SortedIds, Filled;
    TimeOrderIsTotal();
    UnionIsMembers(cfg);
    assert cfg.joint == [cfg.joint[0]];
    NewIsFilled(TimeOrder(), cfg.joint[0], Learners(cfg), Some(When(cfg, 1)), None);
  }

  lemma MiddleStage(cfg: Config, c: Tracked)
    requires Large(cfg) && Filling(cfg, c, Front(cfg))
    ensures Stage(cfg, c, 0, [At(cfg, 0, 0), At(cfg, 1, 0), At(cfg, 2, 0), At(cfg, 3, 0)], None)
  {
    hide Idle, Middle, SortedIds, F.OneMajority;
    var k, p := Front(cfg), Clock(cfg, c);
    FilledMiddle(p, InOrder(cfg), Some(When(cfg, 1)), None);
    assert p.entries[k..k + 4] == [At(cfg, 0, 0), At(cfg, 1, 0), At(cfg, 2, 0), At(cfg, 3, 0)];
    assert p.entries[..k] == Fronts(cfg, 0);
    assert Silent(p.entries[k + 4..]);
  }

  lemma StartFilling(cfg: Config, c: Tracked)
    requires Large(cfg) && Idle(cfg, c) && Role(cfg, 0) in c.tracks && Clock(cfg, c) == NewTrack(cfg).clock
    ensures Filling(cfg, c, 0)
  {
    hide Idle, Role, Filled, NewTrack, SortedIds;
    NewFilled(cfg);
  }

  lemma FillingStays(cfg: Config, c: Tracked, c': Tracked)
    requires Large(cfg) && Filling(cfg, c, 0) && Idle(cfg, c') && R.SameTracks(c, c')
    ensures Filling(cfg, c', 0)
  {
    hide Idle, Filled, SortedIds;
  }

  /** At 1 those before the four and voters 2 and 3 answer a heartbeat. */
  lemma FirstAnswers(cfg: Config) returns (c: Tracked)
    requires Large(cfg)
    ensures Filling(cfg, c, 0) && c.sys.now == When(cfg, 1)
    ensures forall x :: x in Ahead(cfg) ==> Answered(cfg, c, x, When(cfg, 1))
    ensures Answered(cfg, c, Role(cfg, 2), When(cfg, 1)) && Answered(cfg, c, Role(cfg, 3), When(cfg, 1))
  {
    hide Idle, Role, Filled, Filling, Answered, NewTrack, SortedIds, Ahead;
    var x2, x3 := Role(cfg, 2), Role(cfg, 3);
    RolesAre(cfg);
    AreVoters(cfg);
    AheadAre(cfg);
    var c0 := Start(cfg);
    StartFilling(cfg, c0);
    var c1 := Beat(cfg, c0, [x2, x3]);
    assert x2 in [x2, x3] && x3 in [x2, x3];
    c := Beat(cfg, c1, Ahead(cfg));
    FillingStays(cfg, c0, c);
    StillAnswered(cfg, c1, c, x2, When(cfg, 1));
    StillAnswered(cfg, c1, c, x3, When(cfg, 1));
  }

  /** The leader hears those before the four and voter 2, and looks. */
  lemma FirstBeat(cfg: Config) returns (c: Tracked)
    requires Large(cfg)
    ensures Stage(cfg, c, 0, [At(cfg, 2, 1), At(cfg, 0, 1), At(cfg, 1, 0), At(cfg, 3, 0)], None)
    ensures c.sys.now == When(cfg, 1) && Answered(cfg, c, Role(cfg, 3), When(cfg, 1))
  {
    hide Idle, Stage, Role, Answered, Ahead, Filling;
    var one, x2, x3 := When(cfg, 1), Role(cfg, 2), Role(cfg, 3);
    RolesAre(cfg);
    var c2 := FirstAnswers(cfg);
    var c3 := AheadAnswer(cfg, c2, Front(cfg));
    MiddleStage(cfg, c3);
    StillAnswered(cfg, c2, c3, x2, one);
    var m0 := [At(cfg, 0, 0), At(cfg, 1, 0), At(cfg, 2, 0), At(cfg, 3, 0)];
    var m1 := [At(cfg, 2, 1), At(cfg, 0, 0), At(cfg, 1, 0), At(cfg, 3, 0)];
    var c4 := Rise(cfg, c3, 0, m0, None, 2, 0, one, 1, m1);
    LooksNow(cfg, c4);
    c := Rise(cfg, c4, 0, m1, None, 1, 1, one, 2, [At(cfg, 2, 1), At(cfg, 0, 1), At(cfg, 1, 0), At(cfg, 3, 0)]);
    StillAnswered(cfg, c2, c, x3, one);
  }

  lemma LooksNow(cfg: Config, c: Tracked)
    requires Large(cfg)
    ensures Answered(cfg, c, Role(cfg, 0), c.sys.now)
  {
  }

  /** Time passes, and then all of `xs` answer a heartbeat. */
  lemma PassAndBeat(cfg: Config, c: Tracked, mid: Entries, d: nat, xs: seq<NodeId>) returns (c': Tracked)
    requires Large(cfg) && Stage(cfg, c, 0, mid, None) && Picked(cfg, xs) && Role(cfg, 0) !in xs
    requires c.sys.now + d <= When(cfg, 3)
    ensures Stage(cfg, c', 0, mid, None) && c'.sys.now == c.sys.now + d && c.sys.net <= c'.sys.net
    ensures forall x :: x in xs ==>
              Answered(cfg, c', x, c'.sys.now) && x in c'.sys.nodes && c'.sys.nodes[x].vote == Vote(VoteA(cfg), true)
    ensures forall x :: x in c.sys.nodes && x !in xs ==> x in c'.sys.nodes && c'.sys.nodes[x] == c.sys.nodes[x]
  {
    hide Idle, Stage, Role, Answered;
    AreVoters(cfg);
    StagesIdle(cfg, c, 0, mid, None);
    var c1 := Pass(cfg, c, d);
    c' := Beat(cfg, c1, xs);
    StageStays(cfg, c, c', 0, mid, None);
    IdleNodes(cfg, c1);
  }

  /** At 2 voter 2 answers again, and the leader looks: the first skip. */
  lemma FirstSkip(cfg: Config) returns (c: Tracked)
    requires Large(cfg)
    ensures Stage(cfg, c, 0, [At(cfg, 2, 1), At(cfg, 0, 2), At(cfg, 1, 0), At(cfg, 3, 0)], None)
    ensures c.sys.now == When(cfg, 2) && Answered(cfg, c, Role(cfg, 3), When(cfg, 1))
             && Answered(cfg, c, Role(cfg, 2), When(cfg, 2))
  {
    hide Stage, Role, Answered;
    RolesAre(cfg);
    var m2, x2 := [At(cfg, 2, 1), At(cfg, 0, 1), At(cfg, 1, 0), At(cfg, 3, 0)], Role(cfg, 2);
    var c0 := FirstBeat(cfg);
    var c2 := PassAndBeat(cfg, c0, m2, 1, [x2]);
    assert x2 in [x2];
    c := Skip(cfg, c2, 0, m2, None, 1);
    assert m2[1 := At(cfg, 0, 2)] == [At(cfg, 2, 1), At(cfg, 0, 2), At(cfg, 1, 0), At(cfg, 3, 0)];
    StillAnswered(cfg, c0, c, Role(cfg, 3), When(cfg, 1));
    StillAnswered(cfg, c2, c, x2, When(cfg, 2));
  }

  /** At 3 voter 1 and those before the four answer a heartbeat, and the leader hears the latter. */
  lemma ThirdAnswers(cfg: Config) returns (c: Tracked)
    requires Large(cfg)
    ensures Stage(cfg, c, Front(cfg), [At(cfg, 2, 1), At(cfg, 0, 2), At(cfg, 1, 0), At(cfg, 3, 0)], None)
    ensures c.sys.now == When(cfg, 3) && Answered(cfg, c, Role(cfg, 3), When(cfg, 1))
             && Answered(cfg, c, Role(cfg, 2), When(cfg, 2))
    ensures Answered(cfg, c, Role(cfg, 1), When(cfg, 3))
    ensures Role(cfg, 1) in c.sys.nodes && c.sys.nodes[Role(cfg, 1)].vote == Vote(VoteA(cfg), true)
  {
    hide Stage, Role, Answered, Ahead, SortedIds;
    RolesAre(cfg);
    AheadAre(cfg);
    var m3, x1 := [At(cfg, 2, 1), At(cfg, 0, 2), At(cfg, 1, 0), At(cfg, 3, 0)], Role(cfg, 1);
    var c0 := FirstSkip(cfg);
    var c1 := PassAndBeat(cfg, c0, m3, 1, [x1]);
    assert x1 in [x1];
    var c2 := PassAndBeat(cfg, c1, m3, 0, Ahead(cfg));
    c := AheadAgain(cfg, c2, m3, Front(cfg));
    StillAnswered(cfg, c0, c, Role(cfg, 3), When(cfg, 1));
    StillAnswered(cfg, c0, c, Role(cfg, 2), When(cfg, 2));
    StillAnswered(cfg, c1, c, x1, When(cfg, 3));
  }

  /** What voter 3 answered at 1 makes that time accepted, and then voter 1 passes all. */
  lemma ThirdBeat(cfg: Config) returns (c: Tracked)
    requires Large(cfg)
    ensures Stage(cfg, c, Front(cfg), [At(cfg, 1, 3), At(cfg, 2, 1), At(cfg, 0, 2), At(cfg, 3, 1)], Some(When(cfg, 1)))
    ensures c.sys.now == When(cfg, 3) && Answered(cfg, c, Role(cfg, 2), When(cfg, 2))
    ensures Role(cfg, 1) in c.sys.nodes && c.sys.nodes[Role(cfg, 1)].vote == Vote(VoteA(cfg), true)
  {
    hide Stage, Role, Answered;
    RolesAre(cfg);
    var one, three, k := When(cfg, 1), When(cfg, 3), Front(cfg);
    var m3 := [At(cfg, 2, 1), At(cfg, 0, 2), At(cfg, 1, 0), At(cfg, 3, 0)];
    var m4 := [At(cfg, 2, 1), At(cfg, 0, 2), At(cfg, 3, 1), At(cfg, 1, 0)];
    var c0 := ThirdAnswers(cfg);
    var c1 := Rise(cfg, c0, k, m3, None, 3, 2, one, 3, m4);
    StillAnswered(cfg, c0, c1, Role(cfg, 1), three);
    c := Rise(cfg, c1, k, m4, Some(one), 3, 0, three, 1, [At(cfg, 1, 3), At(cfg, 2, 1), At(cfg, 0, 2), At(cfg, 3, 1)]);
    StillAnswered(cfg, c0, c, Role(cfg, 2), When(cfg, 2));
  }

  lemma IdleNodes(cfg: Config, c: Tracked)
    requires Large(cfg) && Idle(cfg, c)
    ensures c.sys.nodes.Keys == cfg.members && R.Reachable(cfg, c)
  {
  }

  /** At 4 the leader looks again: the second skip. Then what voter 2 answered at 2 makes 4 the accepted time, which no
      other voter has reached. */
  lemma SecondSkip(cfg: Config) returns (c: Tracked)
    requires Large(cfg)
    ensures Stage(cfg, c, Front(cfg), [At(cfg, 1, 3), At(cfg, 2, 2), At(cfg, 0, 4), At(cfg, 3, 1)], Some(When(cfg, 4)))
    ensures c.sys.now == When(cfg, 4)
    ensures Role(cfg, 1) in c.sys.nodes && c.sys.nodes[Role(cfg, 1)].vote == Vote(VoteA(cfg), true)
  {
    hide Idle, Stage, Role, Answered;
    RolesAre(cfg);
    var m5, acc := [At(cfg, 1, 3), At(cfg, 2, 1), At(cfg, 0, 2), At(cfg, 3, 1)], Some(When(cfg, 1));
    var c0 := ThirdBeat(cfg);
    StagesIdle(cfg, c0, Front(cfg), m5, acc);
    var c1 := Pass(cfg, c0, cfg.electionTimeout + 2);
    StageStays(cfg, c0, c1, Front(cfg), m5, acc);
    var m6 := [At(cfg, 1, 3), At(cfg, 2, 1), At(cfg, 0, 4), At(cfg, 3, 1)];
    var c2 := Skip(cfg, c1, Front(cfg), m5, acc, 2);
    assert m5[2 := At(cfg, 0, 4)] == m6;
    StillAnswered(cfg, c0, c2, Role(cfg, 2), When(cfg, 2));
    c := Rise(cfg, c2, Front(cfg), m6, acc, 1, 1, When(cfg, 2), 3, [At(cfg, 1, 3), At(cfg, 2, 2), At(cfg, 0, 4),
        At(cfg, 3, 1)]);
  }

  /** At 5 every follower's lease has run out, but by its clock the leader still has one. */
  lemma LeasesRunOut(cfg: Config) returns (c: Tracked)
    requires Large(cfg) && cfg.leaderLease > 0
    ensures Stage(cfg, c, Front(cfg), [At(cfg, 1, 3), At(cfg, 2, 2), At(cfg, 0, 4), At(cfg, 3, 1)], Some(When(cfg, 4)))
    ensures c.sys.now == When(cfg, 5) && Ready(cfg, c, FIRST, Until(cfg))
  {
    hide Stage, Role, Leads, Trails, Later, R.Reachable;
    RolesAre(cfg);
    AreVoters(cfg);
    LaterAre(cfg);
    var m7, acc := [At(cfg, 1, 3), At(cfg, 2, 2), At(cfg, 0, 4), At(cfg, 3, 1)], Some(When(cfg, 4));
    var c0 := SecondSkip(cfg);
    StagesIdle(cfg, c0, Front(cfg), m7, acc);
    c := Pass(cfg, c0, cfg.leaderLease - 1);
    StageStays(cfg, c0, c, Front(cfg), m7, acc);
    IdleNodes(cfg, c);
    assert NotAhead(c.sys.nodes[Role(cfg, 1)], VoteA(cfg), FIRST, Until(cfg));
  }

  /** A look of the leader at 5 accepts no other time. */
  lemma LookAtFive(cfg: Config, c: Tracked, c': Tracked)
    requires Large(cfg) && cfg.leaderLease > 0 && c'.sys.now == When(cfg, 5)
    requires Stage(cfg, c, Front(cfg), [At(cfg, 1, 3), At(cfg, 2, 2), At(cfg, 0, 4), At(cfg, 3, 1)], Some(When(cfg, 4)))
    requires Role(cfg, 0) in c'.tracks && c'.tracks[Role(cfg, 0)] == c.tracks[Role(cfg, 0)]
    ensures LastQuorumAcked(c', Role(cfg, 0)) == Some(When(cfg, 4))
  {
    hide Idle, Update, Role, F.OneMajority, Distinct;
    var mid, f, p := [At(cfg, 1, 3), At(cfg, 2, 2), At(cfg, 0, 4), At(cfg, 3, 1)], Fronts(cfg, Front(cfg)),
        Clock(cfg, c);
    var r :| Middle(p, f, mid, r) && Silent(r);
    TimeOrderIsTotal();
    MiddleValue(p, f, mid, r, 2);
    if cfg.leaderLease > 1 {
      forall i | 0 <= i < p.voterCount ensures TimeLe(p.entries[i].val, p.accepted) {
        assert p.entries[i] == if i < |f| then f[i] else if i < |f| + 4 then mid[i - |f|] else r[i - |f| - 4];
      }
      assert p.entries[|f| + 2] == mid[2];
      AloneAbove(TimeOrder(), p, |f| + 2, Some(When(cfg, 5)));
    }
  }

  /** The second leader has committed an entry, and the first one still accepts reads. */
  lemma StaleRead(cfg: Config) returns (c: Tracked)
    requires Large(cfg) && cfg.leaderLease > 0
    ensures R.Reachable(cfg, c) && LeaseRead(cfg, c, Role(cfg, 0)) && Role(cfg, 0) != Role(cfg, 1)
    ensures Role(cfg, 0) in c.sys.nodes && Role(cfg, 1) in c.sys.nodes && c.sys.nodes[Role(cfg, 1)].leader.Some?
    ensures var n, n' := c.sys.nodes[Role(cfg, 0)], c.sys.nodes[Role(cfg, 1)];
            && n.leader.Some? && Lt(n.leader.value.id, n'.leader.value.id)
            && !OptLe(n'.committed, Some(ReadLogId(n)))
  {
    hide Role, R.Reachable, Ready, Stage, Tracks, NotAhead, LastQuorumAcked;
    RolesAre(cfg);
    var m7 := [At(cfg, 1, 3), At(cfg, 2, 2), At(cfg, 0, 4), At(cfg, 3, 1)];
    var c0 := LeasesRunOut(cfg);
    StagesIdle(cfg, c0, Front(cfg), m7, Some(When(cfg, 4)));
    c := SecondCommit(cfg, c0, FIRST, Until(cfg));
    LookAtFive(cfg, c0, c);
  }

  // ----- Leases that do not last --------------------------------------------------

  /** No time known to the clock is ahead of `now`. */
  ghost predicate Past(p: ClockProgress, now: nat) {
    TimeLe(p.accepted, Some(now)) && forall i :: 0 <= i < |p.entries| ==> TimeLe(p.entries[i].val, Some(now))
  }

  lemma {:induction false} ScanPast(q: seq<set<NodeId>>, es: Entries, n: nat, i: nat, acc: Option<nat>, now: nat)
    requires i <= n <= |es| && TimeLe(acc, Some(now)) && forall k :: 0 <= k < n ==> TimeLe(es[k].val, Some(now))
    ensures TimeLe(Scan(TimeOrder(), q, es, n, i, acc), Some(now))
    decreases n - i
  {
    hide IsQuorum;
    if i < n {
      ScanPast(q, es, n, i + 1, acc, now);
    }
  }

  lemma IncreasedPast(p: ClockProgress, id: NodeId, time: nat, now: nat)
    requires Past(p, now) && time <= now
    ensures Past(Increased(p, id, time), now)
  {
    hide Scan, MoveUp, Value;
    var at := Index(p.entries, id);
    if at < |p.entries| {
      var es := p.entries[at := IdVal(id, Some(time))];
      MoveUpIs(TimeOrder(), es, at);
      var (b, to) := MoveUp(TimeOrder(), es, at);
      forall k | 0 <= k < |b| ensures TimeLe(b[k].val, Some(now)) {
        MovedAt(es, to, at, k);
      }
      if at < p.voterCount {
        ScanPast(p.quorumSet, b, p.voterCount, to, p.accepted, now);
      }
    }
  }

  ghost predicate AllPast(c: Tracked) {
    forall q :: q in c.tracks ==> Past(c.tracks[q].clock, c.sys.now)
  }

  lemma NewPast(cfg: Config, now: nat)
    ensures Past(NewTrack(cfg).clock, now)
  {
  }

  lemma MovePast(cfg: Config, c: Tracked, mv: Move)
    requires ElectionInv(cfg, c.sys) && AllPast(c) && Can(cfg, c, mv)
    ensures AllPast(Make(cfg, c, mv))
  {
    hide ElectionInv, Possible, Apply, CommitsReturned, NewTrack, Past, Increased;
    var c' := Make(cfg, c, mv);
    NewPast(cfg, c.sys.now);
    match mv {
      case AckedTime(q) =>
        IncreasedPast(c.tracks[q].clock, q, c.sys.now, c.sys.now);
      case Protocol(st) =>
        if st.Advance? {
          AdvanceIs(cfg, c.sys, st);
          forall q | q in c'.tracks ensures Past(c'.tracks[q].clock, c'.sys.now) {
            PastLater(c.tracks[q].clock, c.sys.now, c'.sys.now);
          }
        } else {
          StepCarries(cfg, c.sys, st);
          var h := Heard(cfg, c.sys, st);
          if h.Some? && st.q in c.tracks {
            HeardIsOther(cfg, c.sys, st);
            IncreasedPast(c.tracks[st.q].clock, h.value.0, h.value.1, c.sys.now);
          }
        }
    }
  }

  lemma PastLater(p: ClockProgress, now: nat, later: nat)
    requires Past(p, now) && now <= later
    ensures Past(p, later)
  {
  }

  lemma {:induction false} AlwaysPast(cfg: Config, run: seq<Tracked>, i: nat)
    requires IsTrackedRun(cfg, run) && i < |run|
    ensures AllPast(run[i])
    decreases i
  {
    hide ElectionInv, ClocksInv, Can, Make, Init, AllPast;
    if i == 0 {
      assert AllPast(run[0]) by {
        NoTracks(run[0]);
      }
    } else {
      AlwaysPast(cfg, run, i - 1);
      ClocksAlwaysOk(cfg, run, i - 1);
      assert Moves(cfg, run[i - 1], run[i - 1 + 1]);
      var mv :| Can(cfg, run[i - 1], mv) && run[i] == Make(cfg, run[i - 1], mv);
      MovePast(cfg, run[i - 1], mv);
    }
  }

  lemma NoTracks(c: Tracked)
    requires c.tracks == map[]
    ensures AllPast(c)
  {
  }

  /** A lease of no length accepts no read. */
  lemma NoLeaseNoRead(cfg: Config, run: seq<Tracked>, i: nat, q: NodeId)
    requires IsTrackedRun(cfg, run) && i < |run| && cfg.leaderLease == 0
    ensures !LeaseRead(cfg, run[i], q)
  {
    hide IsTrackedRun, Increased;
    AlwaysPast(cfg, run, i);
    if q in run[i].tracks {
      IncreasedPast(run[i].tracks[q].clock, q, run[i].sys.now, run[i].sys.now);
    }
  }

  // ----- When reads under a lease are right ---------------------------------------

  /** A read accepted at `i` misses what some node has committed by then, or another leader has a vote that is not
      earlier. */
  ghost predicate Misses(cfg: Config, run: seq<Tracked>, j: nat, i: nat, q: NodeId, p: NodeId) {
    && j <= i < |run| && LeaseRead(cfg, run[i], q) && p in run[j].sys.nodes
    && !OptLe(run[j].sys.nodes[p].committed, Some(ReadLogId(run[i].sys.nodes[q])))
  }

  ghost predicate Rivals(cfg: Config, run: seq<Tracked>, i: nat, q: NodeId, p: NodeId) {
    && i < |run| && LeaseRead(cfg, run[i], q) && p in run[i].sys.nodes && p != q && run[i].sys.nodes[p].leader.Some?
    && !Lt(run[i].sys.nodes[p].leader.value.id, run[i].sys.nodes[q].leader.value.id)
  }

  /** In no run does an accepted read miss a commit. */
  ghost predicate ReadsSeeCommits(cfg: Config) {
    forall run, j, i, q, p :: IsTrackedRun(cfg, run) ==> !Misses(cfg, run, j, i, q, p)
  }

  /** In no run is a read accepted beside a leader with a vote that is not earlier. */
  ghost predicate ReadsAreExclusive(cfg: Config) {
    forall run, i, q, p :: IsTrackedRun(cfg, run) ==> !Rivals(cfg, run, i, q, p)
  }

  lemma SmallIsUnskipped(cfg: Config, run: seq<Tracked>, i: nat, q: NodeId)
    requires Small(cfg) && i < |run| && LeaseRead(cfg, run[i], q)
    ensures Unskipped(cfg, run[i]) && ClockUnskipped(cfg, run[i], q)
  {
  }

  lemma ReadsRight(cfg: Config)
    requires cfg.Valid() && |cfg.joint| == 1 && (|cfg.joint[0]| <= 3 || cfg.leaderLease == 0)
    ensures ReadsSeeCommits(cfg) && ReadsAreExclusive(cfg)
  {
    hide IsTrackedRun, LeaseRead, ReadLogId;
    forall run, j, i, q, p | IsTrackedRun(cfg, run) ensures !Misses(cfg, run, j, i, q, p) {
      if Misses(cfg, run, j, i, q, p) {
        if cfg.leaderLease == 0 {
          NoLeaseNoRead(cfg, run, i, q);
        } else {
          SmallIsUnskipped(cfg, run, i, q);
          LeaseReadSeesAllCommits(cfg, run, j, i, q, p);
        }
      }
    }
    forall run, i, q, p | IsTrackedRun(cfg, run) ensures !Rivals(cfg, run, i, q, p) {
      if Rivals(cfg, run, i, q, p) {
        if cfg.leaderLease == 0 {
          NoLeaseNoRead(cfg, run, i, q);
        } else {
          SmallIsUnskipped(cfg, run, i, q);
          LeaseReadIsExclusive(cfg, run, i, q, p);
        }
      }
    }
  }

  /** With one majority config, reads under a lease see every commit and exclude every other leader in all runs of the
      code if and only if there are at most three voters, or leases have no length. */
  lemma ReadsExactly(cfg: Config)
    requires cfg.Valid() && |cfg.joint| == 1
    ensures ReadsSeeCommits(cfg) <==> |cfg.joint[0]| <= 3 || cfg.leaderLease == 0
    ensures ReadsAreExclusive(cfg) <==> |cfg.joint[0]| <= 3 || cfg.leaderLease == 0
  {
    hide IsTrackedRun, R.Reachable, LeaseRead, SortedIds, Role, ReadLogId;
    if |cfg.joint[0]| <= 3 || cfg.leaderLease == 0 {
      ReadsRight(cfg);
    } else {
      var c := StaleRead(cfg);
      var run := R.RunTo(cfg, c);
      assert Misses(cfg, run, |run| - 1, |run| - 1, Role(cfg, 0), Role(cfg, 1));
      assert Rivals(cfg, run, |run| - 1, Role(cfg, 0), Role(cfg, 1));
    }
  }
}
